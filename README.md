# Build configuration of a Chromium extension boilerplate, in Dafny

This project models the configuration-derivation logic of a browser-extension
scaffold and proves properties of it:

- the flat ESLint configuration (`eslint.config.mjs`): the `applyToFiles` glob
  merge, the glob lists and the order of the exported configuration list;
- the webpack bundle descriptor (`webpack.config.ts`): mode-dependent settings,
  the entry map, the loader rules, the resolution order, the plugin list with
  its development-only slot, the HTML shells, the `secrets` alias, and the
  content transform that rewrites `manifest.json`;
- the dev-server script (`utils/webserver.ts`): the in-place rewrite of the
  entry table of the loaded configuration object for hot reload, and the
  deletion of the `chromeExtensionBoilerplate` marker;
- the production build script (`utils/build.ts`): the deletion of the marker,
  the copy-and-append of the zip plugin, and the archive name and directory.

What the configuration reads from the process and the disk enters as plain
values: `WebpackConfig.Env` carries `process.env.NODE_ENV`, the `NODE_ENV`,
`PORT` and `ASSET_PATH` exported by `utils/env` (that module is not part of
this model; `PORT` enters as the text it prints as), the project directory,
and whether the secrets file exists. The package metadata are parameters too:
`ProductionBuild.PackageInfo` for package.json, and the description and version
that npm exposes in the environment for the manifest transform. A parsed JSON
document is a `Json.Json` value.

Files and modules, one per component:

| file | module | models |
|---|---|---|
| js_values.dfy | JsValues | `??`, `filter(Boolean)`, decimal property keys |
| paths.dfy | Paths | `path.join` / `path.resolve` over segment lists |
| json.dfy | Json | parsed JSON, and what an object spread copies out of it |
| manifest.dfy | Manifest | the manifest content transform |
| eslint_config.dfy | EslintConfig | eslint.config.mjs |
| webpack_config.dfy | WebpackConfig | webpack.config.ts, and the loaded configuration object (class `ConfigObject`) |
| webserver.dfy | Webserver | utils/webserver.ts |
| build.dfy | ProductionBuild | utils/build.ts |

The two scripts change the object that `require('../webpack.config')` returns,
step by step; that object is the class `WebpackConfig.ConfigObject`, whose
fields are the configuration's properties, and the scripts are methods with
`modifies config` whose postconditions give the whole new state in terms of the
old one. Everything else is pure and is modelled with datatypes, functions and
lemmas.

Behaviour of the code worth knowing:

- the `hmr` entry (the dev-server client) is in the entry map in both modes, so
  the production bundle carries it too (`WebpackConfig.Entries`,
  `WebpackConfig.Build`); it is not selected by the mode;
- the dev-server script rewrites the entries of the shared, loaded object in
  place and deletes a property from it; it does not work on a copy
  (`Webserver.PrepareDevServer`);
- the exclusion list travels in the out-of-schema `chromeExtensionBoilerplate`
  property, not as a separate argument (`Webserver.ExclusionList`);
- the pages without an HTML shell are `background` and `contentScript` (and
  `hmr`); `devtools`, which the dev server excludes from hot reload, has a
  shell (`WebpackConfig.EntriesWithoutShell`);
- when npm exposes no description (or no version), the manifest loses that key
  altogether, even if the source manifest had it (`Manifest.Transform`);
- minification is the `optimization` setting, not a plugin; the plugin list
  starts with the development-only React-refresh plugin, then cleaning,
  progress, the `NODE_ENV` allow-list, the five copies (the manifest, the content stylesheet,
  three icons) and the five shells
  (`WebpackConfig.PluginsByMode`);
- `hmr` is not excluded from hot reload, so in the dev server it loads a
  dev-server client twice (`Webserver.DevEntries`).

## Model

| member | source | states |
|---|---|---|
| JsValues.Compact | webpack.config.ts:170-293 | `filter(Boolean)` keeps exactly the filled slots of the array literal: every kept value came from a slot and every filled slot's value is kept |
| JsValues.CompactAppend | webpack.config.ts:170-293 | filtering a concatenation concatenates the filtered parts, so the kept plugins stay in their relative order |
| JsValues.CompactPresent | webpack.config.ts:172-292 | an array literal without a `false` slot comes through `filter(Boolean)` unchanged |
| JsValues.Decimal | webpack.config.ts:187 | the property key of an index is a non-empty string of decimal digits, one digit exactly below ten |
| JsValues.DecimalInjective | webpack.config.ts:187 | two indices with the same property key are equal |
| Paths.JoinPlain | webpack.config.ts:56-74 | `path.join` of plain segments appends them in order to the base directory |
| Paths.SiblingOf | utils/build.ts:26 | `path.join(dir, '..', name)` is the sibling `name` of `dir` |
| Json.IndexKeysDistinct | webpack.config.ts:187 | distinct array or string indices give distinct keys |
| Json.Indexed | webpack.config.ts:187 | an object keyed by indices holds each element under its decimal index and nothing else |
| Json.OwnProperties | webpack.config.ts:187 | `{...JSON.parse(content)}` copies an object's members, an array's elements or a string's characters under their indices, and nothing from `null`, booleans and numbers |
| Manifest.Serialised | webpack.config.ts:185-192 | `JSON.stringify` keeps exactly the properties whose value is not `undefined`, with their values |
| Manifest.Transform | webpack.config.ts:182-193 | the written manifest keeps every source key except `description` and `version` with its value; `description` and `version` are the package's, and absent when npm gives none |
| Manifest.CarryingMetadataIsFixed | webpack.config.ts:182-193 | a manifest that already has the package's description and version (and lacks each exactly when npm gives none) is written back unchanged |
| Manifest.TransformIdempotent | webpack.config.ts:182-193 | transforming the written manifest again with the same metadata changes nothing |
| Manifest.MissingDescriptionDropsKey | webpack.config.ts:183-190 | without a package description the output has no `description`, even when the source manifest had one |
| Manifest.Example | webpack.config.ts:182-193 | an example: `{"manifest_version":3,"name":"placeholder"}` with description `x` and version `1.2.3` gives those four keys |
| EslintConfig.FlattenAppend | eslint.config.mjs:33 | the one-level flattening of `concat(...globs)` distributes over concatenation |
| EslintConfig.FlattenGlobs | eslint.config.mjs:33 | a list of plain globs flattens to itself |
| EslintConfig.ApplyToFiles | eslint.config.mjs:29-38 | one copy per configuration, in order; `files` is the old list (or empty) then the flattened file globs, `ignores` the old list (or empty) then the ignore globs; every other property is carried over |
| EslintConfig.WithGlobsTwice | eslint.config.mjs:31-36 | extending one configuration's copy twice equals extending it once with the concatenated globs |
| EslintConfig.ApplyToFilesTwice | eslint.config.mjs:29-38 | applying globs twice equals applying the concatenated globs once |
| EslintConfig.ApplyToFilesNeverGlobal | eslint.config.mjs:33-34 | no configuration that `applyToFiles` returns is a global ignore, since each has `files` |
| EslintConfig.ReactGlobsAreJsGlobs | eslint.config.mjs:40-49 | every React glob is a JS glob |
| EslintConfig.JsonIgnoresLintedAsJsonc | eslint.config.mjs:160-169 | the JSON files that the recommended JSON configurations ignore are files of every recommended JSONC configuration |
| EslintConfig.JsConfigsCoverJsGlobs | eslint.config.mjs:124-315 | every JS configuration, imported or local, covers every JS glob |
| EslintConfig.JsonConfigsNotGlobal | eslint.config.mjs:147-181 | the JSON configurations number two plus the four imported sets, and none is a global ignore |
| EslintConfig.FlatConfigSegments | eslint.config.mjs:344-351 | the exported list is the project configuration, the global ignores, then the JS and the JSON configurations exactly as assembled, then the two React configurations and the extension configuration |
| EslintConfig.FlatConfigOrder | eslint.config.mjs:344-351 | within those segments the second entry has `ignores` and no `files`, and is the only global ignore the file introduces |
| WebpackConfig.Alias | webpack.config.ts:13-20 | the alias map has `secrets`, pointing at `secrets.<NODE_ENV>.js`, exactly when that file exists, and nothing else |
| WebpackConfig.Entries | webpack.config.ts:51-75 | the entry keys are `hmr` and the seven pages; `hmr` is the dev-server client for PORT; each page has one source |
| WebpackConfig.PageSourceIs | webpack.config.ts:56-74 | a page entry `path.join(__dirname, 'src', 'pages', dir, file)` is the path `src/pages/<dir>/<file>` under the project directory |
| WebpackConfig.PageSources | webpack.config.ts:56-74 | each of the seven pages compiles its own root: `Newtab`, `Options`, `Popup`, `Panel` `index.tsx`; `Background`, `Devtools`, `Content` `index.ts` |
| WebpackConfig.Build | webpack.config.ts:35-168 | development exactly when NODE_ENV is not `production`; `cheap-module-source-map` in development and no source map in production; the five loader rules and the alias and extension resolution; Terser minimisation without comment extraction only in production; the entry map, the exclusion marker and the output directory |
| WebpackConfig.RefreshInstrumentation | webpack.config.ts:120-157 | the TypeScript loader's refresh transformer, its `transpileOnly` and the Babel refresh plugin are present exactly in development |
| WebpackConfig.RuleOrder | webpack.config.ts:87-158 | five rules: style first, then the asset rule built from the ten asset extensions, HTML, TypeScript, and JavaScript last |
| WebpackConfig.RulesSkipNodeModules | webpack.config.ts:87-158 | the style rule excludes nothing; every other rule skips node_modules |
| WebpackConfig.PluginsByMode | webpack.config.ts:170-293 | the plugin list is the React-refresh plugin in development only, then the shared plugins in order |
| WebpackConfig.ReactRefreshOnlyInDev | webpack.config.ts:171 | the React-refresh plugin is present exactly in development; 14 plugins in development, 13 in production |
| WebpackConfig.Preparation | webpack.config.ts:172-232 | none of the cleaning, progress, environment and copy plugins is a shell or the refresh plugin |
| WebpackConfig.CopyPlugins | webpack.config.ts:176-232 | the fourth plugin copies `src/manifest.json` and is the only copy pattern whose content is rewritten by `Manifest.Transform`; the next four copy the content stylesheet and the three icons unchanged; all go to the output directory |
| WebpackConfig.ShellsInOrder | webpack.config.ts:233-292 | the shells are newtab, options, popup, devtools, panel, each `<name>.html` with chunks `[<name>]`, no cache, and the template `src/pages/<Dir>/index.html` of its own page |
| WebpackConfig.HtmlShells | webpack.config.ts:233-292 | every shell in the plugin list is one of those five pages, named after it with only its chunk, and each of the five has one |
| WebpackConfig.EntriesWithoutShell | webpack.config.ts:233-292 | the entries without a shell are `hmr`, `background` and `contentScript` |
| WebpackConfig.ResolveRequest | webpack.config.ts:160-168 | an extension-less request resolves to an existing file `base + ext` for a listed extension, and to nothing only when no such file exists |
| WebpackConfig.ResolveFirst | webpack.config.ts:162-168 | it resolves to the first listed extension whose file exists |
| WebpackConfig.ExtensionOrder | webpack.config.ts:162-168 | fifteen extensions: the ten asset extensions each after a dot, then `.ts`, `.tsx`, `.js`, `.jsx`, `.css` |
| WebpackConfig.TypeScriptShadowsJavaScript | webpack.config.ts:162-168 | with `foo.ts` and `foo.js` (and no asset named `foo`), `foo` resolves to `foo.ts` |
| WebpackConfig.TsxShadowsJsx | webpack.config.ts:164-166 | with `foo.tsx` and `foo.jsx` but no `foo.ts`, `foo` resolves to `foo.tsx` |
| WebpackConfig.ConfigObject.Load | utils/webserver.ts:17 | loading the configuration gives an object whose properties are the descriptor's |
| Webserver.ExclusionList | utils/webserver.ts:20-21 | the exclusion list is the marker's `notHotReload`, and empty when the marker or its list is absent |
| Webserver.HotReloadEntries | utils/webserver.ts:24-34 | the rewritten table has the same keys; excluded entries keep their value; every other entry becomes a list of the hot-reload clients followed by its old requests |
| Webserver.RewriteEntries | utils/webserver.ts:26-34 | the `for ... in` loop over the entry names leaves exactly the rewritten table behind |
| Webserver.PrepareDevServer | utils/webserver.ts:20-37 | on the loaded object, `entry` becomes the rewritten table of `entry ?? {}` and the marker is deleted; no other property changes |
| Webserver.DevEntries | utils/webserver.ts:26-34 | on the exported entries, `background`, `contentScript` and `devtools` are unchanged, the other four pages and `hmr` load the hot-module-replacement runtime and the dev-server client first |
| Webserver.BoilerplateExclusions | webpack.config.ts:76-79 | the exported marker yields the exclusion list background, contentScript, devtools |
| Webserver.RunWebserver | utils/webserver.ts:7-37 | the script's configuration is the development descriptor with rewritten entries and no marker |
| ProductionBuild.ZipFilename | utils/build.ts:25 | the archive name reads back as the package name, a dash, the version and `.zip` |
| ProductionBuild.ZipFilenameInjective | utils/build.ts:25 | for one package name, different versions give different archive names |
| ProductionBuild.ZipBesideUtils | utils/build.ts:26 | the archive directory is `zip` in the project root, beside `utils` |
| ProductionBuild.WithZip | utils/build.ts:23-28 | the new plugin list is the old one (empty when absent) with exactly one plugin after it |
| ProductionBuild.PrepareProductionBuild | utils/build.ts:15-28 | on the loaded object, the marker is deleted and `plugins` becomes the old list plus the zip plugin; no other property changes |
| ProductionBuild.ProductionPlugins | utils/build.ts:23-28 | in production the zipped plugin list is the thirteen shared plugins then the zip, and the configuration's own list has no React-refresh plugin |
| ProductionBuild.RunBuild | utils/build.ts:7-28 | the script's configuration is the production descriptor, minimised, with no marker and the zip plugin appended |

## Left out

- The popup and options pages (React rendering, and the throw on a missing container): user interface, no derivation logic.
- The Prettier configuration: a static option table.
- The ESLint rule tables, parser options and the configurations the plugins export: opaque values of a type parameter, carried through unchanged.
- Webpack, the dev server, Terser, the loaders and the copy plugin themselves: the engines that consume the descriptor. Rule `test` patterns are kept as source text, and the asset pattern only by the extension list it is joined from (its joined text is not rendered); what they match is not modelled, only the order of the rules.
- Reading package.json and `src/manifest.json`, `JSON.parse` errors, `Buffer` and UTF-8 decoding, `fs.existsSync`: I/O; their results are parameters.
- The `process.env` assignments at the top of both scripts: only their effect on the mode is modelled, by the environment given to the descriptor in `RunWebserver` and `RunBuild`.
- The asynchronous `SERVER.start()` with its logged failure, and the `webpack(...)` callback that rethrows: asynchronous I/O.
- The option literal given to the dev server: a static record with nothing to derive.
- Key order of JavaScript objects: entry tables, aliases and JSON objects are maps.
- Manifest.Transform: states the JSON value the written bytes denote, not the key order or the spacing `JSON.stringify` produces.
- `path.join` arguments containing `/`, and paths relative to the working directory: every argument is taken as one segment of an absolute path.
- `require.resolve(...)` results: loaders and Babel plugins are named by their modules, not by resolved file paths.
- Entry values other than a string or a list of strings (webpack's entry description objects): the configuration never uses them.
- Manifest.Transform: number literals are carried as written; the source re-renders them through doubles (`3.0` becomes `3`, `1e400` becomes `null`, `-0` becomes `0`, integers above 2^53 are rounded), which the model does not capture.
- WebpackConfig.ResolveRequest: does not model webpack first trying the request as written (a file literally named `foo`) before appending the extensions, so the shadowing lemmas hold only where no file carries the bare request name.
