/** The bundle descriptor that webpack.config.ts exports, built from the
    environment, and the mutable object that the scripts under utils/ load
    and change in place. */
module WebpackConfig {
  import opened JsValues
  import opened Paths

  /** What the configuration reads from outside itself. */
  datatype Env = Env(
    nodeEnv: Option<string>,   // process.env.NODE_ENV
    nodeEnvSetting: string,    // NODE_ENV as exported by utils/env
    port: string,              // PORT as exported by utils/env, in the text it prints as
    assetPath: string,         // ASSET_PATH as exported by utils/env
    root: Path,                // __dirname: the directory of webpack.config.ts
    secretsFileExists: bool)   // whether the file at SecretsPath(env) exists

  datatype Mode = Development | Production

  datatype Minimizer = Terser(extractComments: bool)

  datatype Optimization = Optimization(minimize: bool, minimizer: seq<Minimizer>)

  /** What an entry names: one module request, or a list of them. */
  datatype EntryValue = Single(request: string) | Many(requests: seq<string>)

  type EntryMap = map<string, EntryValue>

  /** The out-of-schema `chromeExtensionBoilerplate` property that carries
      the hot-reload exclusion list to the dev server. */
  datatype Marker = Marker(notHotReload: Option<seq<string>>)

  datatype Output = Output(filename: string, path: Path, clean: bool, publicPath: string)

  datatype Loader =
    | StyleLoader
    | CssLoader
    | SassLoader(sourceMap: bool)
    | HtmlLoader
    | TsLoader(beforeTransformers: seq<string>, transpileOnly: bool)
    | SourceMapLoader
    | BabelLoader(plugins: seq<string>)

  /** A rule's `test`: a regular-expression literal by its source text, or
      the asset pattern `new RegExp('.(' + exts.join('|') + ')$')` kept by
      the extension list it is built from. */
  datatype Test = Regex(source: string) | ExtensionAlternation(exts: seq<string>)

  /** A `module.rules` entry: its `test` pattern, the source text of its
      `exclude` pattern, its asset `type`, and its loader chain. */
  datatype Rule = Rule(test: Test, exclude: Option<string>, assetType: Option<string>, use: seq<Loader>)

  datatype Resolution = Resolution(alias: map<string, Path>, extensions: seq<string>)

  /** A CopyWebpackPlugin pattern; `rewritesManifest` marks the one pattern
      whose content goes through Manifest.Transform. */
  datatype CopyPattern = CopyPattern(from: string, to: Path, force: bool, rewritesManifest: bool)

  datatype Plugin =
    | ReactRefresh(overlay: bool)
    | Clean(verbose: bool)
    | Progress
    | Environment(keys: seq<string>)
    | Copy(patterns: seq<CopyPattern>)
    | HtmlShell(template: Path, filename: string, chunks: seq<string>, cache: bool)
    | Zip(filename: string, path: Path)

  /** The properties of the exported configuration object. `entry`, the
      marker and `plugins` are optional, as the scripts that load the object
      treat them. */
  datatype Descriptor = Descriptor(
    mode: Mode,
    devtool: Option<string>,
    optimization: Option<Optimization>,
    entry: Option<EntryMap>,
    chromeExtensionBoilerplate: Option<Marker>,
    output: Output,
    moduleRules: seq<Rule>,
    resolve: Resolution,
    plugins: Option<seq<Plugin>>,
    infrastructureLogging: string)

  // Inputs derived from the environment

  predicate IsDevMode(env: Env)
  {
    env.nodeEnv != Some("production")
  }

  function OutDir(env: Env): Path
  {
    Join(env.root, ["build"])
  }

  function SecretsPath(env: Env): Path
  {
    Join(env.root, ["secrets." + env.nodeEnvSetting + ".js"])
  }

  /** `ALIAS`: empty, with `secrets` added only when the secrets file for the
      current NODE_ENV exists. */
  function Alias(env: Env): (alias: map<string, Path>)
    ensures "secrets" in alias <==> env.secretsFileExists
    ensures alias.Keys <= {"secrets"}
    ensures "secrets" in alias ==> alias["secrets"] == SecretsPath(env)
  {
    if env.secretsFileExists then map["secrets" := SecretsPath(env)] else map[]
  }

  // Entry points

  /** The entries the dev server must not instrument for hot reload. */
  const NotHotReload: seq<string> := ["background", "contentScript", "devtools"]

  const PageNames: set<string> := {"newtab", "options", "popup", "background", "devtools", "panel", "contentScript"}

  function HmrClient(port: string): string
  {
    "webpack-dev-server/client?http://localhost:" + port
  }

  function PageSource(env: Env, dir: string, file: string): string
  {
    Render(Join(env.root, ["src", "pages", dir, file]))
  }

  /** The entry map: the dev-server client under `hmr`, and one source
      root per page. */
  function Entries(env: Env): (entries: EntryMap)
    ensures entries.Keys == PageNames + {"hmr"}
    ensures entries["hmr"] == Single(HmrClient(env.port))
    ensures forall name :: name in PageNames ==> entries[name].Single?
  {
    map[
      "hmr" := Single(HmrClient(env.port)),
      "newtab" := Single(PageSource(env, "Newtab", "index.tsx")),
      "options" := Single(PageSource(env, "Options", "index.tsx")),
      "popup" := Single(PageSource(env, "Popup", "index.tsx")),
      "background" := Single(PageSource(env, "Background", "index.ts")),
      "devtools" := Single(PageSource(env, "Devtools", "index.ts")),
      "panel" := Single(PageSource(env, "Panel", "index.tsx")),
      "contentScript" := Single(PageSource(env, "Content", "index.ts"))
    ]
  }

  /** A page's source root is the path `src/pages/<dir>/<file>` under the
      project directory. */
  lemma PageSourceIs(env: Env, dir: string, file: string)
    requires Plain(dir) && Plain(file)
    ensures PageSource(env, dir, file) == Render(env.root + ["src", "pages", dir, file])
  {
    JoinPlain(env.root, ["src", "pages", dir, file]);
  }

  /** Each of the seven pages compiles its own source root. */
  lemma PageSources(env: Env)
    ensures Entries(env)["newtab"] == Single(Render(env.root + ["src", "pages", "Newtab", "index.tsx"]))
    ensures Entries(env)["options"] == Single(Render(env.root + ["src", "pages", "Options", "index.tsx"]))
    ensures Entries(env)["popup"] == Single(Render(env.root + ["src", "pages", "Popup", "index.tsx"]))
    ensures Entries(env)["background"] == Single(Render(env.root + ["src", "pages", "Background", "index.ts"]))
    ensures Entries(env)["devtools"] == Single(Render(env.root + ["src", "pages", "Devtools", "index.ts"]))
    ensures Entries(env)["panel"] == Single(Render(env.root + ["src", "pages", "Panel", "index.tsx"]))
    ensures Entries(env)["contentScript"] == Single(Render(env.root + ["src", "pages", "Content", "index.ts"]))
  {
    PageSourceIs(env, "Newtab", "index.tsx");
    PageSourceIs(env, "Options", "index.tsx");
    PageSourceIs(env, "Popup", "index.tsx");
    PageSourceIs(env, "Background", "index.ts");
    PageSourceIs(env, "Devtools", "index.ts");
    PageSourceIs(env, "Panel", "index.tsx");
    PageSourceIs(env, "Content", "index.ts");
  }

  // Loader rules

  const FileExts: seq<string> := ["jpg", "jpeg", "png", "gif", "eot", "otf", "svg", "ttf", "woff", "woff2"]

  const StyleRule: Rule := Rule(Regex("\\.(css|scss)$"), None, None, [StyleLoader, CssLoader, SassLoader(true)])

  const AssetRule: Rule := Rule(ExtensionAlternation(FileExts), Some("node_modules"), Some("asset/resource"), [])

  const HtmlRule: Rule := Rule(Regex("\\.html$"), Some("node_modules"), None, [HtmlLoader])

  /** ts-loader, with the React-refresh transformer and `transpileOnly` in
      development. */
  function TsRule(dev: bool): Rule
  {
    Rule(Regex("\\.(ts|tsx)$"), Some("node_modules"), None,
         [TsLoader(Compact([if dev then Some("react-refresh-typescript") else None]), dev)])
  }

  /** source-map-loader, then babel-loader with the React-refresh plugin in
      development. */
  function JsRule(dev: bool): Rule
  {
    Rule(Regex("\\.(js|jsx)$"), Some("node_modules"), None,
         [SourceMapLoader, BabelLoader(Compact([if dev then Some("react-refresh/babel") else None]))])
  }

  function Rules(env: Env): seq<Rule>
  {
    [StyleRule, AssetRule, HtmlRule, TsRule(IsDevMode(env)), JsRule(IsDevMode(env))]
  }

  // Module resolution

  function Dotted(exts: seq<string>): (r: seq<string>)
  {
    seq(|exts|, i requires 0 <= i < |exts| => "." + exts[i])
  }

  const Extensions: seq<string> := Dotted(FileExts) + [".ts", ".tsx", ".js", ".jsx", ".css"]

  // Plugins

  function CopyTo(env: Env, from: string): Plugin
  {
    Copy([CopyPattern(from, OutDir(env), true, false)])
  }

  function Shell(env: Env, dir: string, name: string): Plugin
  {
    HtmlShell(Join(env.root, ["src", "pages", dir, "index.html"]), name + ".html", [name], false)
  }

  /** The five HTML shells, one per page that has a document. */
  function Shells(env: Env): seq<Plugin>
  {
    [
      Shell(env, "Newtab", "newtab"),
      Shell(env, "Options", "options"),
      Shell(env, "Popup", "popup"),
      Shell(env, "Devtools", "devtools"),
      Shell(env, "Panel", "panel")
    ]
  }

  /** Cleaning, progress, the NODE_ENV allow-list and the five copies
      (the manifest, the content stylesheet, three icons). */
  function Preparation(env: Env): (r: seq<Plugin>)
    ensures forall i :: 0 <= i < |r| ==> !r[i].HtmlShell? && !r[i].ReactRefresh?
  {
    [
      Clean(false),
      Progress,
      Environment(["NODE_ENV"]),
      Copy([CopyPattern("src/manifest.json", OutDir(env), true, true)]),
      CopyTo(env, "src/pages/Content/content.styles.css"),
      CopyTo(env, "src/assets/img/icon-128.png"),
      CopyTo(env, "src/assets/img/icon-64.png"),
      CopyTo(env, "src/assets/img/icon-34.png")
    ]
  }

  /** The files copied unchanged into the output directory. */
  const CopiedAssets: seq<string> := [
    "src/pages/Content/content.styles.css",
    "src/assets/img/icon-128.png",
    "src/assets/img/icon-64.png",
    "src/assets/img/icon-34.png"
  ]

  /** The copies among the shared plugins: the fourth plugin copies
      `src/manifest.json` and is the one pattern whose content is rewritten
      (by Manifest.Transform); the next four copy the content stylesheet and
      the three icons unchanged; every copy goes to the output directory. */
  lemma CopyPlugins(env: Env)
    ensures |SharedPlugins(env)| == 13
    ensures SharedPlugins(env)[3] == Copy([CopyPattern("src/manifest.json", OutDir(env), true, true)])
    ensures forall i :: 4 <= i < 8 ==>
      SharedPlugins(env)[i] == Copy([CopyPattern(CopiedAssets[i - 4], OutDir(env), true, false)])
    ensures forall i, j :: 0 <= i < 13 && SharedPlugins(env)[i].Copy? && 0 <= j < |SharedPlugins(env)[i].patterns| ==>
      (SharedPlugins(env)[i].patterns[j].rewritesManifest <==> i == 3)
  {
  }

  /** The plugins whose slot in the array literal is never `false`. */
  function SharedPlugins(env: Env): seq<Plugin>
  {
    Preparation(env) + Shells(env)
  }

  /** The `plugins` array literal: its first slot is `IS_DEV_MODE && new
      ReactRefreshWebpackPlugin(...)`. */
  function PluginSlots(env: Env): seq<Option<Plugin>>
  {
    [if IsDevMode(env) then Some(ReactRefresh(false)) else None] + Present(SharedPlugins(env))
  }

  function Plugins(env: Env): seq<Plugin>
  {
    Compact(PluginSlots(env))
  }

  /** The exported configuration. */
  function Build(env: Env): (d: Descriptor)
    ensures d.mode == Development <==> env.nodeEnv != Some("production")
    ensures d.devtool == if d.mode == Development then Some("cheap-module-source-map") else None
    ensures d.optimization.Some? <==> d.mode == Production
    ensures d.optimization.Some? ==> d.optimization.value.minimize && d.optimization.value.minimizer == [Terser(false)]
    ensures d.entry == Some(Entries(env)) && d.entry.value.Keys == PageNames + {"hmr"}
    ensures d.chromeExtensionBoilerplate == Some(Marker(Some(NotHotReload)))
    ensures d.moduleRules == Rules(env) && d.resolve == Resolution(Alias(env), Extensions)
    ensures d.plugins == Some(Plugins(env)) && d.output.path == OutDir(env) && d.output.clean
  {
    var dev := IsDevMode(env);
    Descriptor(
      if dev then Development else Production,
      if dev then Some("cheap-module-source-map") else None,
      if dev then None else Some(Optimization(true, [Terser(false)])),
      Some(Entries(env)),
      Some(Marker(Some(NotHotReload))),
      Output("[name].bundle.js", OutDir(env), true, env.assetPath),
      Rules(env),
      Resolution(Alias(env), Extensions),
      Some(Plugins(env)),
      "info")
  }

  // Properties of the descriptor

  /** React-refresh instrumentation is on exactly in development: in the
      TypeScript loader's transformers and in the Babel plugins. */
  lemma RefreshInstrumentation(env: Env)
    ensures var rules := Rules(env);
      && |rules| == 5
      && rules[3].use == [TsLoader(if IsDevMode(env) then ["react-refresh-typescript"] else [], IsDevMode(env))]
      && rules[4].use == [SourceMapLoader, BabelLoader(if IsDevMode(env) then ["react-refresh/babel"] else [])]
  {
    var transformer: seq<Option<string>> := [if IsDevMode(env) then Some("react-refresh-typescript") else None];
    var babel: seq<Option<string>> := [if IsDevMode(env) then Some("react-refresh/babel") else None];
    assert transformer[1..] == [] && babel[1..] == [];
    assert Compact(transformer) == if IsDevMode(env) then ["react-refresh-typescript"] else [];
    assert Compact(babel) == if IsDevMode(env) then ["react-refresh/babel"] else [];
  }

  /** The style rule comes first and the TypeScript rule precedes the
      JavaScript one. */
  lemma RuleOrder(env: Env)
    ensures var rules := Rules(env);
      && |rules| == 5
      && rules[0].test == Regex("\\.(css|scss)$")
      && rules[1].test == ExtensionAlternation(FileExts)
      && rules[1].assetType == Some("asset/resource")
      && rules[2].use == [HtmlLoader]
      && rules[3].test == Regex("\\.(ts|tsx)$")
      && rules[4].test == Regex("\\.(js|jsx)$")
  {
  }

  /** Every rule after the style rule skips node_modules. */
  lemma RulesSkipNodeModules(env: Env)
    ensures var rules := Rules(env);
      && |rules| == 5
      && rules[0].exclude.None?
      && forall i :: 1 <= i < 5 ==> rules[i].exclude == Some("node_modules")
  {
  }

  /** `filter(Boolean)` drops the React-refresh slot outside development and
      keeps every other plugin in its order. */
  lemma {:induction false} PluginsByMode(env: Env)
    ensures Plugins(env) == (if IsDevMode(env) then [ReactRefresh(false)] else []) + SharedPlugins(env)
  {
    var shared := SharedPlugins(env);
    var first: seq<Option<Plugin>> := [if IsDevMode(env) then Some(ReactRefresh(false)) else None];
    CompactAppend(first, Present(shared));
    CompactPresent(shared);
    assert first[1..] == [];
  }

  /** The React-refresh plugin is there exactly in development; the other
      thirteen plugins are there in both modes. */
  lemma ReactRefreshOnlyInDev(env: Env)
    ensures ReactRefresh(false) in Plugins(env) <==> IsDevMode(env)
    ensures |Plugins(env)| == if IsDevMode(env) then 14 else 13
  {
    PluginsByMode(env);
    var shared := SharedPlugins(env);
    assert forall i :: 0 <= i < |shared| ==> !shared[i].ReactRefresh?;
  }

  const ShellOrder: seq<string> := ["newtab", "options", "popup", "devtools", "panel"]

  /** The page directory under `src/pages` whose `index.html` each shell
      uses as its template, in the same order. */
  const ShellDirs: seq<string> := ["Newtab", "Options", "Popup", "Devtools", "Panel"]

  /** The shells, in order, are those of newtab, options, popup, devtools
      and panel, each named after its page and holding only its chunk. */
  lemma ShellsInOrder(env: Env)
    ensures |Shells(env)| == |ShellOrder|
    ensures forall i :: 0 <= i < |ShellOrder| ==>
      var p := Shells(env)[i];
      p.HtmlShell? && p.chunks == [ShellOrder[i]] && p.filename == ShellOrder[i] + ".html" && !p.cache
    ensures forall i :: 0 <= i < |ShellOrder| ==>
      Shells(env)[i].template == env.root + ["src", "pages", ShellDirs[i], "index.html"]
  {
    forall i | 0 <= i < |ShellOrder|
      ensures Shells(env)[i].template == env.root + ["src", "pages", ShellDirs[i], "index.html"]
    {
      JoinPlain(env.root, ["src", "pages", ShellDirs[i], "index.html"]);
    }
  }

  /** What a plugin list says about shells when only its tail holds them. */
  lemma ShellsAfter(front: seq<Plugin>, shells: seq<Plugin>, names: seq<string>)
    requires forall i :: 0 <= i < |front| ==> !front[i].HtmlShell?
    requires |shells| == |names|
    requires forall i :: 0 <= i < |names| ==>
      shells[i].HtmlShell? && shells[i].chunks == [names[i]] && shells[i].filename == names[i] + ".html" && !shells[i].cache
    ensures forall p :: p in front + shells && p.HtmlShell? ==>
      |p.chunks| == 1 && p.chunks[0] in names && p.filename == p.chunks[0] + ".html" && !p.cache
    ensures forall name :: name in names ==>
      exists p :: p in front + shells && p.HtmlShell? && p.chunks == [name]
  {
    forall p | p in front + shells && p.HtmlShell?
      ensures |p.chunks| == 1 && p.chunks[0] in names && p.filename == p.chunks[0] + ".html" && !p.cache
    {
      var k :| 0 <= k < |front + shells| && (front + shells)[k] == p;
      assert k >= |front| && p == shells[k - |front|];
    }
    forall name | name in names
      ensures exists p :: p in front + shells && p.HtmlShell? && p.chunks == [name]
    {
      var i :| 0 <= i < |names| && names[i] == name;
      assert (front + shells)[|front| + i] == shells[i];
    }
  }

  /** Five pages get an HTML shell named after the page and holding only
      that page's chunk, and no other plugin is a shell. */
  lemma HtmlShells(env: Env)
    ensures forall p :: p in Plugins(env) && p.HtmlShell? ==>
      |p.chunks| == 1 && p.chunks[0] in ShellOrder && p.filename == p.chunks[0] + ".html" && !p.cache
    ensures forall name :: name in ShellOrder ==>
      exists p :: p in Plugins(env) && p.HtmlShell? && p.chunks == [name]
  {
    PluginsByMode(env);
    ShellsInOrder(env);
    var front := (if IsDevMode(env) then [ReactRefresh(false)] else []) + Preparation(env);
    assert Plugins(env) == front + Shells(env);
    ShellsAfter(front, Shells(env), ShellOrder);
  }

  /** The entries without a shell are `hmr`, `background` and
      `contentScript`. */
  lemma EntriesWithoutShell(env: Env)
    ensures Entries(env).Keys - (set name | name in ShellOrder) == {"hmr", "background", "contentScript"}
  {
  }

  // What the extension order decides

  /** The file an extension-less request `base` resolves to: the first
      extension in order for which the file exists. */
  function ResolveRequest(base: string, existing: set<string>, exts: seq<string>): (r: Option<string>)
    ensures r.Some? ==> r.value in existing && exists i :: 0 <= i < |exts| && r.value == base + exts[i]
    ensures r.None? ==> forall i :: 0 <= i < |exts| ==> base + exts[i] !in existing
  {
    if exts == [] then None
    else if base + exts[0] in existing then Some(base + exts[0])
    else
      var rest := ResolveRequest(base, existing, exts[1..]);
      assert forall i :: 1 <= i < |exts| ==> exts[i] == exts[1..][i - 1];
      rest
  }

  /** A request resolves to the first extension that exists. */
  lemma {:induction false} ResolveFirst(base: string, existing: set<string>, exts: seq<string>, k: nat)
    requires k < |exts| && base + exts[k] in existing
    requires forall j :: 0 <= j < k ==> base + exts[j] !in existing
    ensures ResolveRequest(base, existing, exts) == Some(base + exts[k])
  {
    if k > 0 {
      ResolveFirst(base, existing, exts[1..], k - 1);
    }
  }

  /** The extension order: the ten asset extensions, then TypeScript before
      JavaScript and TSX before JSX, then CSS. */
  lemma ExtensionOrder()
    ensures |Extensions| == 15
    ensures forall i :: 0 <= i < 10 ==> Extensions[i] == "." + FileExts[i]
    ensures Extensions[10..] == [".ts", ".tsx", ".js", ".jsx", ".css"]
  {
  }

  /** With `foo.ts` and `foo.js` side by side (and no asset of that name),
      an import of `foo` gets `foo.ts`. */
  lemma TypeScriptShadowsJavaScript(base: string, existing: set<string>)
    requires base + ".ts" in existing
    requires forall e :: e in FileExts ==> base + "." + e !in existing
    ensures ResolveRequest(base, existing, Extensions) == Some(base + ".ts")
  {
    forall j | 0 <= j < 10 ensures base + Extensions[j] !in existing {
      assert Extensions[j] == "." + FileExts[j];
      assert base + "." + FileExts[j] == base + ("." + FileExts[j]);
    }
    ResolveFirst(base, existing, Extensions, 10);
  }

  /** Likewise `foo.tsx` wins over `foo.jsx` when there is no `foo.ts`. */
  lemma TsxShadowsJsx(base: string, existing: set<string>)
    requires base + ".tsx" in existing && base + ".ts" !in existing
    requires forall e :: e in FileExts ==> base + "." + e !in existing
    ensures ResolveRequest(base, existing, Extensions) == Some(base + ".tsx")
  {
    forall j | 0 <= j < 11 ensures base + Extensions[j] !in existing {
      if j < 10 {
        assert Extensions[j] == "." + FileExts[j];
        assert base + "." + FileExts[j] == base + ("." + FileExts[j]);
      }
    }
    ResolveFirst(base, existing, Extensions, 11);
  }

  /** The loaded configuration object, shared by everything that `require`s
      webpack.config: its properties are reassigned and deleted in place. */
  class ConfigObject {
    var mode: Mode
    var devtool: Option<string>
    var optimization: Option<Optimization>
    var entry: Option<EntryMap>
    var chromeExtensionBoilerplate: Option<Marker>
    var output: Output
    var moduleRules: seq<Rule>
    var resolve: Resolution
    var plugins: Option<seq<Plugin>>
    var infrastructureLogging: string

    /** The object's current properties. */
    function Value(): Descriptor
      reads this
    {
      Descriptor(mode, devtool, optimization, entry, chromeExtensionBoilerplate,
                 output, moduleRules, resolve, plugins, infrastructureLogging)
    }

    /** `require('../webpack.config')`: a fresh object holding `d`. */
    constructor Load(d: Descriptor)
      ensures Value() == d
    {
      mode := d.mode;
      devtool := d.devtool;
      optimization := d.optimization;
      entry := d.entry;
      chromeExtensionBoilerplate := d.chromeExtensionBoilerplate;
      output := d.output;
      moduleRules := d.moduleRules;
      resolve := d.resolve;
      plugins := d.plugins;
      infrastructureLogging := d.infrastructureLogging;
    }
  }
}
