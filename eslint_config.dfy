/** The flat ESLint configuration (eslint.config.mjs): the `applyToFiles`
    glob merge, the glob lists, and the order in which the exported list is
    assembled. Rule tables, parser options and the configurations that the
    plugins export are opaque values of type `V`. */
module EslintConfig {
  import opened JsValues

  /** An element of a `files` list: a glob, or a list of globs that must all
      match (ESLint's nested-array form). */
  datatype FileGlob = Glob(pattern: string) | AllOf(patterns: seq<string>)

  /** A flat configuration object: its `files` and `ignores` lists (absent
      when `undefined`) and every other property by name. */
  datatype Config<V> = Config(files: Option<seq<FileGlob>>, ignores: Option<seq<string>>, others: map<string, V>)

  /** ESLint treats an object holding `ignores` and nothing else as a set
      of ignores for the whole project. */
  predicate IsGlobalIgnore<V>(c: Config<V>)
  {
    c.ignores.Some? && c.files.None? && c.others == map[]
  }

  /** `[].concat(...globs)`: every argument that is an array is spread into
      the result, one level deep. */
  function Flatten(globs: seq<FileGlob>): seq<string>
  {
    if globs == [] then []
    else
      (match globs[0] case Glob(p) => [p] case AllOf(ps) => ps) + Flatten(globs[1..])
  }

  /** Flattening a concatenation flattens each part. */
  lemma {:induction false} FlattenAppend(xs: seq<FileGlob>, ys: seq<FileGlob>)
    ensures Flatten(xs + ys) == Flatten(xs) + Flatten(ys)
  {
    if xs == [] {
      assert xs + ys == ys;
    } else {
      assert (xs + ys)[0] == xs[0];
      assert (xs + ys)[1..] == xs[1..] + ys;
      FlattenAppend(xs[1..], ys);
    }
  }

  /** A list of plain globs, as passed to `applyToFiles`. */
  function Globs(patterns: seq<string>): seq<FileGlob>
  {
    seq(|patterns|, i requires 0 <= i < |patterns| => Glob(patterns[i]))
  }

  /** Concatenation of arrays regroups freely; stated once so that the
      proofs below need not rediscover it. */
  lemma AppendAssociates<T>(xs: seq<T>, ys: seq<T>, zs: seq<T>)
    ensures xs + ys + zs == xs + (ys + zs)
  {
  }

  /** Wrapping a concatenation wraps each part. */
  lemma GlobsAppend(xs: seq<string>, ys: seq<string>)
    ensures Globs(xs + ys) == Globs(xs) + Globs(ys)
  {
    assert forall i :: 0 <= i < |xs| + |ys| ==> Globs(xs + ys)[i] == (Globs(xs) + Globs(ys))[i];
  }

  /** A list of plain globs flattens to itself. */
  lemma {:induction false} FlattenGlobs(patterns: seq<string>)
    ensures Flatten(Globs(patterns)) == patterns
  {
    if patterns != [] {
      assert Globs(patterns)[1..] == Globs(patterns[1..]);
      FlattenGlobs(patterns[1..]);
    }
  }

  /** The shallow copy that `applyToFiles` makes of one configuration. */
  function WithGlobs<V>(fileGlobs: seq<FileGlob>, ignoreGlobs: seq<string>, config: Config<V>): Config<V>
  {
    config.(files := Some(GetOr(config.files, []) + Globs(Flatten(fileGlobs))),
            ignores := Some(GetOr(config.ignores, []) + ignoreGlobs))
  }

  /** `applyToFiles(fileGlobs, ignoreGlobs, configs)`: a copy of each
      configuration, in order, whose `files` and `ignores` are extended; the
      given configurations are values and stay as they were. */
  function ApplyToFiles<V>(fileGlobs: seq<FileGlob>, ignoreGlobs: seq<string>, configs: seq<Config<V>>): (r: seq<Config<V>>)
    ensures |r| == |configs|
    ensures forall i :: 0 <= i < |r| ==>
      r[i].files == Some(GetOr(configs[i].files, []) + Globs(Flatten(fileGlobs)))
    ensures forall i :: 0 <= i < |r| ==>
      r[i].ignores == Some(GetOr(configs[i].ignores, []) + ignoreGlobs)
    ensures forall i :: 0 <= i < |r| ==> r[i].others == configs[i].others
  {
    seq(|configs|, i requires 0 <= i < |configs| => WithGlobs(fileGlobs, ignoreGlobs, configs[i]))
  }

  /** For one configuration: extending twice is extending once with the
      concatenated globs. */
  lemma WithGlobsTwice<V>(f1: seq<FileGlob>, i1: seq<string>, f2: seq<FileGlob>, i2: seq<string>, c: Config<V>)
    ensures WithGlobs(f2, i2, WithGlobs(f1, i1, c)) == WithGlobs(f1 + f2, i1 + i2, c)
  {
    var g1, g2 := Globs(Flatten(f1)), Globs(Flatten(f2));
    FlattenAppend(f1, f2);
    GlobsAppend(Flatten(f1), Flatten(f2));
    var once := WithGlobs(f1, i1, c);
    AppendAssociates(GetOr(c.files, []), g1, g2);
    AppendAssociates(GetOr(c.ignores, []), i1, i2);
    assert GetOr(once.files, []) == GetOr(c.files, []) + g1;
    assert GetOr(once.ignores, []) == GetOr(c.ignores, []) + i1;
  }

  /** Applying globs twice is applying their concatenations once. */
  lemma ApplyToFilesTwice<V>(f1: seq<FileGlob>, i1: seq<string>, f2: seq<FileGlob>, i2: seq<string>, configs: seq<Config<V>>)
    ensures ApplyToFiles(f2, i2, ApplyToFiles(f1, i1, configs)) == ApplyToFiles(f1 + f2, i1 + i2, configs)
  {
    var once := ApplyToFiles(f1, i1, configs);
    var twice := ApplyToFiles(f2, i2, once);
    var direct := ApplyToFiles(f1 + f2, i1 + i2, configs);
    forall i | 0 <= i < |configs| ensures twice[i] == direct[i] {
      WithGlobsTwice(f1, i1, f2, i2, configs[i]);
    }
  }

  /** Whatever it is given, `applyToFiles` never yields a global ignore:
      every copy has a `files` list. */
  lemma ApplyToFilesNeverGlobal<V>(fileGlobs: seq<FileGlob>, ignoreGlobs: seq<string>, configs: seq<Config<V>>)
    ensures forall c :: c in ApplyToFiles(fileGlobs, ignoreGlobs, configs) ==> !IsGlobalIgnore(c)
  {
  }

  // The glob lists

  const ReactFileGlobs: seq<string> := ["**/*.jsx", "**/*.tsx"]
  const JsFileGlobs: seq<string> := ["**/*.js", "**/*.cjs", "**/*.mjs", "**/*.ts", "**/*.cts", "**/*.mts"] + ReactFileGlobs
  const JsonFileGlobs: seq<string> := ["**/*.json"]
  const JsonIgnoreGlobs: seq<string> := ["**/.vscode/*.json", "**/tsconfig.json"]
  const JsoncFileGlobs: seq<string> := ["**/*.jsonc"] + JsonIgnoreGlobs
  const Json5FileGlobs: seq<string> := ["**/*.json5"]

  const GlobalIgnores: seq<string> := [
    // Dependencies
    "**/node_modules/**",
    // Development
    "**/coverage/**", "**/test/**", "**/testing/**", "**/package-lock.json", "**/eslint.*",
    // Deployment
    "**/build/**", "**/dist/**", "/zip/**", "**/*.min.*", "**/*.bundle.*", "**/*.map.js",
    // Secrets
    "**/.DS_Store", "**/*.env", "**/*.env.*", "**/.history",
    // Temporary files
    "**/tmp/**", "**/temp/**", "**/backup/**", "**/cache/**", "**/logs/**", "**/*.log",
    // Licenses
    "**/LICENSE", "**/LICENSE.md", "**/*.license"
  ]

  /** What the configuration file takes from the plugins it imports, and the
      values it writes itself that the model does not interpret. */
  datatype Imported<V> = Imported(
    typescript: seq<Config<V>>,       // tseslint.config([...]) over the recommended sets
    jsoncBase: seq<Config<V>>,        // jsonc.configs['flat/base']
    jsoncWithJson: seq<Config<V>>,    // jsonc.configs['flat/recommended-with-json']
    jsoncWithJsonc: seq<Config<V>>,   // jsonc.configs['flat/recommended-with-jsonc']
    jsoncWithJson5: seq<Config<V>>,   // jsonc.configs['flat/recommended-with-json5']
    reactRecommended: Config<V>,      // react.configs.flat.recommended
    projectLanguageOptions: V,
    jsonLanguageOptions: V,
    jsRules: V,
    jsoncRules: V,
    reactRules: V,
    extensionLanguageOptions: V)

  function ProjectConfig<V>(imp: Imported<V>): Config<V>
  {
    Config(None, None, map["languageOptions" := imp.projectLanguageOptions])
  }

  function GlobalIgnoreConfig<V>(): Config<V>
  {
    Config(None, Some(GlobalIgnores), map[])
  }

  function JsConfigs<V>(imp: Imported<V>): seq<Config<V>>
  {
    ApplyToFiles(Globs(JsFileGlobs), [], imp.typescript)
      + [Config(Some(Globs(JsFileGlobs)), None, map["rules" := imp.jsRules])]
  }

  function JsonConfigs<V>(imp: Imported<V>): seq<Config<V>>
  {
    [Config(None, None, map["languageOptions" := imp.jsonLanguageOptions])]
      + ApplyToFiles(Globs(JsonFileGlobs + JsoncFileGlobs + Json5FileGlobs), [], imp.jsoncBase)
      + ApplyToFiles(Globs(JsonFileGlobs), JsonIgnoreGlobs, imp.jsoncWithJson)
      + ApplyToFiles(Globs(JsoncFileGlobs), [], imp.jsoncWithJsonc)
      + ApplyToFiles(Globs(Json5FileGlobs), [], imp.jsoncWithJson5)
      + [Config(Some(Globs(JsoncFileGlobs + Json5FileGlobs)), None, map["rules" := imp.jsoncRules])]
  }

  function ReactConfigs<V>(imp: Imported<V>): seq<Config<V>>
  {
    [imp.reactRecommended, Config(Some(Globs(ReactFileGlobs)), None, map["rules" := imp.reactRules])]
  }

  function ExtensionConfig<V>(imp: Imported<V>): Config<V>
  {
    Config(Some(Globs(JsFileGlobs)), None, map["languageOptions" := imp.extensionLanguageOptions])
  }

  /** The exported configuration list. */
  function FlatConfig<V>(imp: Imported<V>): seq<Config<V>>
  {
    [ProjectConfig(imp), GlobalIgnoreConfig()] + JsConfigs(imp) + JsonConfigs(imp) + ReactConfigs(imp) + [ExtensionConfig(imp)]
  }

  // Properties of the assembled list

  /** The React globs are among the JS globs, so the JS rules also apply
      to JSX/TSX files. */
  lemma ReactGlobsAreJsGlobs()
    ensures forall g :: g in ReactFileGlobs ==> g in JsFileGlobs
  {
  }

  /** The files that the JSON rules skip (JSON files under `.vscode`, `tsconfig.json`)
      are still linted as JSONC: every configuration of the recommended JSON
      set ignores them and every configuration of the recommended JSONC set
      takes them as files. */
  lemma JsonIgnoresLintedAsJsonc<V>(imp: Imported<V>)
    ensures var json := JsonConfigs(imp);
      var jsonStart := 1 + |imp.jsoncBase|;
      var jsoncStart := jsonStart + |imp.jsoncWithJson|;
      && |json| == jsoncStart + |imp.jsoncWithJsonc| + |imp.jsoncWithJson5| + 1
      && (forall i, g :: jsonStart <= i < jsoncStart && g in JsonIgnoreGlobs ==>
            json[i].ignores.Some? && g in json[i].ignores.value)
      && (forall i, g :: jsoncStart <= i < jsoncStart + |imp.jsoncWithJsonc| && g in JsonIgnoreGlobs ==>
            json[i].files.Some? && Glob(g) in json[i].files.value)
  {
    FlattenGlobs(JsoncFileGlobs);
    FlattenGlobs(JsonFileGlobs);
    var json := JsonConfigs(imp);
    var jsonStart := 1 + |imp.jsoncBase|;
    var jsoncStart := jsonStart + |imp.jsoncWithJson|;
    var withJson := ApplyToFiles(Globs(JsonFileGlobs), JsonIgnoreGlobs, imp.jsoncWithJson);
    var withJsonc := ApplyToFiles(Globs(JsoncFileGlobs), [], imp.jsoncWithJsonc);
    forall i | jsonStart <= i < jsoncStart ensures json[i] == withJson[i - jsonStart] { }
    forall i | jsoncStart <= i < jsoncStart + |imp.jsoncWithJsonc| ensures json[i] == withJsonc[i - jsoncStart] { }
    forall i, g | jsoncStart <= i < jsoncStart + |imp.jsoncWithJsonc| && g in JsonIgnoreGlobs
      ensures Glob(g) in json[i].files.value
    {
      var k :| 0 <= k < |JsoncFileGlobs| && JsoncFileGlobs[k] == g;
      assert Globs(JsoncFileGlobs)[k] == Glob(g);
      var before := GetOr(imp.jsoncWithJsonc[i - jsoncStart].files, []);
      assert json[i].files.value == before + Globs(JsoncFileGlobs);
      assert json[i].files.value[|before| + k] == Glob(g);
    }
  }

  /** Every JS configuration covers every JS glob. */
  lemma JsConfigsCoverJsGlobs<V>(imp: Imported<V>)
    ensures |JsConfigs(imp)| == |imp.typescript| + 1
    ensures forall i, g :: 0 <= i < |JsConfigs(imp)| && g in JsFileGlobs ==>
      JsConfigs(imp)[i].files.Some? && Glob(g) in JsConfigs(imp)[i].files.value
  {
    FlattenGlobs(JsFileGlobs);
    var js := JsConfigs(imp);
    var applied := ApplyToFiles(Globs(JsFileGlobs), [], imp.typescript);
    forall i, g | 0 <= i < |js| && g in JsFileGlobs
      ensures js[i].files.Some? && Glob(g) in js[i].files.value
    {
      var k :| 0 <= k < |JsFileGlobs| && JsFileGlobs[k] == g;
      assert Globs(JsFileGlobs)[k] == Glob(g);
      if i < |imp.typescript| {
        assert js[i] == applied[i];
        var before := GetOr(imp.typescript[i].files, []);
        assert js[i].files.value == before + Globs(JsFileGlobs);
        assert js[i].files.value[|before| + k] == Glob(g);
      } else {
        assert js[i].files.value == Globs(JsFileGlobs);
      }
    }
  }

  /** No JSON configuration is a global ignore. */
  lemma JsonConfigsNotGlobal<V>(imp: Imported<V>)
    ensures |JsonConfigs(imp)| == 2 + |imp.jsoncBase| + |imp.jsoncWithJson| + |imp.jsoncWithJsonc| + |imp.jsoncWithJson5|
    ensures forall i :: 0 <= i < |JsonConfigs(imp)| ==> !IsGlobalIgnore(JsonConfigs(imp)[i])
  {
    var json := JsonConfigs(imp);
    var mid := ApplyToFiles(Globs(JsonFileGlobs + JsoncFileGlobs + Json5FileGlobs), [], imp.jsoncBase)
      + ApplyToFiles(Globs(JsonFileGlobs), JsonIgnoreGlobs, imp.jsoncWithJson)
      + ApplyToFiles(Globs(JsoncFileGlobs), [], imp.jsoncWithJsonc)
      + ApplyToFiles(Globs(Json5FileGlobs), [], imp.jsoncWithJson5);
    assert forall k :: 0 <= k < |mid| ==> mid[k].files.Some?;
    assert json == [json[0]] + mid + [json[|json| - 1]];
    forall i | 0 <= i < |json| ensures !IsGlobalIgnore(json[i]) {
      if i == 0 {
        assert "languageOptions" in json[i].others;
      } else if i <= |mid| {
        assert json[i] == mid[i - 1];
      }
    }
  }

  /** The exported list is made of six segments, in this order: the
      project configuration, the global ignores, the JS configurations, the
      JSON configurations, the React configurations and the extension
      configuration, each exactly as assembled. */
  lemma FlatConfigSegments<V>(imp: Imported<V>)
    ensures var r := FlatConfig(imp);
      var jsEnd := 2 + |JsConfigs(imp)|;
      var jsonEnd := jsEnd + |JsonConfigs(imp)|;
      && |r| == jsonEnd + 3
      && r[0] == ProjectConfig(imp)
      && r[1] == GlobalIgnoreConfig()
      && r[2..jsEnd] == JsConfigs(imp)
      && r[jsEnd..jsonEnd] == JsonConfigs(imp)
      && r[jsonEnd..jsonEnd + 2] == ReactConfigs(imp)
      && r[jsonEnd + 2] == ExtensionConfig(imp)
  {
    var r := FlatConfig(imp);
    var js, json, react := JsConfigs(imp), JsonConfigs(imp), ReactConfigs(imp);
    var head: seq<Config<V>> := [ProjectConfig(imp), GlobalIgnoreConfig()];
    assert r == head + js + json + react + [ExtensionConfig(imp)];
    assert r[2..2 + |js|] == js;
    assert r[2 + |js|..2 + |js| + |json|] == json;
    assert r[2 + |js| + |json|..2 + |js| + |json| + 2] == react;
  }

  /** Within those segments: the JS configurations each cover every JS
      glob, the React segment starts with the recommended React
      configuration, the extension configuration comes last, and the only
      global ignore the file introduces is the second entry. */
  lemma FlatConfigOrder<V>(imp: Imported<V>)
    ensures var r := FlatConfig(imp);
      var jsEnd := 2 + |imp.typescript| + 1;
      var jsonEnd := jsEnd + |JsonConfigs(imp)|;
      && |JsonConfigs(imp)| == 2 + |imp.jsoncBase| + |imp.jsoncWithJson| + |imp.jsoncWithJsonc| + |imp.jsoncWithJson5|
      && |r| == jsonEnd + 3
      && r[0] == ProjectConfig(imp)
      && IsGlobalIgnore(r[1]) && r[1].ignores == Some(GlobalIgnores)
      && (forall i, g :: 2 <= i < jsEnd && g in JsFileGlobs ==> r[i].files.Some? && Glob(g) in r[i].files.value)
      && r[jsonEnd] == imp.reactRecommended
      && r[jsonEnd + 1].files == Some(Globs(ReactFileGlobs))
      && r[|r| - 1] == ExtensionConfig(imp)
      && (forall i :: 0 <= i < |r| && i != 1 && i != jsonEnd ==> !IsGlobalIgnore(r[i]))
  {
    JsConfigsCoverJsGlobs(imp);
    JsonConfigsNotGlobal(imp);
    var r := FlatConfig(imp);
    var js := JsConfigs(imp);
    var json := JsonConfigs(imp);
    var jsEnd := 2 + |js|;
    var jsonEnd := jsEnd + |json|;
    assert r == [ProjectConfig(imp), GlobalIgnoreConfig()] + js + json + ReactConfigs(imp) + [ExtensionConfig(imp)];
    forall i | 2 <= i < jsEnd ensures r[i] == js[i - 2] { }
    forall i | jsEnd <= i < jsonEnd ensures r[i] == json[i - jsEnd] { }
    assert !IsGlobalIgnore(r[jsonEnd + 1]) && !IsGlobalIgnore(r[|r| - 1]);
  }
}
