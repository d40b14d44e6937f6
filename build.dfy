/** The production build script (utils/build.ts): it loads the configuration
    object, deletes the marker property, and replaces the plugin list with a
    copy that ends in a zip plugin named after the package. */
module ProductionBuild {
  import opened JsValues
  import opened Paths
  import opened WebpackConfig

  /** The `name` and `version` fields of package.json. */
  datatype PackageInfo = PackageInfo(name: string, version: string)

  /** `${name}-${version}.zip`: the name, a dash, the version and the
      extension can each be read back out of the file name. */
  function ZipFilename(pkg: PackageInfo): (file: string)
    ensures |file| == |pkg.name| + |pkg.version| + 5
    ensures file[..|pkg.name|] == pkg.name && file[|pkg.name|] == '-'
    ensures file[|pkg.name| + 1..|file| - 4] == pkg.version
    ensures file[|file| - 4..] == ".zip"
  {
    var file := pkg.name + "-" + pkg.version + ".zip";
    assert file[..|pkg.name|] == pkg.name;
    assert file[|pkg.name| + 1..|file| - 4] == pkg.version;
    assert file[|file| - 4..] == ".zip";
    file
  }

  /** One package name never gives two versions the same archive name. */
  lemma ZipFilenameInjective(name: string, v1: string, v2: string)
    requires ZipFilename(PackageInfo(name, v1)) == ZipFilename(PackageInfo(name, v2))
    ensures v1 == v2
  {
  }

  /** `path.join(__dirname, '..', 'zip')` */
  function ZipDirectory(utilsDir: Path): Path
  {
    Join(utilsDir, ["..", "zip"])
  }

  /** The archive goes to `zip`, beside `utils` in the project root. */
  lemma ZipBesideUtils(root: Path)
    ensures ZipDirectory(root + ["utils"]) == root + ["zip"]
  {
    SiblingOf(root, "utils", "zip");
  }

  /** `[...(plugins || [])].concat(zip)`: a copy of the old list, or of the
      empty list when there was none, with exactly one plugin added last. */
  function WithZip(plugins: Option<seq<Plugin>>, zip: Plugin): (r: seq<Plugin>)
    ensures |r| == |GetOr(plugins, [])| + 1
    ensures r[..|r| - 1] == GetOr(plugins, [])
    ensures r[|r| - 1] == zip
  {
    GetOr(plugins, []) + [zip]
  }

  /** Lines 14-28 of the script, on the loaded object: the marker property
      is deleted and `plugins` is reassigned; nothing else changes. */
  method PrepareProductionBuild(config: ConfigObject, pkg: PackageInfo, utilsDir: Path)
    modifies config
    ensures config.Value() == old(config.Value()).(
      chromeExtensionBoilerplate := None,
      plugins := Some(WithZip(old(config.plugins), Zip(ZipFilename(pkg), ZipDirectory(utilsDir)))))
  {
    config.chromeExtensionBoilerplate := None;
    var previous := GetOr(config.plugins, []);
    config.plugins := Some(previous + [Zip(ZipFilename(pkg), ZipDirectory(utilsDir))]);
  }

  /** In production the list the zip plugin joins has no React-refresh
      plugin: it is the thirteen shared plugins, then the zip. */
  lemma ProductionPlugins(env: Env, zip: Plugin)
    requires env.nodeEnv == Some("production")
    ensures WithZip(Build(env).plugins, zip) == SharedPlugins(env) + [zip]
    ensures ReactRefresh(false) !in Build(env).plugins.value
  {
    PluginsByMode(env);
    ReactRefreshOnlyInDev(env);
  }

  /** The script end to end: the configuration is loaded with NODE_ENV set
      to production, then prepared for zipping. */
  method RunBuild(env: Env, pkg: PackageInfo) returns (config: ConfigObject)
    ensures fresh(config)
    ensures var d := Build(env.(nodeEnv := Some("production")));
      && config.Value() == d.(chromeExtensionBoilerplate := None,
                              plugins := Some(WithZip(d.plugins, Zip(ZipFilename(pkg), env.root + ["zip"]))))
      && config.mode == Production && config.optimization.Some?
  {
    var prod := env.(nodeEnv := Some("production"));
    config := new ConfigObject.Load(Build(prod));
    ZipBesideUtils(env.root);
    PrepareProductionBuild(config, pkg, env.root + ["utils"]);
  }
}
