/** The dev-server script (utils/webserver.ts): it loads the configuration
    object, rewrites its entry table in place so that every entry outside
    the exclusion list also loads the hot-reload clients, and deletes the
    marker property before handing the object to webpack. */
module Webserver {
  import opened JsValues
  import opened WebpackConfig

  const HotDevServer: string := "webpack/hot/dev-server"

  function DevServerClient(port: string): string
  {
    "webpack-dev-server/client?hot=true&hostname=localhost&port=" + port
  }

  /** `(config.chromeExtensionBoilerplate ?? {}).notHotReload ?? []`: the
      entries left alone, empty when the marker or its list is missing. */
  function ExclusionList(marker: Option<Marker>): (excluded: seq<string>)
    ensures marker.None? || marker.value.notHotReload.None? ==> excluded == []
    ensures marker.Some? && marker.value.notHotReload.Some? ==> excluded == marker.value.notHotReload.value
  {
    match marker
    case None => []
    case Some(m) => GetOr(m.notHotReload, [])
  }

  /** `[].concat(value)`: the requests an entry names, one level flattened. */
  function Requests(value: EntryValue): seq<string>
  {
    match value
    case Single(r) => [r]
    case Many(rs) => rs
  }

  /** The requests the script puts in front of every hot-reloaded entry:
      the hot-module-replacement runtime, then the dev-server client for
      PORT. */
  function HotClients(port: string): seq<string>
  {
    [HotDevServer, DevServerClient(port)]
  }

  /** `clients.concat(value)` */
  function HotReloaded(value: EntryValue, clients: seq<string>): EntryValue
  {
    Many(clients + Requests(value))
  }

  /** The entry table the loop leaves behind: the same names; an excluded
      entry keeps its value; every other entry loads the clients, then what
      it loaded before. */
  function HotReloadEntries(entries: EntryMap, excluded: seq<string>, clients: seq<string>): (r: EntryMap)
    ensures r.Keys == entries.Keys
    ensures forall name :: name in entries && name in excluded ==> r[name] == entries[name]
    ensures forall name :: name in entries && name !in excluded ==>
      r[name].Many? && Requests(r[name]) == clients + Requests(entries[name])
  {
    map name | name in entries :: if name in excluded then entries[name] else HotReloaded(entries[name], clients)
  }

  /** The `for ... in` loop of lines 26-34: every entry whose name is not
      excluded is replaced, one at a time, by its hot-reloading form. */
  method RewriteEntries(entry: EntryMap, excluded: seq<string>, clients: seq<string>) returns (r: EntryMap)
    ensures r == HotReloadEntries(entry, excluded, clients)
  {
    r := entry;
    var pending := entry.Keys;
    while pending != {}
      invariant r.Keys == entry.Keys && pending <= entry.Keys
      invariant forall name :: name in pending || (name in entry && name in excluded) ==> r[name] == entry[name]
      invariant forall name :: name in entry && name !in pending && name !in excluded ==>
        r[name] == HotReloaded(entry[name], clients)
      decreases pending
    {
      var name :| name in pending;
      if name !in excluded {
        r := r[name := HotReloaded(r[name], clients)];
      }
      pending := pending - {name};
    }
  }

  /** Lines 20-37 of the script, on the loaded object: `config.entry` is
      replaced by `config.entry ?? {}`, each of its entries is rewritten,
      and the marker property is deleted. Nothing else changes. */
  method PrepareDevServer(config: ConfigObject, port: string)
    modifies config
    ensures config.Value() == old(config.Value()).(
      entry := Some(HotReloadEntries(GetOr(old(config.entry), map[]), ExclusionList(old(config.chromeExtensionBoilerplate)), HotClients(port))),
      chromeExtensionBoilerplate := None)
  {
    var excluded := ExclusionList(config.chromeExtensionBoilerplate);
    config.entry := Some(GetOr(config.entry, map[]));
    var entry := RewriteEntries(config.entry.value, excluded, HotClients(port));
    config.entry := Some(entry);
    config.chromeExtensionBoilerplate := None;
  }

  /** On the entries webpack.config.ts exports: `background`,
      `contentScript` and `devtools` keep their single source; `hmr` and the
      four other pages load the hot-reload clients first. `hmr` thereby
      loads a dev-server client twice. */
  lemma DevEntries(env: Env)
    ensures var entries := Entries(env);
      var r := HotReloadEntries(entries, NotHotReload, HotClients(env.port));
      && r.Keys == PageNames + {"hmr"}
      && (forall name :: name in NotHotReload ==> r[name] == entries[name])
      && (forall name :: name in {"newtab", "options", "popup", "panel"} ==>
            r[name] == Many(HotClients(env.port) + [entries[name].request]))
      && r["hmr"] == Many(HotClients(env.port) + [HmrClient(env.port)])
  {
    var entries := Entries(env);
    var r := HotReloadEntries(entries, NotHotReload, HotClients(env.port));
    forall name | name in {"newtab", "options", "popup", "panel"}
      ensures r[name] == Many(HotClients(env.port) + [entries[name].request])
    {
      assert name in PageNames && name !in NotHotReload;
    }
  }

  /** The exported descriptor carries exactly that exclusion list. */
  lemma BoilerplateExclusions(env: Env)
    ensures ExclusionList(Build(env).chromeExtensionBoilerplate) == NotHotReload
  {
  }

  /** The script end to end: the configuration is loaded with NODE_ENV set
      to development, then rewritten for hot reload. */
  method RunWebserver(env: Env) returns (config: ConfigObject)
    ensures fresh(config)
    ensures var d := Build(env.(nodeEnv := Some("development")));
      && config.Value() == d.(entry := Some(HotReloadEntries(d.entry.value, NotHotReload, HotClients(env.port))),
                              chromeExtensionBoilerplate := None)
      && config.mode == Development
  {
    var dev := env.(nodeEnv := Some("development"));
    config := new ConfigObject.Load(Build(dev));
    PrepareDevServer(config, dev.port);
  }
}
