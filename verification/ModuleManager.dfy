/** Hot reload of modules with one-deep undo, src/core/module_manager.cpp.

    A plugin is created and initialised before the lock is taken; what follows is one step under
    the lock. A plugin is an opaque identity and the schema version it was created for. */
module Modules {
  import opened Basics

  datatype Config = Config(name: string, path: string, version: U32)

  datatype Plugin = Plugin(id: nat, version: U32)

  /** `shutDown` lists the plugins whose Shutdown was called. */
  datatype Manager = Manager(
    modules: map<string, Plugin>,
    previous: map<string, Plugin>,
    configs: map<string, Config>,
    versions: map<string, U32>,
    shutDown: seq<Plugin>)

  const NEW_MANAGER := Manager(map[], map[], map[], map[], [])

  /** What PluginFactory::Create and Initialize made of a configuration. */
  type Outcome = Option<nat>

  function Install(m: Manager, c: Config, id: nat): Manager {
    m.(modules := m.modules[c.name := Plugin(id, c.version)],
       configs := m.configs[c.name := c],
       versions := m.versions[c.name := c.version])
  }

  function Load(m: Manager, c: Config, made: Outcome): Manager {
    if made.None? then m else Install(m, c, made.value)
  }

  function HotReload(m: Manager, c: Config, made: Outcome): Manager {
    if made.None? then m
    else if c.name in m.modules then
      Install(m.(previous := m.previous[c.name := m.modules[c.name]]), c, made.value)
    else Install(m, c, made.value)
  }

  function Rollback(m: Manager, name: string): Manager {
    if name !in m.previous then m
    else m.(modules := m.modules[name := m.previous[name]],
            previous := m.previous - {name},
            versions := if name in m.configs then m.versions[name := m.configs[name].version] else m.versions)
  }

  function Unload(m: Manager, name: string): Manager {
    Manager(m.modules - {name}, m.previous - {name}, m.configs - {name}, m.versions - {name},
            if name in m.modules then m.shutDown + [m.modules[name]] else m.shutDown)
  }

  function Get(m: Manager, name: string): Option<Plugin> {
    if name in m.modules then Some(m.modules[name]) else None
  }

  function Previous(m: Manager, name: string): Option<Plugin> {
    if name in m.previous then Some(m.previous[name]) else None
  }

  function LoadedVersion(m: Manager, name: string): U32 {
    if name in m.versions then m.versions[name] else 0
  }

  datatype Call =
    | DoLoad(config: Config, made: Outcome)
    | DoHotReload(config: Config, made: Outcome)
    | DoRollback(name: string)
    | DoUnload(name: string)

  function Step(m: Manager, c: Call): Manager {
    match c
    case DoLoad(config, made) => Load(m, config, made)
    case DoHotReload(config, made) => HotReload(m, config, made)
    case DoRollback(name) => Rollback(m, name)
    case DoUnload(name) => Unload(m, name)
  }

  /** Calls of any threads in the order in which they take the lock. */
  function Run(calls: seq<Call>): Manager {
    if calls == [] then NEW_MANAGER else Step(Run(Front(calls)), Last(calls))
  }

  ghost predicate Inv(m: Manager) {
    m.modules.Keys == m.configs.Keys == m.versions.Keys &&
    m.previous.Keys <= m.modules.Keys &&
    forall n :: n in m.configs ==> m.configs[n].name == n && m.versions[n] == m.configs[n].version
  }

  lemma StepKeeps(m: Manager, c: Call)
    requires Inv(m)
    ensures Inv(Step(m, c))
  {
  }

  /** In every run the modules, configurations and versions have one domain, which contains the
      names with a previous plugin, and each version is that of the configuration. */
  lemma {:induction false} RunKeeps(calls: seq<Call>)
    ensures Inv(Run(calls))
  {
    if calls != [] {
      RunKeeps(Front(calls));
      StepKeeps(Run(Front(calls)), Last(calls));
    }
  }

  // What a name shows after a run, told from the calls alone.

  predicate Installs(c: Call, name: string) {
    (c.DoLoad? || c.DoHotReload?) && c.config.name == name && c.made.Some?
  }

  /** The plugin a Rollback would bring back: the one that was current when the last successful
      HotReload found one, unless a Rollback or Unload came after it. Load does not change it. */
  function Undo(calls: seq<Call>, name: string): Option<Plugin>
    decreases |calls|
  {
    if calls == [] then None
    else
      var c := Last(calls);
      if (c.DoRollback? || c.DoUnload?) && c.name == name then None
      else if c.DoHotReload? && Installs(c, name) && Current(Front(calls), name).Some? then Current(Front(calls), name)
      else Undo(Front(calls), name)
  }

  function Current(calls: seq<Call>, name: string): Option<Plugin>
    decreases |calls|
  {
    if calls == [] then None
    else
      var c := Last(calls);
      if Installs(c, name) then Some(Plugin(c.made.value, c.config.version))
      else if c.DoUnload? && c.name == name then None
      else if c.DoRollback? && c.name == name && Undo(Front(calls), name).Some? then Undo(Front(calls), name)
      else Current(Front(calls), name)
  }

  /** The version of the last configuration installed since the last Unload, 0 if there is none. */
  function Reported(calls: seq<Call>, name: string): U32 {
    if calls == [] then 0
    else
      var c := Last(calls);
      if Installs(c, name) then c.config.version
      else if c.DoUnload? && c.name == name then 0
      else Reported(Front(calls), name)
  }

  /** What one call does to what a name shows. */
  lemma StepShows(m: Manager, c: Call, name: string)
    requires Inv(m)
    ensures Installs(c, name) ==>
              Get(Step(m, c), name) == Some(Plugin(c.made.value, c.config.version)) &&
              LoadedVersion(Step(m, c), name) == c.config.version &&
              Previous(Step(m, c), name) ==
                (if c.DoHotReload? && Get(m, name).Some? then Get(m, name) else Previous(m, name))
    ensures c.DoUnload? && c.name == name ==>
              Get(Step(m, c), name) == Previous(Step(m, c), name) == None && LoadedVersion(Step(m, c), name) == 0
    ensures c.DoRollback? && c.name == name ==>
              Get(Step(m, c), name) == (if Previous(m, name).Some? then Previous(m, name) else Get(m, name)) &&
              Previous(Step(m, c), name) == None && LoadedVersion(Step(m, c), name) == LoadedVersion(m, name)
    ensures !Installs(c, name) && !((c.DoUnload? || c.DoRollback?) && c.name == name) ==>
              Get(Step(m, c), name) == Get(m, name) && Previous(Step(m, c), name) == Previous(m, name) &&
              LoadedVersion(Step(m, c), name) == LoadedVersion(m, name)
  {
  }

  /** In every run Get, the plugin kept for Rollback and the reported version are those three
      functions of the calls. */
  lemma {:induction false} RunShows(calls: seq<Call>, name: string)
    ensures Get(Run(calls), name) == Current(calls, name)
    ensures Previous(Run(calls), name) == Undo(calls, name)
    ensures LoadedVersion(Run(calls), name) == Reported(calls, name)
  {
    if calls != [] {
      hide Step, Get, Previous, LoadedVersion, Inv;
      RunShows(Front(calls), name);
      RunKeeps(Front(calls));
      StepShows(Run(Front(calls)), Last(calls), name);
    }
  }

  /** The configuration a bulk reload will use: the last one installed since the last Unload. */
  function Installed(calls: seq<Call>, name: string): Option<Config> {
    if calls == [] then None
    else
      var c := Last(calls);
      if Installs(c, name) then Some(c.config)
      else if c.DoUnload? && c.name == name then None
      else Installed(Front(calls), name)
  }

  /** In every run the stored configuration of a name is the newest installed, path included; a
      Rollback leaves it. */
  lemma {:induction false} RunKeepsConfig(calls: seq<Call>, name: string)
    ensures Installed(calls, name) == if name in Run(calls).configs then Some(Run(calls).configs[name]) else None
  {
    if calls != [] {
      RunKeepsConfig(Front(calls), name);
    }
  }

  /** The plugins current at each Unload. */
  function Unloaded(calls: seq<Call>): seq<Plugin> {
    if calls == [] then []
    else
      var c, before := Last(calls), Unloaded(Front(calls));
      if c.DoUnload? && Current(Front(calls), c.name).Some?
      then before + [Current(Front(calls), c.name).value]
      else before
  }

  /** In every run Shutdown is called for exactly the plugins current at an Unload, in order;
      a plugin replaced by a Load, a reload or a Rollback is dropped without it. */
  lemma {:induction false} RunShutsDown(calls: seq<Call>)
    ensures Run(calls).shutDown == Unloaded(calls)
  {
    if calls != [] {
      RunShutsDown(Front(calls));
      if Last(calls).DoUnload? {
        RunShows(Front(calls), Last(calls).name);
      }
    }
  }

  /** A successful HotReload of a loaded name and then a Rollback restores Get; the version
      reported is then the restored plugin's own if and only if both were created for the same
      version, because Rollback leaves the configuration of the reload in place. */
  lemma ReloadThenRollback(calls: seq<Call>, c: Config, id: nat)
    requires Get(Run(calls), c.name).Some?
    ensures var m := Run(calls);
            var m' := Rollback(HotReload(m, c, Some(id)), c.name);
            Get(m', c.name) == Get(m, c.name) && Previous(m', c.name) == None &&
            (LoadedVersion(m', c.name) == Get(m', c.name).value.version <==>
               Get(m, c.name).value.version == c.version) &&
            (forall n :: n != c.name ==> Get(m', n) == Get(m, n) && LoadedVersion(m', n) == LoadedVersion(m, n))
  {
    RunKeeps(calls);
  }

  /** After any run a second Rollback of a name changes nothing. */
  lemma RollbackIsOneDeep(m: Manager, name: string)
    ensures Rollback(Rollback(m, name), name) == Rollback(m, name)
  {
  }

  // HotReloadAll.

  /** The outcome of creating and initialising each configuration. */
  type Factory = Config -> Outcome

  function ReloadEach(m: Manager, order: seq<Config>, make: Factory): Manager {
    if order == [] then m else HotReload(ReloadEach(m, Front(order), make), Last(order), make(Last(order)))
  }

  /** The names among `names` whose configuration can be created and initialised. */
  ghost function Succeeding(m: Manager, names: set<string>, make: Factory): set<string> {
    set n | n in names && n in m.configs && make(m.configs[n]).Some?
  }

  /** The manager after the names `done` were reloaded, whatever the order. */
  ghost function Reloaded(m: Manager, done: set<string>, make: Factory): Manager
    requires Inv(m)
  {
    m.(modules := map n | n in m.modules :: if n in Succeeding(m, done, make)
                                            then Plugin(make(m.configs[n]).value, m.configs[n].version)
                                            else m.modules[n],
       previous := map n | n in m.previous.Keys + Succeeding(m, done, make) ::
                     if n in Succeeding(m, done, make) then m.modules[n] else m.previous[n])
  }

  ghost predicate IsSnapshot(order: seq<Config>, m: Manager) {
    (forall c :: c in order <==> c in m.configs.Values) &&
    (forall i, j :: 0 <= i < j < |order| ==> order[i] != order[j])
  }

  function NamesOf(order: seq<Config>): set<string> {
    set i | 0 <= i < |order| :: order[i].name
  }

  lemma {:induction false} ReloadEachIs(m: Manager, order: seq<Config>, make: Factory)
    requires Inv(m) && forall c :: c in order ==> c.name in m.configs && m.configs[c.name] == c
    requires forall i, j :: 0 <= i < j < |order| ==> order[i] != order[j]
    ensures ReloadEach(m, order, make) == Reloaded(m, NamesOf(order), make)
  {
    if order != [] {
      var front, c := Front(order), Last(order);
      ReloadEachIs(m, front, make);
      assert NamesOf(order) == NamesOf(front) + {c.name};
      assert c.name !in NamesOf(front);
      OneMore(m, NamesOf(front), c, make);
    } else {
      assert Reloaded(m, {}, make) == m;
    }
  }

  lemma OneMoreSucceeds(m: Manager, done: set<string>, c: Config, make: Factory)
    requires c.name in m.configs && m.configs[c.name] == c
    ensures Succeeding(m, done + {c.name}, make) ==
            Succeeding(m, done, make) + if make(c).Some? then {c.name} else {}
  {
  }

  lemma OneMoreModules(m: Manager, done: set<string>, c: Config, make: Factory)
    requires Inv(m) && c.name in m.configs && m.configs[c.name] == c && c.name !in done
    ensures HotReload(Reloaded(m, done, make), c, make(c)).modules == Reloaded(m, done + {c.name}, make).modules
  {
    OneMoreSucceeds(m, done, c, make);
    assert c.name !in Succeeding(m, done, make);
    hide Succeeding;
  }

  lemma OneMorePrevious(m: Manager, done: set<string>, c: Config, make: Factory)
    requires Inv(m) && c.name in m.configs && m.configs[c.name] == c && c.name !in done
    ensures HotReload(Reloaded(m, done, make), c, make(c)).previous == Reloaded(m, done + {c.name}, make).previous
  {
    OneMoreSucceeds(m, done, c, make);
    assert c.name !in Succeeding(m, done, make);
    hide Succeeding;
  }

  lemma OneMore(m: Manager, done: set<string>, c: Config, make: Factory)
    requires Inv(m) && c.name in m.configs && m.configs[c.name] == c && c.name !in done
    ensures HotReload(Reloaded(m, done, make), c, make(c)) == Reloaded(m, done + {c.name}, make)
  {
    OneMoreModules(m, done, c, make);
    OneMorePrevious(m, done, c, make);
    OneMoreSame(m, Reloaded(m, done, make), c, make(c));
  }

  /** A reload of a stored configuration leaves configurations, versions and shutdowns alone. */
  lemma OneMoreSame(m: Manager, before: Manager, c: Config, made: Outcome)
    requires Inv(m) && c.name in m.configs && m.configs[c.name] == c
    requires before.configs == m.configs && before.versions == m.versions && before.shutDown == m.shutDown
    ensures var after := HotReload(before, c, made);
            after.configs == m.configs && after.versions == m.versions && after.shutDown == m.shutDown
  {
  }

  /** The order in which HotReloadAll visits the configurations does not matter: the managers
      after it are the same. */
  lemma OrderDoesNotMatter(m: Manager, order: seq<Config>, order': seq<Config>, make: Factory)
    requires Inv(m) && IsSnapshot(order, m) && IsSnapshot(order', m)
    ensures ReloadEach(m, order, make) == ReloadEach(m, order', make)
  {
    SnapshotReloads(m, order, make);
    SnapshotReloads(m, order', make);
  }

  lemma SnapshotReloads(m: Manager, order: seq<Config>, make: Factory)
    requires Inv(m) && IsSnapshot(order, m)
    ensures ReloadEach(m, order, make) == Reloaded(m, m.configs.Keys, make)
  {
    forall c | c in order ensures c.name in m.configs && m.configs[c.name] == c {
      assert c in m.configs.Values;
    }
    ReloadEachIs(m, order, make);
    assert NamesOf(order) == m.configs.Keys by {
      forall n | n in m.configs ensures n in NamesOf(order) {
        assert m.configs[n] in order;
      }
    }
  }

  /** What HotReloadAll leaves for each name: a failed one keeps its plugin and its previous
      plugin, a successful one moves its plugin to previous; configurations and versions stay. */
  lemma ReloadAllShows(m: Manager, order: seq<Config>, make: Factory, name: string)
    requires Inv(m) && IsSnapshot(order, m) && name in m.configs
    ensures var m', made := ReloadEach(m, order, make), make(m.configs[name]);
            m'.configs == m.configs && m'.versions == m.versions &&
            (made.None? ==> Get(m', name) == Get(m, name) && Previous(m', name) == Previous(m, name)) &&
            (made.Some? ==> Get(m', name) == Some(Plugin(made.value, m.configs[name].version)) &&
                            Previous(m', name) == Get(m, name))
  {
    SnapshotReloads(m, order, make);
  }

  /** Rolling one name back after HotReloadAll restores its plugin if its reload succeeded; if it
      failed, the Rollback undoes an older reload instead, unless there is none. */
  lemma RollbackAfterReloadAll(m: Manager, order: seq<Config>, make: Factory, name: string)
    requires Inv(m) && IsSnapshot(order, m) && name in m.configs
    ensures Get(Rollback(ReloadEach(m, order, make), name), name) == Get(m, name) <==>
            (make(m.configs[name]).Some? || Previous(m, name) == None || Previous(m, name) == Get(m, name))
  {
    ReloadAllShows(m, order, make, name);
  }
}

/** The manager itself, with its four maps. */
module ModuleManager {
  import opened Basics
  import opened Modules

  class ModuleManager {
    var modules: map<string, Plugin>
    var previous: map<string, Plugin>
    var configs: map<string, Config>
    var versions: map<string, U32>
    ghost var shutDown: seq<Plugin>

    ghost function State(): Manager
      reads this
    {
      Manager(modules, previous, configs, versions, shutDown)
    }

    constructor ()
      ensures State() == NEW_MANAGER
    {
      modules, previous, configs, versions, shutDown := map[], map[], map[], map[], [];
    }

    /** `made` is what the factory and Initialize return for this call. */
    method LoadModule(config: Config, made: Outcome) returns (ok: bool)
      modifies this
      ensures ok == made.Some? && State() == Load(old(State()), config, made)
    {
      if made.None? {
        return false;
      }
      modules := modules[config.name := Plugin(made.value, config.version)];
      configs := configs[config.name := config];
      versions := versions[config.name := config.version];
      return true;
    }

    method HotReloadModule(config: Config, made: Outcome) returns (ok: bool)
      modifies this
      ensures ok == made.Some? && State() == HotReload(old(State()), config, made)
    {
      if made.None? {
        return false;
      }
      if config.name in modules {
        previous := previous[config.name := modules[config.name]];
      }
      modules := modules[config.name := Plugin(made.value, config.version)];
      configs := configs[config.name := config];
      versions := versions[config.name := config.version];
      return true;
    }

    /** The first loop: the configurations in any order. */
    method Snapshot() returns (order: seq<Config>)
      requires Inv(State())
      ensures IsSnapshot(order, State())
    {
      order := [];
      var left := configs.Keys;
      while left != {}
        invariant left <= configs.Keys
        invariant forall n :: n in configs ==> (configs[n] in order <==> n !in left)
        invariant forall c :: c in order ==> c in configs.Values
        invariant forall i, j :: 0 <= i < j < |order| ==> order[i] != order[j]
        decreases left
      {
        var n :| n in left;
        left := left - {n};
        order := order + [configs[n]];
      }
    }

    /** Nobody else calls the manager between the snapshot and the last reload. */
    method HotReloadAll(make: Factory) returns (allOk: bool)
      requires Inv(State())
      modifies this
      ensures State() == Reloaded(old(State()), old(configs).Keys, make)
      ensures allOk <==> forall n :: n in old(configs) ==> make(old(configs)[n]).Some?
    {
      hide Reloaded, HotReload, Inv;
      ghost var start := State();
      var order := Snapshot();
      SnapshotReloads(start, order, make);
      allOk := true;
      var i := 0;
      while i < |order|
        invariant 0 <= i <= |order|
        invariant State() == ReloadEach(start, order[..i], make)
        invariant allOk <==> forall k :: 0 <= k < i ==> make(order[k]).Some?
      {
        var ok := HotReloadModule(order[i], make(order[i]));
        if !ok {
          allOk := false;
        }
        assert Front(order[..i + 1]) == order[..i];
        i := i + 1;
      }
      assert order[..i] == order;
      if allOk {
        forall n | n in start.configs ensures make(start.configs[n]).Some? {
          assert start.configs[n] in order;
        }
      } else {
        var k :| 0 <= k < |order| && make(order[k]).None?;
        assert order[k] in start.configs.Values;
      }
    }

    method RollbackModule(name: string)
      modifies this
      ensures State() == Rollback(old(State()), name)
    {
      if name !in previous {
        return;
      }
      modules := modules[name := previous[name]];
      previous := previous - {name};
      if name in configs {
        versions := versions[name := configs[name].version];
      }
    }

    method UnloadModule(name: string)
      modifies this
      ensures State() == Unload(old(State()), name)
    {
      if name in modules {
        shutDown := shutDown + [modules[name]];
        modules := modules - {name};
      }
      previous := previous - {name};
      configs := configs - {name};
      versions := versions - {name};
    }

    method GetModule(name: string) returns (plugin: Option<Plugin>)
      ensures plugin == Get(State(), name)
    {
      if name in modules {
        return Some(modules[name]);
      }
      return None;
    }

    method GetLoadedSchemaVersion(name: string) returns (version: U32)
      ensures version == LoadedVersion(State(), name)
    {
      if name in versions {
        return versions[name];
      }
      return 0;
    }
  }
}
