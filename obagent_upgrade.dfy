/**
 * The obagent upgrade plugin: the old agent is stopped, the ports under
 * their deprecated names are renamed, the generated configuration is merged
 * and submitted to the cluster configuration, and the new agent is started,
 * connected and displayed. Plugin calls are given as their outcomes.
 */
module ObagentUpgrade {
  import opened Values
  import opened Wrappers
  import opened PluginContexts
  import opened ObagentMerge

  // ---------------------------------------------------------------- cluster configuration

  /** What a server's configuration shows: the global one, overridden by its own. */
  function ServerView(global: Config, own: Config): Config {
    global + own
  }

  /** The part of a component's deployment configuration the upgrade reads
      and writes: the original (as written) and the current settings. */
  class ClusterConfig {
    const servers: seq<Server>
    const originalGlobal: Config
    const originalServer: map<Server, Config>
    var globalConf: Config
    var serverConf: map<Server, Config>

    ghost predicate Valid()
      reads this
    {
      Distinct(servers) && forall s :: s in servers ==> s in originalServer && s in serverConf
    }

    constructor (servers: seq<Server>, originalGlobal: Config, originalServer: map<Server, Config>)
      requires Distinct(servers) && forall s :: s in servers ==> s in originalServer
      ensures Valid()
      ensures this.servers == servers && this.originalGlobal == originalGlobal && this.originalServer == originalServer
      ensures globalConf == originalGlobal && serverConf == originalServer
    {
      this.servers := servers;
      this.originalGlobal := originalGlobal;
      this.originalServer := originalServer;
      globalConf := originalGlobal;
      serverConf := originalServer;
    }

    /** `get_server_conf`: a server's settings with the global ones beneath. */
    function GetServerConf(server: Server): Config
      reads this
      requires server in serverConf
    {
      ServerView(globalConf, serverConf[server])
    }

    /** The current settings of every server, as `GetServerConf` shows them. */
    function ServerConfs(): map<Server, Config>
      reads this
    {
      map s | s in serverConf :: ServerView(globalConf, serverConf[s])
    }

    method UpdateGlobalConf(key: string, value: Value)
      modifies this`globalConf
      ensures globalConf == old(globalConf)[key := value]
    {
      globalConf := globalConf[key := value];
    }

    /** A server that is not part of the component is left alone. */
    method UpdateServerConf(server: Server, key: string, value: Value)
      modifies this`serverConf
      ensures server in old(serverConf) ==> serverConf == old(serverConf)[server := old(serverConf)[server][key := value]]
      ensures server !in old(serverConf) ==> serverConf == old(serverConf)
    {
      if server in serverConf {
        serverConf := serverConf[server := serverConf[server][key := value]];
      }
    }
  }

  // ---------------------------------------------------------------- port renaming

  /** Each deprecated port name with its replacement, in order. */
  const PortKeys: seq<(string, string)> :=
    [("server_port", "monagent_http_port"), ("pprof_port", "mgragent_http_port")]

  const NewPortKeys: seq<string> := ["monagent_http_port", "mgragent_http_port"]

  /** A server converts a port when the old name was written globally or for it. */
  predicate Triggered(originalGlobal: Config, originalServer: Config, oldKey: string) {
    oldKey in originalGlobal || oldKey in originalServer
  }

  function PortWarning(oldKey: string, newKey: string): string {
    "Configuration item " + oldKey + " is no longer supported, and it is converted to configuration item " + newKey
  }

  /** The generated per-server configurations and the warnings, each an old
      name with its new one, in first-seen order of the old name. */
  datatype PortScan = PortScan(gen: map<Server, Config>, warns: seq<(string, string)>)

  /** The first components of a sequence of pairs: the old names warned about, or of a port list. */
  function Firsts(pairs: seq<(string, string)>): set<string> {
    set i | 0 <= i < |pairs| :: pairs[i].0
  }

  lemma FirstsAppend(pairs: seq<(string, string)>, x: (string, string))
    ensures Firsts(pairs + [x]) == Firsts(pairs) + {x.0}
  {
    var w := pairs + [x];
    forall y | y in Firsts(w) ensures y in Firsts(pairs) + {x.0} {
      var a :| 0 <= a < |w| && w[a].0 == y;
      if a < |pairs| { assert pairs[a] == w[a]; }
    }
    forall y | y in Firsts(pairs) ensures y in Firsts(w) {
      var a :| 0 <= a < |pairs| && pairs[a].0 == y;
      assert w[a] == pairs[a];
    }
    assert w[|pairs|].0 == x.0;
  }

  /** No first component appears twice. */
  predicate DistinctFirsts(pairs: seq<(string, string)>) {
    forall a, b :: 0 <= a < b < |pairs| ==> pairs[a].0 != pairs[b].0
  }

  lemma DistinctFirstsAppend(pairs: seq<(string, string)>, x: (string, string))
    requires DistinctFirsts(pairs) && x.0 !in Firsts(pairs)
    ensures DistinctFirsts(pairs + [x])
  {
    var w := pairs + [x];
    forall a, b | 0 <= a < b < |w| ensures w[a].0 != w[b].0 {
      assert w[a] == pairs[a];
      if b < |pairs| {
        assert w[b] == pairs[b];
      } else {
        assert pairs[a].0 in Firsts(pairs);
      }
    }
  }

  /** A port that is converted can be read from the server's settings. */
  predicate PortsReadableFor(og: Config, os: Config, sc: Config, ports: seq<(string, string)>) {
    forall j :: 0 <= j < |ports| && Triggered(og, os, ports[j].0) ==> ports[j].0 in sc
  }

  predicate PortsReadable(servers: seq<Server>, og: Config, os: map<Server, Config>, sc: map<Server, Config>,
                          ports: seq<(string, string)>) {
    forall s :: s in servers ==> s in os && s in sc && PortsReadableFor(og, os[s], sc[s], ports)
  }

  /** The port loop for one server. */
  function PortStep(scan: PortScan, og: Config, os: Config, sc: Config, server: Server, ports: seq<(string, string)>): PortScan
    requires PortsReadableFor(og, os, sc, ports)
  {
    if |ports| == 0 then scan
    else
      var init := ports[..|ports| - 1];
      assert PortsReadableFor(og, os, sc, init) by {
        forall j | 0 <= j < |init| ensures init[j] == ports[j] { }
      }
      PortOne(PortStep(scan, og, os, sc, server, init), og, os, sc, server, ports[|ports| - 1])
  }

  /** One port of one server: a converted port is stored under its new name,
      and its old name is warned about unless it already was. */
  function PortOne(scan: PortScan, og: Config, os: Config, sc: Config, server: Server, port: (string, string)): PortScan
    requires Triggered(og, os, port.0) ==> port.0 in sc
  {
    var (oldKey, newKey) := port;
    if !Triggered(og, os, oldKey) then scan
    else
      var cfg := if server in scan.gen then scan.gen[server] else map[];
      PortScan(scan.gen[server := cfg[newKey := sc[oldKey]]],
               if oldKey in Firsts(scan.warns) then scan.warns
               else scan.warns + [(oldKey, newKey)])
  }

  lemma PortStepUnfold(scan: PortScan, og: Config, os: Config, sc: Config, server: Server, ports: seq<(string, string)>, j: nat)
    requires PortsReadableFor(og, os, sc, ports) && j < |ports|
    ensures PortsReadableFor(og, os, sc, ports[..j]) && PortsReadableFor(og, os, sc, ports[..j + 1])
    ensures PortStep(scan, og, os, sc, server, ports[..j + 1]) ==
              PortOne(PortStep(scan, og, os, sc, server, ports[..j]), og, os, sc, server, ports[j])
  {
    assert ports[..j + 1][..j] == ports[..j];
  }

  /** The port stage over all servers. */
  function PortFold(servers: seq<Server>, og: Config, os: map<Server, Config>, sc: map<Server, Config>,
                    ports: seq<(string, string)>): PortScan
    requires PortsReadable(servers, og, os, sc, ports)
  {
    if |servers| == 0 then PortScan(map[], [])
    else
      var init := servers[..|servers| - 1];
      var s := servers[|servers| - 1];
      PortStep(PortFold(init, og, os, sc, ports), og, os[s], sc[s], s, ports)
  }

  /** The port stage of the upgrade: every converted port is stored under its
      new name for the server, and each old name is warned about once. */
  method UpdatePorts(servers: seq<Server>, og: Config, os: map<Server, Config>, sc: map<Server, Config>)
    returns (gen: map<Server, Config>, warns: seq<(string, string)>)
    requires PortsReadable(servers, og, os, sc, PortKeys)
    ensures PortScan(gen, warns) == PortFold(servers, og, os, sc, PortKeys)
  {
    var scan := PortScan(map[], []);
    var i := 0;
    while i < |servers|
      invariant 0 <= i <= |servers|
      invariant scan == PortFold(servers[..i], og, os, sc, PortKeys)
    {
      var server := servers[i];
      assert servers[..i + 1][..i] == servers[..i];
      scan := ScanServer(scan, og, os[server], sc[server], server, PortKeys);
      i := i + 1;
    }
    assert servers[..|servers|] == servers;
    gen, warns := scan.gen, scan.warns;
  }

  /** The port loop for one server. */
  method ScanServer(start: PortScan, og: Config, os: Config, sc: Config, server: Server, ports: seq<(string, string)>)
    returns (scan: PortScan)
    requires PortsReadableFor(og, os, sc, ports)
    ensures scan == PortStep(start, og, os, sc, server, ports)
  {
    scan := start;
    var j := 0;
    while j < |ports|
      invariant 0 <= j <= |ports|
      invariant PortsReadableFor(og, os, sc, ports[..j])
      invariant scan == PortStep(start, og, os, sc, server, ports[..j])
    {
      PortStepUnfold(start, og, os, sc, server, ports, j);
      scan := ScanPort(scan, og, os, sc, server, ports[j]);
      j := j + 1;
    }
    assert ports[..|ports|] == ports;
  }

  /** The body of the port loop. */
  method ScanPort(scan: PortScan, og: Config, os: Config, sc: Config, server: Server, port: (string, string))
    returns (next: PortScan)
    requires Triggered(og, os, port.0) ==> port.0 in sc
    ensures next == PortOne(scan, og, os, sc, server, port)
  {
    var gen, warns := scan.gen, scan.warns;
    var (oldKey, newKey) := port;
    if oldKey in og || oldKey in os {
      var value := sc[oldKey];
      if server !in gen {
        gen := gen[server := map[]];
      }
      gen := gen[server := gen[server][newKey := value]];
      if oldKey !in Firsts(warns) {
        warns := warns + [(oldKey, newKey)];
      }
    }
    next := PortScan(gen, warns);
  }

  // ---------------------------------------------------------------- submitting

  /** `summit_config`: the generated global keys first, then each server's
      keys, skipping servers without generated configuration. */
  method SummitConfig(cc: ClusterConfig, genGlobal: Config, gen: map<Server, Config>)
    requires cc.Valid()
    modifies cc
    ensures cc.globalConf == old(cc.globalConf) + genGlobal
    ensures cc.serverConf == Submitted(old(cc.serverConf), cc.servers, gen)
  {
    SubmitGlobal(cc, genGlobal);
    var i := 0;
    while i < |cc.servers|
      invariant 0 <= i <= |cc.servers|
      invariant cc.globalConf == old(cc.globalConf) + genGlobal
      invariant cc.serverConf == Submitted(old(cc.serverConf), cc.servers[..i], gen)
    {
      var server := cc.servers[i];
      assert cc.servers[..i + 1] == cc.servers[..i] + [server];
      SubmittedStep(old(cc.serverConf), cc.servers[..i], server, gen);
      if server in gen {
        assert server in cc.serverConf;
        SubmitServer(cc, server, gen[server]);
      }
      i := i + 1;
    }
    assert cc.servers[..|cc.servers|] == cc.servers;
  }

  /** The keys of `cfg` already written. */
  function Part(cfg: Config, done: set<string>): Config {
    map k | k in cfg && k in done :: cfg[k]
  }

  lemma PartAdd(base: Config, cfg: Config, done: set<string>, key: string)
    requires key in cfg
    ensures (base + Part(cfg, done))[key := cfg[key]] == base + Part(cfg, done + {key})
  {
  }

  lemma PartEnds(base: Config, cfg: Config)
    ensures base + Part(cfg, {}) == base
    ensures Part(cfg, cfg.Keys) == cfg
  {
  }

  /** The generated global keys written into the global settings. */
  method SubmitGlobal(cc: ClusterConfig, genGlobal: Config)
    modifies cc`globalConf
    ensures cc.globalConf == old(cc.globalConf) + genGlobal
  {
    var left := genGlobal.Keys;
    ghost var done: set<string> := {};
    PartEnds(old(cc.globalConf), genGlobal);
    while left != {}
      invariant left <= genGlobal.Keys && done == genGlobal.Keys - left
      invariant cc.globalConf == old(cc.globalConf) + Part(genGlobal, done)
      decreases |left|
    {
      var key :| key in left;
      PartAdd(old(cc.globalConf), genGlobal, done, key);
      cc.UpdateGlobalConf(key, genGlobal[key]);
      left := left - {key};
      done := done + {key};
    }
  }

  /** One server's generated keys written into its settings. */
  method SubmitServer(cc: ClusterConfig, server: Server, cfg: Config)
    requires server in cc.serverConf
    modifies cc`serverConf
    ensures cc.serverConf == old(cc.serverConf)[server := old(cc.serverConf)[server] + cfg]
  {
    var left := cfg.Keys;
    ghost var done: set<string> := {};
    ghost var base := old(cc.serverConf)[server];
    PartEnds(base, cfg);
    assert old(cc.serverConf)[server := base] == old(cc.serverConf);
    while left != {}
      invariant left <= cfg.Keys && done == cfg.Keys - left
      invariant cc.serverConf == old(cc.serverConf)[server := base + Part(cfg, done)]
      decreases |left|
    {
      var key :| key in left;
      PartAdd(base, cfg, done, key);
      cc.UpdateServerConf(server, key, cfg[key]);
      left := left - {key};
      done := done + {key};
    }
    assert done == cfg.Keys;
  }

  /** The settings of the servers in `servers` with their generated keys written in. */
  function Submitted(serverConf: map<Server, Config>, servers: seq<Server>, gen: map<Server, Config>): map<Server, Config> {
    map s | s in serverConf :: if s in servers && s in gen then serverConf[s] + gen[s] else serverConf[s]
  }

  lemma SubmittedStep(serverConf: map<Server, Config>, servers: seq<Server>, server: Server, gen: map<Server, Config>)
    requires server !in servers
    ensures var before := Submitted(serverConf, servers, gen);
            Submitted(serverConf, servers + [server], gen) ==
              if server in gen && server in serverConf then before[server := serverConf[server] + gen[server]] else before
  {
  }

  // ---------------------------------------------------------------- the upgrade

  /** The text of each warning, in order, as `stdio.warn` prints them. */
  method WarningTexts(warns: seq<(string, string)>) returns (texts: seq<string>)
    ensures |texts| == |warns|
    ensures forall i :: 0 <= i < |warns| ==> texts[i] == PortWarning(warns[i].0, warns[i].1)
  {
    texts := [];
    var i := 0;
    while i < |warns|
      invariant 0 <= i <= |warns| && |texts| == i
      invariant forall k :: 0 <= k < i ==> texts[k] == PortWarning(warns[k].0, warns[k].1)
    {
      texts := texts + [PortWarning(warns[i].0, warns[i].1)];
      i := i + 1;
    }
  }

  /** `upgrade_ctx`: the upgrade's progress, shared with the caller. */
  class UpgradeContext {
    var entries: map<string, Value>

    constructor (entries: map<string, Value>)
      ensures this.entries == entries
    {
      this.entries := entries;
    }
  }

  /** The per-server and global configuration the upgrade submits, from the
      cluster configuration before it. */
  function UpgradedConfig(servers: seq<Server>, og: Config, os: map<Server, Config>, sc: map<Server, Config>): (Config, map<Server, Config>)
    requires PortsReadable(servers, og, os, sc, PortKeys)
  {
    MergeGenerateConfig(map[], servers, PortFold(servers, og, os, sc, PortKeys).gen, NewPortKeys)
  }

  /** `upgrade`: a failed stop returns before anything changes; a failed
      start, connect or display returns with the configuration submitted but
      no verdict; otherwise the upgrade index moves past the last repository
      and the verdict is true. */
  method Upgrade(ctx: PluginContext, cc: ClusterConfig, upgradeCtx: UpgradeContext, repositoryCount: nat,
                 stopOk: bool, startOk: bool, connectOk: bool, displayOk: bool)
    returns (warnings: seq<string>)
    requires repositoryCount >= 1
    requires cc.Valid() && PortsReadable(cc.servers, cc.originalGlobal, cc.originalServer, cc.ServerConfs(), PortKeys)
    modifies cc, ctx.ret, ctx.namespace`recorded, upgradeCtx
    ensures !stopOk ==> unchanged(cc) && warnings == []
    ensures stopOk ==>
              var (genGlobal, gen) := UpgradedConfig(cc.servers, cc.originalGlobal, cc.originalServer, old(cc.ServerConfs()));
              cc.globalConf == old(cc.globalConf) + genGlobal &&
              cc.serverConf == Submitted(old(cc.serverConf), cc.servers, gen)
    ensures stopOk ==>
              var w := PortFold(cc.servers, cc.originalGlobal, cc.originalServer, old(cc.ServerConfs()), PortKeys).warns;
              |warnings| == |w| && forall i :: 0 <= i < |w| ==> warnings[i] == PortWarning(w[i].0, w[i].1)
    ensures stopOk && startOk && connectOk && displayOk ==>
              ctx.ret.value == Bool(true) && ctx.ret.args == [] && ctx.ret.kwargs == map[] &&
              ctx.namespace.recorded == old(ctx.namespace.recorded)[ctx.pluginName := ctx.ret] &&
              upgradeCtx.entries == old(upgradeCtx.entries)["index" := Int(repositoryCount)]
    ensures !(stopOk && startOk && connectOk && displayOk) ==>
              unchanged(ctx.ret) && ctx.namespace.recorded == old(ctx.namespace.recorded) && unchanged(upgradeCtx)
  {
    warnings := [];
    if !stopOk {
      return;
    }
    var gen, warns := UpdatePorts(cc.servers, cc.originalGlobal, cc.originalServer, cc.ServerConfs());
    warnings := WarningTexts(warns);
    var genGlobal, merged := MergeGenerateConfigs(map[], cc.servers, gen, NewPortKeys);
    SummitConfig(cc, genGlobal, merged);
    if !startOk {
      return;
    }
    if connectOk && displayOk {
      upgradeCtx.entries := upgradeCtx.entries["index" := Int(repositoryCount)];
      ctx.ReturnTrue([], map[]);
    }
  }

  // ---------------------------------------------------------------- properties

  /** Ports written under the old names so far, for one server. */
  predicate Fired(og: Config, os: Config, ports: seq<(string, string)>) {
    exists j :: 0 <= j < |ports| && Triggered(og, os, ports[j].0)
  }

  /** The renamed ports of one server: each converted port under its new name. */
  function Renamed(og: Config, os: Config, sc: Config, ports: seq<(string, string)>): Config
    requires PortsReadableFor(og, os, sc, ports)
  {
    if |ports| == 0 then map[]
    else
      var init := ports[..|ports| - 1];
      assert PortsReadableFor(og, os, sc, init) by {
        forall j | 0 <= j < |init| ensures init[j] == ports[j] { }
      }
      var (oldKey, newKey) := ports[|ports| - 1];
      if Triggered(og, os, oldKey) then Renamed(og, os, sc, init)[newKey := sc[oldKey]] else Renamed(og, os, sc, init)
  }

  /** The port loop of one server adds exactly its renamed ports. */
  lemma {:induction false} PortStepGen(scan: PortScan, og: Config, os: Config, sc: Config, server: Server, ports: seq<(string, string)>)
    requires PortsReadableFor(og, os, sc, ports)
    ensures var after := PortStep(scan, og, os, sc, server, ports).gen;
            var base := if server in scan.gen then scan.gen[server] else map[];
            after == if Fired(og, os, ports) then scan.gen[server := base + Renamed(og, os, sc, ports)] else scan.gen
  {
    if |ports| > 0 {
      var init := ports[..|ports| - 1];
      assert PortsReadableFor(og, os, sc, init) by {
        forall j | 0 <= j < |init| ensures init[j] == ports[j] { }
      }
      PortStepGen(scan, og, os, sc, server, init);
      var last := ports[|ports| - 1];
      assert ports == init + [last];
      FiredAppend(og, os, init, last);
      var scan1 := PortStep(scan, og, os, sc, server, init);
      assert PortStep(scan, og, os, sc, server, ports) == PortOne(scan1, og, os, sc, server, last);
      var r := Renamed(og, os, sc, init);
      assert Renamed(og, os, sc, ports) == if Triggered(og, os, last.0) then r[last.1 := sc[last.0]] else r;
      if Triggered(og, os, last.0) {
        var base := if server in scan.gen then scan.gen[server] else map[];
        if Fired(og, os, init) {
          PortOneFired(scan.gen, scan1, og, os, sc, server, last, base, r);
        } else {
          RenamedNone(og, os, sc, init);
          PortOneFirst(scan1, og, os, sc, server, last);
        }
      }
    }
  }

  /** A further converted port of a server that already has some. */
  lemma PortOneFired(gen: map<Server, Config>, scan1: PortScan, og: Config, os: Config, sc: Config, server: Server,
                     port: (string, string), base: Config, r: Config)
    requires Triggered(og, os, port.0) && port.0 in sc
    requires scan1.gen == gen[server := base + r]
    ensures PortOne(scan1, og, os, sc, server, port).gen == gen[server := base + r[port.1 := sc[port.0]]]
  {
    assert (base + r)[port.1 := sc[port.0]] == base + r[port.1 := sc[port.0]];
  }

  /** The first converted port of a server. */
  lemma PortOneFirst(scan1: PortScan, og: Config, os: Config, sc: Config, server: Server, port: (string, string))
    requires Triggered(og, os, port.0) && port.0 in sc
    ensures var base := if server in scan1.gen then scan1.gen[server] else map[];
            PortOne(scan1, og, os, sc, server, port).gen == scan1.gen[server := base + map[][port.1 := sc[port.0]]]
  {
    var base := if server in scan1.gen then scan1.gen[server] else map[];
    assert base[port.1 := sc[port.0]] == base + map[][port.1 := sc[port.0]];
  }

  lemma FiredAppend(og: Config, os: Config, init: seq<(string, string)>, x: (string, string))
    ensures Fired(og, os, init + [x]) <==> Fired(og, os, init) || Triggered(og, os, x.0)
  {
    var ps := init + [x];
    if Fired(og, os, ps) {
      var j :| 0 <= j < |ps| && Triggered(og, os, ps[j].0);
      if j < |init| { assert init[j] == ps[j]; }
    }
    if Fired(og, os, init) {
      var j :| 0 <= j < |init| && Triggered(og, os, init[j].0);
      assert ps[j] == init[j];
    }
    assert ps[|init|] == x;
  }

  lemma {:induction false} RenamedNone(og: Config, os: Config, sc: Config, ports: seq<(string, string)>)
    requires PortsReadableFor(og, os, sc, ports) && !Fired(og, os, ports)
    ensures Renamed(og, os, sc, ports) == map[]
  {
    if |ports| > 0 {
      var init := ports[..|ports| - 1];
      assert !Fired(og, os, init) by {
        forall j | 0 <= j < |init| ensures !Triggered(og, os, init[j].0) {
          assert init[j] == ports[j];
        }
      }
      RenamedNone(og, os, sc, init);
    }
  }

  /** With distinct servers, each server's generated configuration is its renamed ports. */
  lemma {:induction false} PortFoldGen(servers: seq<Server>, og: Config, os: map<Server, Config>, sc: map<Server, Config>,
                                       ports: seq<(string, string)>, s: Server)
    requires Distinct(servers) && PortsReadable(servers, og, os, sc, ports)
    ensures var gen := PortFold(servers, og, os, sc, ports).gen;
            (s in gen <==> s in servers && Fired(og, os[s], ports)) &&
            (s in gen ==> gen[s] == Renamed(og, os[s], sc[s], ports))
  {
    if |servers| > 0 {
      var init := servers[..|servers| - 1];
      var last := servers[|servers| - 1];
      assert servers == init + [last];
      assert Distinct(init) && last !in init;
      PortFoldGen(init, og, os, sc, ports, s);
      PortStepGen(PortFold(init, og, os, sc, ports), og, os[last], sc[last], last, ports);
      if s == last {
        PortFoldGen(init, og, os, sc, ports, last);
      }
    }
  }

  /** A renamed port is under its new name exactly when the old name was written. */
  lemma {:induction false} RenamedKeys(og: Config, os: Config, sc: Config, ports: seq<(string, string)>, j: nat)
    requires PortsReadableFor(og, os, sc, ports) && j < |ports|
    requires forall a, b :: 0 <= a < b < |ports| ==> ports[a].1 != ports[b].1
    ensures var m := Renamed(og, os, sc, ports);
            (ports[j].1 in m <==> Triggered(og, os, ports[j].0)) &&
            (ports[j].1 in m ==> m[ports[j].1] == sc[ports[j].0])
  {
    var init := ports[..|ports| - 1];
    assert PortsReadableFor(og, os, sc, init) by {
      forall a | 0 <= a < |init| ensures init[a] == ports[a] { }
    }
    if j < |init| {
      assert init[j] == ports[j];
      assert ports[|ports| - 1].1 != ports[j].1;
      assert forall a, b :: 0 <= a < b < |init| ==> init[a].1 != init[b].1 by {
        forall a, b | 0 <= a < b < |init| ensures init[a].1 != init[b].1 {
          assert init[a] == ports[a] && init[b] == ports[b];
        }
      }
      RenamedKeys(og, os, sc, init, j);
    } else {
      RenamedOnlyNewKeys(og, os, sc, init, ports[j].1);
    }
  }

  /** Only the new names appear. */
  lemma {:induction false} RenamedOnlyNewKeys(og: Config, os: Config, sc: Config, ports: seq<(string, string)>, key: string)
    requires PortsReadableFor(og, os, sc, ports)
    ensures key in Renamed(og, os, sc, ports) ==> exists j :: 0 <= j < |ports| && ports[j].1 == key
  {
    if |ports| > 0 {
      var init := ports[..|ports| - 1];
      assert PortsReadableFor(og, os, sc, init) by {
        forall a | 0 <= a < |init| ensures init[a] == ports[a] { }
      }
      RenamedOnlyNewKeys(og, os, sc, init, key);
      if key in Renamed(og, os, sc, init) {
        var j :| 0 <= j < |init| && init[j].1 == key;
        assert ports[j] == init[j];
      }
    }
  }

  /** `server_port` becomes `monagent_http_port` and `pprof_port` becomes
      `mgragent_http_port`, for exactly the servers whose original settings or
      the original global ones name the old port, with the server's value. */
  lemma PortsRenamed(servers: seq<Server>, og: Config, os: map<Server, Config>, sc: map<Server, Config>, s: Server, j: nat)
    requires Distinct(servers) && PortsReadable(servers, og, os, sc, PortKeys)
    requires s in servers && j < |PortKeys|
    ensures var gen := PortFold(servers, og, os, sc, PortKeys).gen;
            var (oldKey, newKey) := PortKeys[j];
            (s in gen && newKey in gen[s] <==> oldKey in og || oldKey in os[s]) &&
            (s in gen && newKey in gen[s] ==> gen[s][newKey] == sc[s][oldKey])
  {
    PortFoldGen(servers, og, os, sc, PortKeys, s);
    RenamedKeys(og, os[s], sc[s], PortKeys, j);
    if Triggered(og, os[s], PortKeys[j].0) {
      assert Fired(og, os[s], PortKeys);
    }
  }

  /** The generated configuration holds only servers of the component, under
      the new port names, so the merge sees every key it visits. */
  lemma PortsWellformed(servers: seq<Server>, og: Config, os: map<Server, Config>, sc: map<Server, Config>)
    requires Distinct(servers) && PortsReadable(servers, og, os, sc, PortKeys)
    ensures var gen := PortFold(servers, og, os, sc, PortKeys).gen;
            (forall s :: s in gen ==> s in servers) && Wellformed(servers, gen, NewPortKeys)
  {
    var gen := PortFold(servers, og, os, sc, PortKeys).gen;
    forall s | s in gen ensures s in servers {
      PortFoldGen(servers, og, os, sc, PortKeys, s);
    }
    forall s, key | s in gen && key in gen[s] ensures key in NewPortKeys {
      PortFoldGen(servers, og, os, sc, PortKeys, s);
      RenamedOnlyNewKeys(og, os[s], sc[s], PortKeys, key);
    }
  }

  /** The old names of `ports` one server converts. */
  function TriggeredKeys(og: Config, os: Config, ports: seq<(string, string)>): set<string> {
    set j | 0 <= j < |ports| && Triggered(og, os, ports[j].0) :: ports[j].0
  }

  /** Every warning is one of the renamings of `ports`. */
  predicate WarnsFrom(warns: seq<(string, string)>, ports: seq<(string, string)>) {
    forall i :: 0 <= i < |warns| ==> warns[i] in ports
  }

  lemma TriggeredKeysAppend(og: Config, os: Config, init: seq<(string, string)>, x: (string, string))
    ensures TriggeredKeys(og, os, init + [x]) ==
              TriggeredKeys(og, os, init) + if Triggered(og, os, x.0) then {x.0} else {}
  {
    var ps := init + [x];
    forall y | y in TriggeredKeys(og, os, ps)
      ensures y in TriggeredKeys(og, os, init) + if Triggered(og, os, x.0) then {x.0} else {}
    {
      var a :| 0 <= a < |ps| && Triggered(og, os, ps[a].0) && ps[a].0 == y;
      if a < |init| { assert init[a] == ps[a]; }
    }
    forall y | y in TriggeredKeys(og, os, init) ensures y in TriggeredKeys(og, os, ps) {
      var a :| 0 <= a < |init| && Triggered(og, os, init[a].0) && init[a].0 == y;
      assert ps[a] == init[a];
    }
    assert ps[|init|] == x;
  }

  /** The warnings of one server's port loop: an old name not yet warned
      about is added once it is converted. */
  lemma {:induction false} PortStepWarns(scan: PortScan, og: Config, os: Config, sc: Config, server: Server,
                                         ports: seq<(string, string)>, all: seq<(string, string)>)
    requires PortsReadableFor(og, os, sc, ports)
    requires DistinctFirsts(scan.warns) && WarnsFrom(scan.warns, all) && forall k :: 0 <= k < |ports| ==> ports[k] in all
    ensures var w := PortStep(scan, og, os, sc, server, ports).warns;
            DistinctFirsts(w) && WarnsFrom(w, all) &&
            Firsts(w) == Firsts(scan.warns) + TriggeredKeys(og, os, ports)
  {
    if |ports| > 0 {
      var init := ports[..|ports| - 1];
      var x := ports[|ports| - 1];
      assert ports == init + [x];
      assert PortsReadableFor(og, os, sc, init) by {
        forall a | 0 <= a < |init| ensures init[a] == ports[a] { }
      }
      PortStepWarns(scan, og, os, sc, server, init, all);
      TriggeredKeysAppend(og, os, init, x);
      var w1 := PortStep(scan, og, os, sc, server, init).warns;
      if Triggered(og, os, x.0) && x.0 !in Firsts(w1) {
        var m := x;
        assert x == ports[|ports| - 1];
        FirstsAppend(w1, m);
        DistinctFirstsAppend(w1, m);
        assert (w1 + [m])[|w1|] == m;
        assert forall i :: 0 <= i < |w1| ==> (w1 + [m])[i] == w1[i];
      }
    }
  }

  /** The warnings of the whole port stage, for any port list. */
  lemma {:induction false} PortFoldWarns(servers: seq<Server>, og: Config, os: map<Server, Config>, sc: map<Server, Config>,
                                         ports: seq<(string, string)>, oldKey: string)
    requires PortsReadable(servers, og, os, sc, ports)
    ensures var w := PortFold(servers, og, os, sc, ports).warns;
            DistinctFirsts(w) && WarnsFrom(w, ports) &&
            (oldKey in Firsts(w) <==> exists s :: s in servers && oldKey in TriggeredKeys(og, os[s], ports))
  {
    if |servers| > 0 {
      var init := servers[..|servers| - 1];
      var last := servers[|servers| - 1];
      assert servers == init + [last];
      assert PortsReadable(init, og, os, sc, ports);
      PortFoldWarns(init, og, os, sc, ports, oldKey);
      PortStepWarns(PortFold(init, og, os, sc, ports), og, os[last], sc[last], last, ports, ports);
    }
  }

  /** Each old port name is warned about once, exactly when some server
      converts it, and the warning names the old and the new port. */
  lemma PortWarningsOnce(servers: seq<Server>, og: Config, os: map<Server, Config>, sc: map<Server, Config>,
                         oldKey: string)
    requires PortsReadable(servers, og, os, sc, PortKeys)
    ensures var w := PortFold(servers, og, os, sc, PortKeys).warns;
            DistinctFirsts(w) &&
            (forall i :: 0 <= i < |w| ==>
               w[i] == ("server_port", "monagent_http_port") || w[i] == ("pprof_port", "mgragent_http_port")) &&
            (oldKey in Firsts(w) <==>
               (oldKey == "server_port" || oldKey == "pprof_port") &&
               exists s :: s in servers && (oldKey in og || oldKey in os[s]))
  {
    PortFoldWarns(servers, og, os, sc, PortKeys, oldKey);
    forall s | s in servers
      ensures oldKey in TriggeredKeys(og, os[s], PortKeys) <==>
                (oldKey == "server_port" || oldKey == "pprof_port") && Triggered(og, os[s], oldKey)
    {
      if oldKey == "server_port" { assert PortKeys[0].0 == oldKey; }
      if oldKey == "pprof_port" { assert PortKeys[1].0 == oldKey; }
    }
  }

  /** After submitting, a server shows its own generated value for a key it
      kept, and the generated global value for a key it neither kept nor
      overrides itself. */
  lemma SubmittedView(
    global: Config, serverConf: map<Server, Config>, servers: seq<Server>, genGlobal: Config, gen: map<Server, Config>,
    s: Server, k: string)
    requires s in serverConf && s in servers && s in gen
    ensures var view := ServerView(global + genGlobal, Submitted(serverConf, servers, gen)[s]);
            (k in gen[s] ==> k in view && view[k] == gen[s][k]) &&
            (k !in gen[s] && k !in serverConf[s] && k in genGlobal ==> k in view && view[k] == genGlobal[k])
  {
  }

  /** End to end: after the port stage, the merge and the submission, a server
      that converted a port shows the port's value under its new name, unless
      it already carried a setting of its own under that name. */
  lemma UpgradeKeepsPorts(servers: seq<Server>, og: Config, os: map<Server, Config>, sc: map<Server, Config>,
                          global: Config, serverConf: map<Server, Config>, s: Server, j: nat)
    requires Distinct(servers) && PortsReadable(servers, og, os, sc, PortKeys)
    requires s in servers && s in serverConf && j < |PortKeys|
    requires PortKeys[j].0 in og || PortKeys[j].0 in os[s]
    requires PortKeys[j].1 !in serverConf[s]
    ensures var (genGlobal, gen) := UpgradedConfig(servers, og, os, sc);
            var view := ServerView(global + genGlobal, Submitted(serverConf, servers, gen)[s]);
            PortKeys[j].1 in view && view[PortKeys[j].1] == sc[s][PortKeys[j].0]
  {
    var ports := PortFold(servers, og, os, sc, PortKeys).gen;
    PortsRenamed(servers, og, os, sc, s, j);
    PortsWellformed(servers, og, os, sc);
    MergePreservesValues(map[], servers, ports, NewPortKeys, s, PortKeys[j].1);
    var (genGlobal, gen) := UpgradedConfig(servers, og, os, sc);
    SubmittedView(global, serverConf, servers, genGlobal, gen, s, PortKeys[j].1);
  }
}
