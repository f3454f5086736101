/**
 * The merge of generated configuration during an obagent upgrade
 * (`merge_generate_config`): keys generated per server move to the global
 * configuration when every server generated the same value, and stay per
 * server otherwise. With at most one server, everything moves to global.
 */
module ObagentMerge {
  import opened Values
  import opened Wrappers

  type Server = string
  type Config = map<string, Value>

  predicate Distinct<T(==)>(xs: seq<T>) {
    forall i, j :: 0 <= i < j < |xs| ==> xs[i] != xs[j]
  }

  /** Every generated key is one of `keys`, the order in which a server's
      generated keys are visited. */
  predicate KeysListed(gen: map<Server, Config>, keys: seq<string>) {
    forall s, key :: s in gen && key in gen[s] ==> key in keys
  }

  /** An entry of `merge_config`: the first value seen for a key, the servers
      that carried that value, and how many they are. */
  datatype Pending = Pending(value: Value, servers: seq<Server>, count: nat)

  /** The shared state of the merge loop: the global configuration and `merge_config`. */
  datatype Carry = Carry(global: Config, pending: map<string, Pending>)

  // ---------------------------------------------------------------- the merge as written

  /** One key of one server: the new state, and whether the server keeps
      the key in its own configuration. */
  function KeyStep(c: Carry, countBase: nat, server: Server, key: string, v: Value): (Carry, bool) {
    if key in c.global then (c, c.global[key] != v)
    else if key in c.pending then
      var p := c.pending[key];
      if p.value != v then (c, true)
      else if countBase == p.count then (Carry(c.global[key := v], c.pending - {key}), false)
      else (Carry(c.global, c.pending[key := Pending(p.value, p.servers + [server], p.count + 1)]), false)
    else (Carry(c.global, c.pending[key := Pending(v, [server], 1)]), false)
  }

  /** The keys of one server's configuration, visited in the order of `keys`;
      the second component is the server's merged configuration. */
  function ServerStep(c: Carry, countBase: nat, server: Server, cfg: Config, keys: seq<string>): (Carry, Config) {
    if |keys| == 0 then (c, map[])
    else
      var (c1, merged) := ServerStep(c, countBase, server, cfg, keys[..|keys| - 1]);
      var key := keys[|keys| - 1];
      if key !in cfg then (c1, merged)
      else
        var (c2, keep) := KeyStep(c1, countBase, server, key, cfg[key]);
        (c2, if keep then merged[key := cfg[key]] else merged)
  }

  /** The servers in order; a server without generated configuration is skipped. */
  function ServersStep(c: Carry, countBase: nat, servers: seq<Server>, gen: map<Server, Config>, keys: seq<string>)
    : (Carry, map<Server, Config>)
  {
    if |servers| == 0 then (c, gen)
    else
      var (c1, g1) := ServersStep(c, countBase, servers[..|servers| - 1], gen, keys);
      var server := servers[|servers| - 1];
      if server !in g1 then (c1, g1)
      else
        var (c2, merged) := ServerStep(c1, countBase, server, g1[server], keys);
        (c2, g1[server := merged])
  }

  /** The pending keys in `done` written back to the servers recorded for them. */
  function WriteBackKeys(gen: map<Server, Config>, pending: map<string, Pending>, done: set<string>): map<Server, Config> {
    map s | s in gen :: gen[s] + Recorded(pending, done, s)
  }

  /** The keys of `done` recorded for server `s`, with their pending values. */
  function Recorded(pending: map<string, Pending>, done: set<string>, s: Server): Config {
    map k | k in pending && k in done && s in pending[k].servers :: pending[k].value
  }

  /** Every key left in `merge_config` written back. */
  function WriteBack(gen: map<Server, Config>, pending: map<string, Pending>): map<Server, Config> {
    WriteBackKeys(gen, pending, pending.Keys)
  }

  /** With at most one server: each server's configuration moves into global. */
  function Flatten(global: Config, servers: seq<Server>, gen: map<Server, Config>): (Config, map<Server, Config>) {
    if |servers| == 0 then (global, gen)
    else
      var (g1, gen1) := Flatten(global, servers[..|servers| - 1], gen);
      var server := servers[|servers| - 1];
      if server !in gen1 then (g1, gen1) else (g1 + gen1[server], gen1[server := map[]])
  }

  /** `merge_generate_config`: the new global configuration and the new
      per-server configurations. */
  function MergeGenerateConfig(global: Config, servers: seq<Server>, gen: map<Server, Config>, keys: seq<string>)
    : (Config, map<Server, Config>)
  {
    if |servers| - 1 < 1 then Flatten(global, servers, gen)
    else
      var (c, g) := ServersStep(Carry(global, map[]), |servers| - 1, servers, gen, keys);
      (c.global, WriteBack(g, c.pending))
  }

  /** The merge loop of the upgrade: the per-server configurations are
      rewritten in place, promoted keys are stored in the global configuration,
      and the keys still pending are written back at the end. */
  method MergeGenerateConfigs(global: Config, servers: seq<Server>, gen: map<Server, Config>, keys: seq<string>)
    returns (newGlobal: Config, newGen: map<Server, Config>)
    ensures (newGlobal, newGen) == MergeGenerateConfig(global, servers, gen, keys)
  {
    newGlobal, newGen := global, gen;
    var countBase := |servers| - 1;
    if countBase < 1 {
      var i := 0;
      while i < |servers|
        invariant 0 <= i <= |servers|
        invariant (newGlobal, newGen) == Flatten(global, servers[..i], gen)
      {
        assert servers[..i + 1][..i] == servers[..i];
        var server := servers[i];
        if server in newGen {
          newGlobal := newGlobal + newGen[server];
          newGen := newGen[server := map[]];
        }
        i := i + 1;
      }
      assert servers[..|servers|] == servers;
      return;
    }
    var pending: map<string, Pending> := map[];
    var i := 0;
    while i < |servers|
      invariant 0 <= i <= |servers|
      invariant (Carry(newGlobal, pending), newGen) == ServersStep(Carry(global, map[]), countBase, servers[..i], gen, keys)
    {
      assert servers[..i + 1][..i] == servers[..i];
      var server := servers[i];
      if server in newGen {
        var merged;
        newGlobal, pending, merged := MergeServer(newGlobal, pending, countBase, server, newGen[server], keys);
        newGen := newGen[server := merged];
      }
      i := i + 1;
    }
    assert servers[..|servers|] == servers;
    newGen := WriteBackPending(newGen, pending);
  }

  /** The key loop for one server: `merged_server_config` collects the keys
      the server keeps. */
  method MergeServer(global: Config, pending: map<string, Pending>, countBase: nat, server: Server, cfg: Config, keys: seq<string>)
    returns (newGlobal: Config, newPending: map<string, Pending>, merged: Config)
    ensures (Carry(newGlobal, newPending), merged) == ServerStep(Carry(global, pending), countBase, server, cfg, keys)
  {
    newGlobal, newPending, merged := global, pending, map[];
    var j := 0;
    while j < |keys|
      invariant 0 <= j <= |keys|
      invariant (Carry(newGlobal, newPending), merged) == ServerStep(Carry(global, pending), countBase, server, cfg, keys[..j])
    {
      assert keys[..j + 1][..j] == keys[..j];
      var key := keys[j];
      if key in cfg {
        var val := cfg[key];
        if key in newGlobal {
          if newGlobal[key] != val {
            merged := merged[key := val];
          }
        } else if key in newPending {
          var p := newPending[key];
          if p.value != val {
            merged := merged[key := val];
          } else if countBase == p.count {
            newGlobal := newGlobal[key := val];
            newPending := newPending - {key};
          } else {
            newPending := newPending[key := Pending(p.value, p.servers + [server], p.count + 1)];
          }
        } else {
          newPending := newPending[key := Pending(val, [server], 1)];
        }
      }
      j := j + 1;
    }
    assert keys[..|keys|] == keys;
  }

  /** The keys left in `merge_config` written back to the servers recorded for them. */
  method WriteBackPending(gen: map<Server, Config>, pending: map<string, Pending>) returns (newGen: map<Server, Config>)
    ensures newGen == WriteBack(gen, pending)
  {
    newGen := gen;
    var left := pending.Keys;
    while left != {}
      invariant left <= pending.Keys
      invariant newGen.Keys == gen.Keys
      invariant forall s :: s in gen ==> newGen[s] == gen[s] + Recorded(pending, pending.Keys - left, s)
      decreases |left|
    {
      var key :| key in left;
      var st := pending[key];
      ghost var before := newGen;
      newGen := WriteBackKey(newGen, key, st.value, st.servers);
      ghost var done := pending.Keys - left;
      assert done + {key} == pending.Keys - (left - {key});
      forall s | s in gen
        ensures newGen[s] == gen[s] + Recorded(pending, done + {key}, s)
      {
        var extra: Config := if s in st.servers then map[key := st.value] else map[];
        assert newGen[s] == before[s] + extra;
        RecordedAdd(pending, done, key, s);
        MapUnion(gen[s], Recorded(pending, done, s), extra);
      }
      left := left - {key};
    }
    assert pending.Keys - left == pending.Keys;
  }

  /** One key of `merge_config` written back to the servers recorded for it. */
  method WriteBackKey(gen: map<Server, Config>, key: string, value: Value, servers: seq<Server>)
    returns (newGen: map<Server, Config>)
    ensures newGen.Keys == gen.Keys
    ensures forall s :: s in gen ==> newGen[s] == gen[s] + if s in servers then map[key := value] else map[]
  {
    newGen := gen;
    var j := 0;
    while j < |servers|
      invariant 0 <= j <= |servers|
      invariant newGen.Keys == gen.Keys
      invariant forall s :: s in gen ==> newGen[s] == gen[s] + if s in servers[..j] then map[key := value] else map[]
    {
      var server := servers[j];
      assert forall s :: s in servers[..j + 1] <==> s in servers[..j] || s == server;
      if server in newGen {
        newGen := newGen[server := newGen[server][key := value]];
      }
      j := j + 1;
    }
    assert servers[..|servers|] == servers;
  }

  lemma MapUnion(a: Config, b: Config, c: Config)
    ensures a + b + c == a + (b + c)
  {
  }

  /** Writing back one more key adds it for exactly the servers recorded for it. */
  lemma RecordedAdd(pending: map<string, Pending>, done: set<string>, key: string, s: Server)
    requires key in pending && key !in done
    ensures Recorded(pending, done + {key}, s) ==
              Recorded(pending, done, s) + if s in pending[key].servers then map[key := pending[key].value] else map[]
  {
  }

  // ---------------------------------------------------------------- one key at a time

  /** What the state says about one key. */
  datatype Slot = Slot(global: Option<Value>, pending: Option<Pending>)

  function SlotOf(c: Carry, key: string): Slot {
    Slot(if key in c.global then Some(c.global[key]) else None,
         if key in c.pending then Some(c.pending[key]) else None)
  }

  /** `KeyStep` seen from its own key. */
  function SlotStep(sl: Slot, countBase: nat, server: Server, v: Value): (Slot, bool) {
    if sl.global.Some? then (sl, sl.global.value != v)
    else if sl.pending.Some? then
      var p := sl.pending.value;
      if p.value != v then (sl, true)
      else if countBase == p.count then (Slot(Some(v), None), false)
      else (Slot(None, Some(Pending(p.value, p.servers + [server], p.count + 1))), false)
    else (Slot(None, Some(Pending(v, [server], 1))), false)
  }

  predicate Carries(gen: map<Server, Config>, s: Server, key: string) {
    s in gen && key in gen[s]
  }

  /** A key followed through the servers: its slot and the servers that keep it. */
  datatype KeyRun = KeyRun(slot: Slot, kept: set<Server>)

  function KeyFold(sl: Slot, countBase: nat, servers: seq<Server>, gen: map<Server, Config>, key: string): (r: KeyRun)
    ensures forall s :: s in r.kept ==> s in servers && Carries(gen, s, key)
  {
    if |servers| == 0 then KeyRun(sl, {})
    else
      var r := KeyFold(sl, countBase, servers[..|servers| - 1], gen, key);
      var s := servers[|servers| - 1];
      if Carries(gen, s, key) then
        var (sl2, keep) := SlotStep(r.slot, countBase, s, gen[s][key]);
        KeyRun(sl2, if keep then r.kept + {s} else r.kept)
      else r
  }

  /** The servers of `servers` that generated `key` with the value `v`, in order. */
  function Agreeing(servers: seq<Server>, gen: map<Server, Config>, key: string, v: Value): (a: seq<Server>)
    ensures |a| <= |servers|
    ensures forall s :: s in a <==> s in servers && Carries(gen, s, key) && gen[s][key] == v
    ensures |a| == |servers| ==> forall s :: s in servers ==> Carries(gen, s, key) && gen[s][key] == v
    ensures (forall s :: s in servers ==> !Carries(gen, s, key)) ==> a == []
  {
    if |servers| == 0 then []
    else
      var init := servers[..|servers| - 1];
      var s := servers[|servers| - 1];
      assert servers == init + [s];
      Agreeing(init, gen, key, v) + if Carries(gen, s, key) && gen[s][key] == v then [s] else []
  }

  lemma KeyStepSlot(c: Carry, countBase: nat, server: Server, key: string, v: Value, k: string)
    ensures SlotOf(KeyStep(c, countBase, server, key, v).0, k) ==
              if k == key then SlotStep(SlotOf(c, key), countBase, server, v).0 else SlotOf(c, k)
    ensures KeyStep(c, countBase, server, key, v).1 == SlotStep(SlotOf(c, key), countBase, server, v).1
  {
  }

  /** One server's keys, seen from one key. */
  lemma {:induction false} ServerStepSlot(c: Carry, countBase: nat, server: Server, cfg: Config, keys: seq<string>, k: string)
    requires Distinct(keys)
    ensures var (c2, merged) := ServerStep(c, countBase, server, cfg, keys);
            var step := SlotStep(SlotOf(c, k), countBase, server, if k in cfg then cfg[k] else PyNone);
            SlotOf(c2, k) == (if k in keys && k in cfg then step.0 else SlotOf(c, k)) &&
            (k in merged <==> k in keys && k in cfg && step.1) &&
            (k in merged ==> merged[k] == cfg[k])
  {
    if |keys| > 0 {
      var init := keys[..|keys| - 1];
      var key := keys[|keys| - 1];
      assert Distinct(init);
      assert keys == init + [key];
      ServerStepSlot(c, countBase, server, cfg, init, k);
      var (c1, merged) := ServerStep(c, countBase, server, cfg, init);
      if key in cfg {
        KeyStepSlot(c1, countBase, server, key, cfg[key], k);
        if k == key {
          assert k !in init;
        }
      }
    }
  }

  /** The whole server loop, seen from one key. */
  lemma {:induction false} ServersStepSlot(
    c0: Carry, countBase: nat, servers: seq<Server>, gen: map<Server, Config>, keys: seq<string>, k: string)
    requires Distinct(servers) && Distinct(keys) && KeysListed(gen, keys)
    ensures var (c, g) := ServersStep(c0, countBase, servers, gen, keys);
            var r := KeyFold(SlotOf(c0, k), countBase, servers, gen, k);
            SlotOf(c, k) == r.slot && g.Keys == gen.Keys &&
            (forall s :: s in gen && s !in servers ==> g[s] == gen[s]) &&
            (forall s :: s in gen && s in servers ==> (k in g[s] <==> s in r.kept)) &&
            (forall s :: s in gen && k in g[s] ==> k in gen[s] && g[s][k] == gen[s][k])
  {
    if |servers| > 0 {
      var init := servers[..|servers| - 1];
      var server := servers[|servers| - 1];
      assert servers == init + [server];
      assert Distinct(init);
      assert server !in init;
      ServersStepSlot(c0, countBase, init, gen, keys, k);
      var (c1, g1) := ServersStep(c0, countBase, init, gen, keys);
      if server in g1 {
        assert g1[server] == gen[server];
        ServerStepSlot(c1, countBase, server, gen[server], keys, k);
      }
    }
  }

  /** The state the fold keeps for a key that was not global: values carried
      by some server are kept by it, pending with the servers that agree, or
      global once every server agreed. */
  ghost predicate FreshInv(servers: seq<Server>, gen: map<Server, Config>, key: string, i: nat, r: KeyRun)
    requires i <= |servers|
  {
    var prefix := servers[..i];
    (r.slot.global.None? && r.slot.pending.None? ==> forall s :: s in prefix ==> !Carries(gen, s, key)) &&
    (r.slot.pending.Some? ==>
       var p := r.slot.pending.value;
       r.slot.global.None? && p.servers == Agreeing(prefix, gen, key, p.value) &&
       p.count == |p.servers| && 1 <= p.count <= |servers| - 1) &&
    (r.slot.global.Some? ==>
       r.slot.pending.None? && i == |servers| &&
       forall s :: s in servers ==> Carries(gen, s, key) && gen[s][key] == r.slot.global.value) &&
    (forall s :: s in prefix && Carries(gen, s, key) ==>
       s in r.kept || (r.slot.pending.Some? && s in r.slot.pending.value.servers) ||
       r.slot.global == Some(gen[s][key]))
  }

  lemma {:induction false} FreshKey(servers: seq<Server>, gen: map<Server, Config>, key: string, i: nat)
    requires 2 <= |servers| && i <= |servers|
    ensures FreshInv(servers, gen, key, i, KeyFold(Slot(None, None), |servers| - 1, servers[..i], gen, key))
  {
    if i > 0 {
      FreshKey(servers, gen, key, i - 1);
      var countBase := |servers| - 1;
      var prefix := servers[..i - 1];
      var s := servers[i - 1];
      assert servers[..i] == prefix + [s];
      KeyFoldStep(Slot(None, None), countBase, prefix, s, gen, key);
      var r := KeyFold(Slot(None, None), countBase, prefix, gen, key);
      if !Carries(gen, s, key) {
        FreshSkip(servers, gen, key, i, r);
      } else if r.slot.pending.None? {
        FreshNew(servers, gen, key, i, r);
      } else if r.slot.pending.value.value != gen[s][key] {
        FreshDiffer(servers, gen, key, i, r);
      } else if r.slot.pending.value.count == countBase {
        FreshPromote(servers, gen, key, i, r);
      } else {
        FreshJoin(servers, gen, key, i, r);
      }
    }
  }

  /** The fold over one more server. */
  lemma KeyFoldStep(sl: Slot, countBase: nat, prefix: seq<Server>, s: Server, gen: map<Server, Config>, key: string)
    ensures var r := KeyFold(sl, countBase, prefix, gen, key);
            KeyFold(sl, countBase, prefix + [s], gen, key) ==
              if Carries(gen, s, key) then
                var (sl2, keep) := SlotStep(r.slot, countBase, s, gen[s][key]);
                KeyRun(sl2, if keep then r.kept + {s} else r.kept)
              else r
  {
    assert (prefix + [s])[..|prefix|] == prefix;
  }

  /** The agreeing servers of one more server. */
  lemma AgreeingStep(prefix: seq<Server>, s: Server, gen: map<Server, Config>, key: string, v: Value)
    ensures Agreeing(prefix + [s], gen, key, v) ==
              Agreeing(prefix, gen, key, v) + if Carries(gen, s, key) && gen[s][key] == v then [s] else []
  {
    assert (prefix + [s])[..|prefix|] == prefix;
  }

  /** A server that did not generate the key changes nothing. */
  lemma FreshSkip(servers: seq<Server>, gen: map<Server, Config>, key: string, i: nat, r: KeyRun)
    requires 2 <= |servers| && 1 <= i <= |servers| && FreshInv(servers, gen, key, i - 1, r)
    requires !Carries(gen, servers[i - 1], key)
    ensures FreshInv(servers, gen, key, i, r)
  {
    var prefix := servers[..i - 1];
    var s := servers[i - 1];
    assert servers[..i] == prefix + [s];
    if r.slot.pending.Some? {
      AgreeingStep(prefix, s, gen, key, r.slot.pending.value.value);
    }
    forall t | t in servers[..i] && Carries(gen, t, key) ensures t in prefix {
    }
  }

  /** The first server that generated the key makes it pending. */
  lemma FreshNew(servers: seq<Server>, gen: map<Server, Config>, key: string, i: nat, r: KeyRun)
    requires 2 <= |servers| && 1 <= i <= |servers| && FreshInv(servers, gen, key, i - 1, r)
    requires Carries(gen, servers[i - 1], key) && r.slot.pending.None?
    ensures r.slot.global.None?
    ensures FreshInv(servers, gen, key, i, KeyRun(Slot(None, Some(Pending(gen[servers[i - 1]][key], [servers[i - 1]], 1))), r.kept))
  {
    var prefix := servers[..i - 1];
    var s := servers[i - 1];
    var v := gen[s][key];
    assert servers[..i][..i - 1] == prefix;
    assert forall t :: t in servers[..i] <==> t in prefix || t == s;
    var a := Agreeing(prefix, gen, key, v);
  }

  /** A server with another value than the pending one keeps its own. */
  lemma FreshDiffer(servers: seq<Server>, gen: map<Server, Config>, key: string, i: nat, r: KeyRun)
    requires 2 <= |servers| && 1 <= i <= |servers| && FreshInv(servers, gen, key, i - 1, r)
    requires Carries(gen, servers[i - 1], key) && r.slot.pending.Some?
    requires r.slot.pending.value.value != gen[servers[i - 1]][key]
    ensures r.slot.global.None?
    ensures FreshInv(servers, gen, key, i, KeyRun(r.slot, r.kept + {servers[i - 1]}))
  {
    var prefix := servers[..i - 1];
    var s := servers[i - 1];
    assert servers[..i] == prefix + [s];
    AgreeingStep(prefix, s, gen, key, r.slot.pending.value.value);
    forall t | t in servers[..i] && Carries(gen, t, key) && t != s ensures t in prefix {
    }
    var nr := KeyRun(r.slot, r.kept + {s});
    assert FreshInv(servers, gen, key, i, nr);
  }

  /** The last of all servers agreeing promotes the key. */
  lemma FreshPromote(servers: seq<Server>, gen: map<Server, Config>, key: string, i: nat, r: KeyRun)
    requires 2 <= |servers| && 1 <= i <= |servers| && FreshInv(servers, gen, key, i - 1, r)
    requires Carries(gen, servers[i - 1], key) && r.slot.pending.Some?
    requires r.slot.pending.value.value == gen[servers[i - 1]][key]
    requires r.slot.pending.value.count == |servers| - 1
    ensures r.slot.global.None?
    ensures FreshInv(servers, gen, key, i, KeyRun(Slot(Some(r.slot.pending.value.value), None), r.kept))
  {
    var prefix := servers[..i - 1];
    var p := r.slot.pending.value;
    assert |prefix| == i - 1;
    assert i == |servers|;
    assert forall t :: t in prefix ==> Carries(gen, t, key) && gen[t][key] == p.value;
    assert servers == prefix + [servers[i - 1]];
    assert servers[..i] == servers;
  }

  /** A further agreeing server joins the pending entry. */
  lemma FreshJoin(servers: seq<Server>, gen: map<Server, Config>, key: string, i: nat, r: KeyRun)
    requires 2 <= |servers| && 1 <= i <= |servers| && FreshInv(servers, gen, key, i - 1, r)
    requires Carries(gen, servers[i - 1], key) && r.slot.pending.Some?
    requires r.slot.pending.value.value == gen[servers[i - 1]][key]
    requires r.slot.pending.value.count != |servers| - 1
    ensures r.slot.global.None?
    ensures var p := r.slot.pending.value;
            FreshInv(servers, gen, key, i, KeyRun(Slot(None, Some(Pending(p.value, p.servers + [servers[i - 1]], p.count + 1))), r.kept))
  {
    var prefix := servers[..i - 1];
    var s := servers[i - 1];
    var p := r.slot.pending.value;
    var q := Pending(p.value, p.servers + [s], p.count + 1);
    assert servers[..i] == prefix + [s];
    AgreeingStep(prefix, s, gen, key, p.value);
    assert q.servers == Agreeing(servers[..i], gen, key, q.value);
    assert q.count == |q.servers| && 1 <= q.count <= |servers| - 1;
    forall t | t in servers[..i] && Carries(gen, t, key) && t != s ensures t in prefix {
    }
    var nr := KeyRun(Slot(None, Some(q)), r.kept);
    assert FreshInv(servers, gen, key, i, nr);
  }

  /** A key already global stays so; a server keeps it exactly when its value differs. */
  lemma {:induction false} GlobalKey(w: Value, countBase: nat, servers: seq<Server>, gen: map<Server, Config>, key: string)
    ensures var r := KeyFold(Slot(Some(w), None), countBase, servers, gen, key);
            r.slot == Slot(Some(w), None) &&
            forall s :: s in r.kept <==> s in servers && Carries(gen, s, key) && gen[s][key] != w
  {
    if |servers| > 0 {
      var init := servers[..|servers| - 1];
      assert servers == init + [servers[|servers| - 1]];
      GlobalKey(w, countBase, init, gen, key);
    }
  }

  /** When every server generated the same value, it is pending with them all
      until the last server promotes it. */
  lemma {:induction false} AgreeingKey(servers: seq<Server>, gen: map<Server, Config>, key: string, v: Value, i: nat)
    requires 2 <= |servers| && 1 <= i <= |servers|
    requires forall s :: s in servers ==> Carries(gen, s, key) && gen[s][key] == v
    ensures var r := KeyFold(Slot(None, None), |servers| - 1, servers[..i], gen, key);
            r.kept == {} &&
            r.slot == if i < |servers| then Slot(None, Some(Pending(v, servers[..i], i))) else Slot(Some(v), None)
  {
    var s := servers[i - 1];
    assert servers[..i] == servers[..i - 1] + [s];
    assert s in servers;
    if i > 1 {
      AgreeingKey(servers, gen, key, v, i - 1);
    }
  }

  // ---------------------------------------------------------------- properties

  predicate Wellformed(servers: seq<Server>, gen: map<Server, Config>, keys: seq<string>) {
    Distinct(servers) && Distinct(keys) && KeysListed(gen, keys)
  }

  /** The merge only relocates values: after it, each generated value is still
      the server's own value or, when the server no longer holds the key, the
      global one. */
  lemma MergePreservesValues(global: Config, servers: seq<Server>, gen: map<Server, Config>, keys: seq<string>, s: Server, k: string)
    requires Wellformed(servers, gen, keys)
    requires s in gen && k in gen[s]
    ensures var (g, merged) := MergeGenerateConfig(global, servers, gen, keys);
            s in merged &&
            if k in merged[s] then merged[s][k] == gen[s][k] else k in g && g[k] == gen[s][k]
  {
    if |servers| - 1 < 1 {
      FlattenMoves(global, servers, gen);
    } else {
      var countBase := |servers| - 1;
      ServersStepSlot(Carry(global, map[]), countBase, servers, gen, keys, k);
      var (c, g) := ServersStep(Carry(global, map[]), countBase, servers, gen, keys);
      var r := KeyFold(SlotOf(Carry(global, map[]), k), countBase, servers, gen, k);
      assert servers[..|servers|] == servers;
      if k in global {
        GlobalKey(global[k], countBase, servers, gen, k);
      } else {
        FreshKey(servers, gen, k, |servers|);
      }
      assert k in c.pending ==> c.pending[k] == r.slot.pending.value;
    }
  }

  /** Nothing is invented per server: every key a server holds after the
      merge it generated, with the same value. */
  lemma MergeOnlyRelocates(global: Config, servers: seq<Server>, gen: map<Server, Config>, keys: seq<string>, s: Server, k: string)
    requires Wellformed(servers, gen, keys)
    ensures var (g, merged) := MergeGenerateConfig(global, servers, gen, keys);
            merged.Keys == gen.Keys &&
            (s in merged && k in merged[s] ==> k in gen[s] && merged[s][k] == gen[s][k])
  {
    if |servers| - 1 < 1 {
      FlattenMoves(global, servers, gen);
    } else {
      var countBase := |servers| - 1;
      ServersStepSlot(Carry(global, map[]), countBase, servers, gen, keys, k);
      var (c, g) := ServersStep(Carry(global, map[]), countBase, servers, gen, keys);
      assert servers[..|servers|] == servers;
      if k in global {
        GlobalKey(global[k], countBase, servers, gen, k);
      } else {
        FreshKey(servers, gen, k, |servers|);
      }
    }
  }

  /** A key reaches the global configuration only when it was there already
      or every server generated it with that very value. */
  lemma GlobalOnlyByConsensus(global: Config, servers: seq<Server>, gen: map<Server, Config>, keys: seq<string>, k: string)
    requires Wellformed(servers, gen, keys)
    ensures var (g, merged) := MergeGenerateConfig(global, servers, gen, keys);
            k in g ==>
              (k in global && g[k] == global[k]) ||
              (|servers| > 0 && forall s :: s in servers ==> Carries(gen, s, k) && gen[s][k] == g[k])
  {
    if |servers| - 1 < 1 {
      FlattenMoves(global, servers, gen);
    } else {
      var countBase := |servers| - 1;
      ServersStepSlot(Carry(global, map[]), countBase, servers, gen, keys, k);
      assert servers[..|servers|] == servers;
      if k in global {
        GlobalKey(global[k], countBase, servers, gen, k);
      } else {
        FreshKey(servers, gen, k, |servers|);
      }
    }
  }

  /** When every server generated the same value for a new key, it becomes
      global and no server keeps it. */
  lemma ConsensusPromoted(global: Config, servers: seq<Server>, gen: map<Server, Config>, keys: seq<string>, k: string, v: Value)
    requires Wellformed(servers, gen, keys)
    requires |servers| > 0 && k !in global
    requires forall s :: s in servers ==> Carries(gen, s, k) && gen[s][k] == v
    ensures var (g, merged) := MergeGenerateConfig(global, servers, gen, keys);
            k in g && g[k] == v && forall s :: s in servers ==> s in merged && k !in merged[s]
  {
    if |servers| - 1 < 1 {
      FlattenMoves(global, servers, gen);
    } else {
      var countBase := |servers| - 1;
      ServersStepSlot(Carry(global, map[]), countBase, servers, gen, keys, k);
      assert servers[..|servers|] == servers;
      AgreeingKey(servers, gen, k, v, |servers|);
    }
  }

  /** A key that is already global keeps its global value; a server keeps its
      own value exactly when it differs. */
  lemma GlobalValueWins(global: Config, servers: seq<Server>, gen: map<Server, Config>, keys: seq<string>, k: string, s: Server)
    requires Wellformed(servers, gen, keys)
    requires 2 <= |servers| && k in global && s in servers && Carries(gen, s, k)
    ensures var (g, merged) := MergeGenerateConfig(global, servers, gen, keys);
            k in g && g[k] == global[k] && s in merged && (k in merged[s] <==> gen[s][k] != global[k])
  {
    var countBase := |servers| - 1;
    ServersStepSlot(Carry(global, map[]), countBase, servers, gen, keys, k);
    assert servers[..|servers|] == servers;
    GlobalKey(global[k], countBase, servers, gen, k);
  }

  /** With at most one server, its generated configuration moves to global
      and its own map becomes empty. */
  lemma {:induction false} FlattenMoves(global: Config, servers: seq<Server>, gen: map<Server, Config>)
    requires |servers| <= 1
    ensures var (g, merged) := Flatten(global, servers, gen);
            merged.Keys == gen.Keys &&
            (forall s :: s in gen && s !in servers ==> merged[s] == gen[s]) &&
            (|servers| == 0 ==> g == global) &&
            (|servers| == 1 ==>
               var s := servers[0];
               (s in gen ==> merged[s] == map[] && g == global + gen[s]) &&
               (s !in gen ==> g == global))
  {
    if |servers| == 1 {
      assert servers[..0] == [];
    }
  }
}
