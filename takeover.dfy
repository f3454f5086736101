/**
 * The base configuration of a cluster that is taken over: the connection
 * options become the `oceanbase-ce` component (its one server and its
 * global `mysql_port` and `root_password`), and the SSH options that were
 * given become the `user` section under their configuration names.
 */
module Takeover {
  import opened Values
  import opened Wrappers
  import opened PluginContexts

  /** Each SSH configuration key with the option it is read from, in order. */
  const SshKeyMap: seq<(string, string)> :=
    [("username", "ssh_user"), ("ssh_password", "password"), ("key_file", "ssh_key_file"), ("port", "ssh_port")]

  const Component: string := "oceanbase-ce"

  /** Every option the plugin reads; reading one that is not defined fails. */
  predicate HasOptions(options: map<string, Value>) {
    "host" in options && "mysql_port" in options && "root_password" in options &&
    forall i :: 0 <= i < |SshKeyMap| ==> SshKeyMap[i].1 in options
  }

  /** No configuration key is mapped twice. */
  predicate DistinctKeys(keys: seq<(string, string)>) {
    forall i, j :: 0 <= i < j < |keys| ==> keys[i].0 != keys[j].0
  }

  /** The user section built from `keys`: each option that is not `None`,
      under its configuration name, in the order of `keys`. */
  function UserEntries(options: map<string, Value>, keys: seq<(string, string)>): seq<(string, Value)>
    requires forall i :: 0 <= i < |keys| ==> keys[i].1 in options
  {
    if |keys| == 0 then []
    else
      var (key, opt) := keys[|keys| - 1];
      UserEntries(options, keys[..|keys| - 1]) + if options[opt].PyNone? then [] else [(key, options[opt])]
  }

  /** The component section: the host as the only server, and the port and
      password as global settings. */
  function ComponentConfig(options: map<string, Value>): Value
    requires HasOptions(options)
  {
    Dict([
      ("servers", List([options["host"]])),
      ("global", Dict([("mysql_port", options["mysql_port"]), ("root_password", options["root_password"])]))
    ])
  }

  /** The whole configuration: the component first, then the user section
      when it is not empty. */
  function TakeoverConfig(options: map<string, Value>): Value
    requires HasOptions(options)
  {
    var user := UserEntries(options, SshKeyMap);
    Dict([(Component, ComponentConfig(options))] + if |user| > 0 then [("user", Dict(user))] else [])
  }

  /** The configuration as `create_takeover_base_config` assembles it: the
      component is stored first, the user section is filled by a loop over
      the key map, and stored under `user` when it is not empty. */
  method BuildTakeoverConfig(options: map<string, Value>) returns (config: Value)
    requires HasOptions(options)
    ensures config == TakeoverConfig(options)
  {
    var entries: seq<(string, Value)> := [];
    entries := Store(entries, Component, ComponentConfig(options));
    var user: seq<(string, Value)> := [];
    var i := 0;
    while i < |SshKeyMap|
      invariant 0 <= i <= |SshKeyMap|
      invariant user == UserEntries(options, SshKeyMap[..i])
    {
      var (key, opt) := SshKeyMap[i];
      var val := options[opt];
      assert SshKeyMap[..i + 1][..i] == SshKeyMap[..i];
      if !val.PyNone? {
        NewKey(options, i);
        StoreNew(user, key, val);
        user := Store(user, key, val);
      }
      i := i + 1;
    }
    assert SshKeyMap[..|SshKeyMap|] == SshKeyMap;
    if |user| > 0 {
      assert Keys(entries) == {Component} by {
        assert entries[0].0 == Component;
      }
      StoreNew(entries, "user", Dict(user));
      entries := Store(entries, "user", Dict(user));
    }
    config := Dict(entries);
  }

  /** `create_takeover_base_config`: always succeeds, with the results
      `('takeover_config', config)`. */
  method CreateTakeoverBaseConfig(ctx: PluginContext, options: map<string, Value>)
    requires HasOptions(options)
    modifies ctx.ret, ctx.namespace`recorded
    ensures ctx.ret.value == Bool(true) && ctx.ret.kwargs == map[]
    ensures ctx.ret.args == [Str("takeover_config"), TakeoverConfig(options)]
    ensures ctx.namespace.recorded == old(ctx.namespace.recorded)[ctx.pluginName := ctx.ret]
  {
    var config := BuildTakeoverConfig(options);
    ctx.ReturnTrue([Str("takeover_config"), config], map[]);
  }

  // ---------------------------------------------------------------- properties

  /** Every key of the user section is a configuration name of `keys`
      whose option is not `None`. */
  lemma {:induction false} UserKeys(options: map<string, Value>, keys: seq<(string, string)>, key: string)
    requires forall i :: 0 <= i < |keys| ==> keys[i].1 in options
    ensures key in Keys(UserEntries(options, keys)) <==>
              exists i :: 0 <= i < |keys| && keys[i].0 == key && !options[keys[i].1].PyNone?
  {
    if |keys| > 0 {
      var init := keys[..|keys| - 1];
      var (k, opt) := keys[|keys| - 1];
      var tail: seq<(string, Value)> := if options[opt].PyNone? then [] else [(k, options[opt])];
      UserKeys(options, init, key);
      KeysAppend(UserEntries(options, init), tail);
      if key in Keys(UserEntries(options, keys)) {
        if key in Keys(UserEntries(options, init)) {
          var i :| 0 <= i < |init| && init[i].0 == key && !options[init[i].1].PyNone?;
          assert keys[i] == init[i];
        } else {
          assert tail[0].0 == key;
        }
      } else {
        assert |tail| > 0 ==> tail[0].0 in Keys(tail);
        forall i | 0 <= i < |keys| && keys[i].0 == key ensures options[keys[i].1].PyNone? {
          if i < |init| {
            assert init[i] == keys[i];
          }
        }
      }
    }
  }

  lemma KeysAppend(a: seq<(string, Value)>, b: seq<(string, Value)>)
    ensures Keys(a + b) == Keys(a) + Keys(b)
  {
    var ab := a + b;
    forall k | k in Keys(ab) ensures k in Keys(a) + Keys(b) {
      var j :| 0 <= j < |ab| && ab[j].0 == k;
      if j >= |a| { assert b[j - |a|] == ab[j]; }
    }
    forall k | k in Keys(a) + Keys(b) ensures k in Keys(ab) {
      if k in Keys(a) {
        var j :| 0 <= j < |a| && a[j].0 == k;
        assert ab[j] == a[j];
      } else {
        var j :| 0 <= j < |b| && b[j].0 == k;
        assert ab[|a| + j] == b[j];
      }
    }
  }

  /** The key mapped at step `i` is not yet in the user section. */
  lemma NewKey(options: map<string, Value>, i: nat)
    requires HasOptions(options) && i < |SshKeyMap|
    ensures SshKeyMap[i].0 !in Keys(UserEntries(options, SshKeyMap[..i]))
  {
    var init := SshKeyMap[..i];
    UserKeys(options, init, SshKeyMap[i].0);
    forall j | 0 <= j < i ensures init[j].0 != SshKeyMap[i].0 {
      assert init[j] == SshKeyMap[j];
    }
  }

  /** Each configuration name holds its option's value exactly when that
      option is not `None`: options are renamed and `None` is dropped. */
  lemma {:induction false} UserLookup(options: map<string, Value>, keys: seq<(string, string)>, i: nat)
    requires forall j :: 0 <= j < |keys| ==> keys[j].1 in options
    requires DistinctKeys(keys) && i < |keys|
    ensures var v := options[keys[i].1];
            Lookup(UserEntries(options, keys), keys[i].0) == if v.PyNone? then None else Some(v)
  {
    var init := keys[..|keys| - 1];
    var (k, opt) := keys[|keys| - 1];
    var tail: seq<(string, Value)> := if options[opt].PyNone? then [] else [(k, options[opt])];
    LookupAppend(UserEntries(options, init), tail, keys[i].0);
    if i < |init| {
      assert init[i] == keys[i];
      assert DistinctKeys(init) by {
        forall a, b | 0 <= a < b < |init| ensures init[a].0 != init[b].0 {
          assert init[a] == keys[a] && init[b] == keys[b];
        }
      }
      UserLookup(options, init, i);
      if |tail| > 0 {
        assert tail[1..] == [];
        assert Lookup(tail, keys[i].0) == None;
      }
    } else {
      UserKeys(options, init, k);
      forall j | 0 <= j < |init| ensures init[j].0 != k {
        assert init[j] == keys[j];
      }
    }
  }

  /** The four SSH options land under their configuration names. */
  lemma SshOptionsRenamed(options: map<string, Value>, i: nat)
    requires HasOptions(options) && i < |SshKeyMap|
    ensures var v := options[SshKeyMap[i].1];
            Lookup(UserEntries(options, SshKeyMap), SshKeyMap[i].0) == if v.PyNone? then None else Some(v)
  {
    UserLookup(options, SshKeyMap, i);
  }

  /** No option name other than a configuration name appears in the user section. */
  lemma UserKeysAreConfigNames(options: map<string, Value>)
    requires HasOptions(options)
    ensures Keys(UserEntries(options, SshKeyMap)) <= {"username", "ssh_password", "key_file", "port"}
  {
    forall key | key in Keys(UserEntries(options, SshKeyMap))
      ensures key in {"username", "ssh_password", "key_file", "port"}
    {
      UserKeys(options, SshKeyMap, key);
    }
  }

  /** The component comes first with the host as its only server and the
      port and password as its global settings; `user` follows it exactly
      when some SSH option is not `None`, and holds the user section. */
  lemma TakeoverShape(options: map<string, Value>)
    requires HasOptions(options)
    ensures var c := TakeoverConfig(options);
            c.Dict? && c.entries[0].0 == Component && c.entries[0].1.Dict? &&
            Lookup(c.entries[0].1.entries, "servers") == Some(List([options["host"]])) &&
            Lookup(c.entries[0].1.entries, "global") ==
              Some(Dict([("mysql_port", options["mysql_port"]), ("root_password", options["root_password"])])) &&
            ("user" in Keys(c.entries) <==>
               exists i :: 0 <= i < |SshKeyMap| && !options[SshKeyMap[i].1].PyNone?) &&
            ("user" in Keys(c.entries) ==>
               |c.entries| == 2 && c.entries[1] == ("user", Dict(UserEntries(options, SshKeyMap))))
  {
    var c := TakeoverConfig(options);
    var user := UserEntries(options, SshKeyMap);
    var head: seq<(string, Value)> := [(Component, ComponentConfig(options))];
    var tail: seq<(string, Value)> := if |user| > 0 then [("user", Dict(user))] else [];
    assert Keys(c.entries) == {Component} + if |user| > 0 then {"user"} else {} by {
      KeysAppend(head, tail);
      assert head[0].0 in Keys(head);
      if |user| > 0 { assert tail[0].0 in Keys(tail); }
    }
    if exists i :: 0 <= i < |SshKeyMap| && !options[SshKeyMap[i].1].PyNone? {
      var i :| 0 <= i < |SshKeyMap| && !options[SshKeyMap[i].1].PyNone?;
      UserKeys(options, SshKeyMap, SshKeyMap[i].0);
    } else if |user| > 0 {
      UserKeys(options, SshKeyMap, user[0].0);
      assert user[0].0 in Keys(user);
    }
  }
}
