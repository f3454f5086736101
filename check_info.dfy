/**
 * The helpers of the deployment wizard's check page that prepare the
 * deployment configuration for the server: `obVersionCheck` decides whether
 * an OceanBase version is 4.3 or later, and `formatConfigData` keeps only the
 * parameters the user changed, rewrites the configuration server's
 * `log_maxsize` as a number of megabytes, and adds a default `scenario`
 * parameter for OceanBase 4.3 and later. The helpers `isExist` and
 * `changeParameterUnit` are parameters.
 */
module CheckInfo {
  import opened Text
  import opened Wrappers

  // ---------------------------------------------------------------- JavaScript values

  /** A JavaScript number, as far as the model produces one. */
  datatype JsNumber = Finite(n: int) | NaN

  /** The JavaScript values a parameter holds. */
  datatype JsValue = Undefined | Null | JsBool(b: bool) | JsNum(num: JsNumber) | JsStr(str: string)

  /** The ASCII characters `String.prototype.trim` removes. */
  predicate IsJsSpace(c: char) {
    c == ' ' || (9 <= c as int <= 13)
  }

  /** `trim()`'s left half: the leading blanks are dropped, and only they. */
  function TrimLeft(s: string): (r: string)
    ensures |r| <= |s| && r == s[|s| - |r|..]
    ensures forall i :: 0 <= i < |s| - |r| ==> IsJsSpace(s[i])
    ensures |r| > 0 ==> !IsJsSpace(r[0])
  {
    if |s| > 0 && IsJsSpace(s[0]) then TrimLeft(s[1..]) else s
  }

  /** `trim()`'s right half: the trailing blanks are dropped, and only they. */
  function TrimRight(s: string): (r: string)
    ensures |r| <= |s| && r == s[..|r|]
    ensures forall i :: |r| <= i < |s| ==> IsJsSpace(s[i])
    ensures |r| > 0 ==> !IsJsSpace(r[|r| - 1])
  {
    if |s| > 0 && IsJsSpace(s[|s| - 1]) then TrimRight(s[..|s| - 1]) else s
  }

  /** `Number(s)` for a string: blank is zero, an optionally signed run of
      decimal digits is its value, anything else is not a number. */
  function ToNumber(s: string): JsNumber {
    var t := TrimRight(TrimLeft(s));
    if |t| == 0 then Finite(0)
    else if IsDecimal(t) then Finite(DigitsValue(t))
    else if t[0] == '-' && IsDecimal(t[1..]) then Finite(-(DigitsValue(t[1..]) as int))
    else if t[0] == '+' && IsDecimal(t[1..]) then Finite(DigitsValue(t[1..]))
    else NaN
  }

  // ---------------------------------------------------------------- obVersionCheck

  /** `obVersionCheck`: the major number is 4 and the minor at least 3, or
      the major is above 4. A comparison with a non-number is false, and a
      missing minor number is `Number(undefined)`, not a number. */
  function ObVersionCheck(version: string): bool {
    var parts := Split(version, ".");
    var major := ToNumber(parts[0]);
    var minor := if |parts| > 1 then ToNumber(parts[1]) else NaN;
    (major == Finite(4) && minor.Finite? && minor.n >= 3) || (major.Finite? && major.n > 4)
  }

  // ---------------------------------------------------------------- parameters

  datatype Param = Param(
    key: string,
    value: JsValue,
    adaptive: bool,
    isChanged: Option<bool>,
    paramType: string,
    auto: bool,
    require: bool)

  datatype Component = Component(parameters: seq<Param>, version: string)

  type Components = map<string, Component>

  /** The condition under which the loop splices a parameter out. */
  predicate Removed(p: Param, isExist: JsValue -> bool) {
    (!p.adaptive && !isExist(p.value)) || p.adaptive || p.isChanged != Some(true)
  }

  const MemorySizeKey: string := "ocp_meta_tenant_memory_size"

  /** A parameter after its visit: the memory size is given the unit
      `changeParameterUnit` chooses, and `isChanged` is deleted. */
  function Visit(p: Param, unit: Param -> JsValue): Param {
    p.(value := if p.key == MemorySizeKey then unit(p) else p.value, isChanged := None)
  }

  /** The parameters the loop leaves, each visited, in their order. */
  function Filtered(ps: seq<Param>, isExist: JsValue -> bool, unit: Param -> JsValue): seq<Param> {
    if |ps| == 0 then []
    else
      var last := ps[|ps| - 1];
      Filtered(ps[..|ps| - 1], isExist, unit) + if Removed(last, isExist) then [] else [Visit(last, unit)]
  }

  /** The index loop of `formatConfigData`: a parameter that is removed is
      spliced out and the index stepped back, so the next one moves into its
      place. */
  method FilterParameters(ps: seq<Param>, isExist: JsValue -> bool, unit: Param -> JsValue) returns (out: seq<Param>)
    ensures out == Filtered(ps, isExist, unit)
  {
    out := ps;
    var i: int := 0;
    ghost var k := 0;
    while i < |out|
      invariant 0 <= i && 0 <= k <= |ps|
      invariant i == |Filtered(ps[..k], isExist, unit)|
      invariant out == Filtered(ps[..k], isExist, unit) + ps[k..]
      decreases |ps| - k
    {
      ghost var done := Filtered(ps[..k], isExist, unit);
      FilteredStep(ps, k, isExist, unit);
      var p := out[i];
      assert p == ps[k];
      if (!p.adaptive && !isExist(p.value)) || p.adaptive || p.isChanged != Some(true) {
        SpliceAt(done, ps[k..]);
        out := out[..i] + out[i + 1..];
        i := i - 1;
      } else {
        ReplaceAt(done, ps[k..], Visit(p, unit));
        out := out[i := Visit(p, unit)];
      }
      k := k + 1;
      i := i + 1;
    }
    assert ps[..k] == ps;
  }

  lemma FilteredStep(ps: seq<Param>, k: nat, isExist: JsValue -> bool, unit: Param -> JsValue)
    requires k < |ps|
    ensures Filtered(ps[..k + 1], isExist, unit) ==
              Filtered(ps[..k], isExist, unit) + if Removed(ps[k], isExist) then [] else [Visit(ps[k], unit)]
  {
    assert ps[..k + 1][..k] == ps[..k];
  }

  /** Splicing out the element after `done`. */
  lemma SpliceAt(done: seq<Param>, rest: seq<Param>)
    requires |rest| > 0
    ensures (done + rest)[..|done|] + (done + rest)[|done| + 1..] == done + rest[1..]
  {
    assert (done + rest)[..|done|] == done;
    assert (done + rest)[|done| + 1..] == rest[1..];
  }

  /** Replacing the element after `done`. */
  lemma ReplaceAt(done: seq<Param>, rest: seq<Param>, v: Param)
    requires |rest| > 0
    ensures (done + rest)[|done| := v] == (done + [v]) + rest[1..]
  {
  }

  // ---------------------------------------------------------------- log_maxsize

  /** `value.split('MB')[0]`: the text before the first `MB`. */
  function BeforeMB(s: string): string {
    Split(s, "MB")[0]
  }

  /** The configuration server's `log_maxsize` becomes an `Integer` holding
      the number in front of `MB`; `split` on a value that is not a string
      throws. Other parameters are left alone. */
  function RewriteLogMaxsize(p: Param): Option<Param> {
    if p.key != "log_maxsize" then Some(p)
    else if !p.value.JsStr? then None
    else Some(p.(paramType := "Integer", value := JsNum(ToNumber(BeforeMB(p.value.str)))))
  }

  /** The rewrite of every parameter, failing when one fails. */
  function RewriteAll(ps: seq<Param>): Option<seq<Param>> {
    if |ps| == 0 then Some([])
    else
      match RewriteAll(ps[..|ps| - 1])
      case None => None
      case Some(init) =>
        match RewriteLogMaxsize(ps[|ps| - 1])
        case None => None
        case Some(p) => Some(init + [p])
  }

  /** The `forEach` over the configuration server's parameters. */
  method RewriteParameters(ps: seq<Param>) returns (out: Option<seq<Param>>)
    ensures out == RewriteAll(ps)
  {
    var done: seq<Param> := [];
    var i := 0;
    while i < |ps|
      invariant 0 <= i <= |ps|
      invariant RewriteAll(ps[..i]) == Some(done)
    {
      assert ps[..i + 1][..i] == ps[..i];
      var p := ps[i];
      if p.key == "log_maxsize" {
        if !p.value.JsStr? {
          assert ps[..i + 1] == ps[..i] + [p];
          RewriteAllFails(ps, i + 1);
          return None;
        }
        p := p.(paramType := "Integer", value := JsNum(ToNumber(BeforeMB(p.value.str))));
      }
      done := done + [p];
      i := i + 1;
    }
    assert ps[..i] == ps;
    out := Some(done);
  }

  /** Once a prefix fails, the whole rewrite fails. */
  lemma {:induction false} RewriteAllFails(ps: seq<Param>, n: nat)
    requires n <= |ps| && RewriteAll(ps[..n]).None?
    ensures RewriteAll(ps).None?
    decreases |ps| - n
  {
    if n < |ps| {
      assert ps[..n + 1][..n] == ps[..n];
      RewriteAllFails(ps, n + 1);
    } else {
      assert ps[..n] == ps;
    }
  }

  // ---------------------------------------------------------------- scenario

  /** The hard-coded `scenario` parameter. */
  const Scenario: Param := Param("scenario", JsStr("htap"), false, None, "String", false, true)

  predicate HasKey(ps: seq<Param>, key: string) {
    exists k :: 0 <= k < |ps| && ps[k].key == key
  }

  /** `scenario` is prepended for 4.3 and later when no parameter has that key. */
  function WithScenario(c: Component): Component {
    if ObVersionCheck(c.version) && (|c.parameters| == 0 || !HasKey(c.parameters, "scenario"))
    then c.(parameters := [Scenario] + c.parameters)
    else c
  }

  // ---------------------------------------------------------------- formatConfigData

  /** One component after the parameter loop, and for the configuration
      server the `log_maxsize` rewrite. */
  function Processed(key: string, c: Component, configServerKey: string,
                     isExist: JsValue -> bool, unit: Param -> JsValue): Option<Component> {
    var ps := Filtered(c.parameters, isExist, unit);
    if key != configServerKey then Some(c.(parameters := ps))
    else match RewriteAll(ps)
      case None => None
      case Some(qs) => Some(c.(parameters := qs))
  }

  /** The whole configuration as `formatConfigData` returns it, or `None`
      when it throws: a `log_maxsize` that is not a string, or no `oceanbase`
      component. */
  function FormatConfig(components: Components, configServerKey: string,
                        isExist: JsValue -> bool, unit: Param -> JsValue): Option<Components> {
    if AllProcessed(components, components.Keys, configServerKey, isExist, unit) && "oceanbase" in components then
      var m := ProcessedPart(components, components.Keys, configServerKey, isExist, unit);
      Some(m["oceanbase" := WithScenario(m["oceanbase"])])
    else None
  }

  /** Every component of `done` is processed without throwing. */
  predicate AllProcessed(components: Components, done: set<string>, configServerKey: string,
                         isExist: JsValue -> bool, unit: Param -> JsValue) {
    forall key :: key in components && key in done ==> Processed(key, components[key], configServerKey, isExist, unit).Some?
  }

  /** The processed components of `done`. */
  function ProcessedPart(components: Components, done: set<string>, configServerKey: string,
                         isExist: JsValue -> bool, unit: Param -> JsValue): Components {
    map key | key in components && key in done && Processed(key, components[key], configServerKey, isExist, unit).Some? ::
      Processed(key, components[key], configServerKey, isExist, unit).value
  }

  lemma ProcessedPartAdd(components: Components, done: set<string>, configServerKey: string,
                         isExist: JsValue -> bool, unit: Param -> JsValue, key: string)
    requires key in components && Processed(key, components[key], configServerKey, isExist, unit).Some?
    ensures ProcessedPart(components, done, configServerKey, isExist, unit)[key := Processed(key, components[key], configServerKey, isExist, unit).value]
              == ProcessedPart(components, done + {key}, configServerKey, isExist, unit)
  {
  }

  /** The loop body for one component. */
  method ProcessComponent(key: string, c: Component, configServerKey: string,
                          isExist: JsValue -> bool, unit: Param -> JsValue) returns (r: Option<Component>)
    ensures r == Processed(key, c, configServerKey, isExist, unit)
  {
    var ps := FilterParameters(c.parameters, isExist, unit);
    if key == configServerKey {
      var rewritten := RewriteParameters(ps);
      if rewritten.None? {
        return None;
      }
      ps := rewritten.value;
    }
    r := Some(c.(parameters := ps));
  }

  /** `formatConfigData`: every component is processed (in any order, as
      each is processed on its own), then `scenario` is added. The input is
      a value, so the deep clone is implicit and the caller's configuration
      is not changed. */
  method FormatConfigData(components: Components, configServerKey: string,
                          isExist: JsValue -> bool, unit: Param -> JsValue)
    returns (r: Option<Components>)
    ensures r == FormatConfig(components, configServerKey, isExist, unit)
  {
    var out: Components := map[];
    var left := components.Keys;
    ghost var done: set<string> := {};
    while left != {}
      invariant left <= components.Keys && done == components.Keys - left
      invariant AllProcessed(components, done, configServerKey, isExist, unit)
      invariant out == ProcessedPart(components, done, configServerKey, isExist, unit)
      decreases |left|
    {
      var key :| key in left;
      var processed := ProcessComponent(key, components[key], configServerKey, isExist, unit);
      if processed.None? {
        return None;
      }
      ProcessedPartAdd(components, done, configServerKey, isExist, unit, key);
      out := out[key := processed.value];
      left := left - {key};
      done := done + {key};
    }
    assert done == components.Keys;
    FormatConfigFromParts(components, configServerKey, isExist, unit);
    if "oceanbase" !in out {
      return None;
    }
    var ob := out["oceanbase"];
    if ObVersionCheck(ob.version) && (|ob.parameters| == 0 || !HasKey(ob.parameters, "scenario")) {
      out := out["oceanbase" := ob.(parameters := [Scenario] + ob.parameters)];
    } else {
      assert out == out["oceanbase" := WithScenario(ob)];
    }
    r := Some(out);
  }

  /** The configuration once every component is processed. */
  lemma FormatConfigFromParts(components: Components, configServerKey: string,
                              isExist: JsValue -> bool, unit: Param -> JsValue)
    requires AllProcessed(components, components.Keys, configServerKey, isExist, unit)
    ensures var m := ProcessedPart(components, components.Keys, configServerKey, isExist, unit);
            m.Keys == components.Keys &&
            FormatConfig(components, configServerKey, isExist, unit) ==
              if "oceanbase" in m then Some(m["oceanbase" := WithScenario(m["oceanbase"])]) else None
  {
  }

  // ---------------------------------------------------------------- properties

  /** `Number` reads back the decimal text of a natural number. */
  lemma NumberOfNat(n: nat)
    ensures ToNumber(NatToString(n)) == Finite(n)
  {
    var s := NatToString(n);
    assert TrimLeft(s) == s by { assert !IsJsSpace(s[0]); }
    assert TrimRight(s) == s by { assert !IsJsSpace(s[|s| - 1]); }
    DigitsOfNatToString(n);
  }

  /** A version `major.minor...` passes exactly for 4.3 and later. */
  lemma VersionCheckMajorMinor(major: nat, minor: nat, rest: string)
    requires |rest| == 0 || rest[0] == '.'
    ensures ObVersionCheck(NatToString(major) + "." + NatToString(minor) + rest) <==>
              major > 4 || (major == 4 && minor >= 3)
  {
    var parts := Split(NatToString(major) + "." + NatToString(minor) + rest, ".");
    VersionParts(NatToString(major), NatToString(minor), rest);
    NumberOfNat(major);
    NumberOfNat(minor);
  }

  /** The first two parts of `x.y<rest>` are `x` and `y`. */
  lemma VersionParts(x: string, y: string, rest: string)
    requires AllDigits(x) && AllDigits(y) && (|rest| == 0 || rest[0] == '.')
    ensures var parts := Split(x + "." + y + rest, ".");
            |parts| > 1 && parts[0] == x && parts[1] == y
  {
    NoDot(x);
    NoDot(y);
    assert x + "." + y + rest == x + ['.'] + (y + rest);
    SplitAtFirstSeparator(x, y + rest, '.');
    if |rest| == 0 {
      assert y + rest == y;
      SplitWithoutSeparator(y, '.');
    } else {
      assert y + rest == y + ['.'] + rest[1..];
      SplitAtFirstSeparator(y, rest[1..], '.');
    }
  }

  /** A version without a minor number passes only above 4: `4` alone fails. */
  lemma VersionCheckMajorOnly(major: nat)
    ensures ObVersionCheck(NatToString(major)) <==> major > 4
  {
    NoDot(NatToString(major));
    SplitWithoutSeparator(NatToString(major), '.');
    NumberOfNat(major);
  }

  lemma NoDot(s: string)
    requires AllDigits(s)
    ensures forall k :: 0 <= k < |s| ==> s[k] != '.'
  {
  }

  /** The loop on a concatenation is the loop on each part: survivors keep
      their relative order. */
  lemma {:induction false} FilteredAppend(a: seq<Param>, b: seq<Param>, isExist: JsValue -> bool, unit: Param -> JsValue)
    ensures Filtered(a + b, isExist, unit) == Filtered(a, isExist, unit) + Filtered(b, isExist, unit)
  {
    if |b| == 0 {
      assert a + b == a;
    } else {
      var init := b[..|b| - 1];
      assert (a + b)[..|a + b| - 1] == a + init;
      FilteredAppend(a, init, isExist, unit);
    }
  }

  /** A parameter survives exactly when it is not adaptive, its value
      exists and it was changed; the survivor is its visited form. */
  lemma {:induction false} FilteredMembers(ps: seq<Param>, isExist: JsValue -> bool, unit: Param -> JsValue, x: Param)
    ensures x in Filtered(ps, isExist, unit) <==>
              exists k :: 0 <= k < |ps| && !ps[k].adaptive && isExist(ps[k].value) && ps[k].isChanged == Some(true) &&
                          x == Visit(ps[k], unit)
  {
    if |ps| > 0 {
      var init := ps[..|ps| - 1];
      var last := ps[|ps| - 1];
      FilteredMembers(init, isExist, unit, x);
      if exists k :: 0 <= k < |init| && !init[k].adaptive && isExist(init[k].value) && init[k].isChanged == Some(true) &&
                     x == Visit(init[k], unit) {
        var k :| 0 <= k < |init| && !init[k].adaptive && isExist(init[k].value) && init[k].isChanged == Some(true) &&
                 x == Visit(init[k], unit);
        assert ps[k] == init[k];
      }
      if exists k :: 0 <= k < |ps| && !ps[k].adaptive && isExist(ps[k].value) && ps[k].isChanged == Some(true) &&
                     x == Visit(ps[k], unit) {
        var k :| 0 <= k < |ps| && !ps[k].adaptive && isExist(ps[k].value) && ps[k].isChanged == Some(true) &&
                 x == Visit(ps[k], unit);
        if k < |init| { assert init[k] == ps[k]; }
      }
    }
  }

  /** No survivor keeps `isChanged`, and none is adaptive. */
  lemma {:induction false} FilteredClean(ps: seq<Param>, isExist: JsValue -> bool, unit: Param -> JsValue)
    ensures forall i :: 0 <= i < |Filtered(ps, isExist, unit)| ==>
              Filtered(ps, isExist, unit)[i].isChanged.None? && !Filtered(ps, isExist, unit)[i].adaptive
  {
    if |ps| > 0 {
      FilteredClean(ps[..|ps| - 1], isExist, unit);
    }
  }

  /** Since `isChanged` is deleted, a second pass removes every parameter. */
  lemma FilterTwiceEmpty(ps: seq<Param>, isExist: JsValue -> bool, unit: Param -> JsValue)
    ensures Filtered(Filtered(ps, isExist, unit), isExist, unit) == []
  {
    var f := Filtered(ps, isExist, unit);
    FilteredClean(ps, isExist, unit);
    AllRemoved(f, isExist, unit);
  }

  lemma {:induction false} AllRemoved(ps: seq<Param>, isExist: JsValue -> bool, unit: Param -> JsValue)
    requires forall i :: 0 <= i < |ps| ==> ps[i].isChanged.None?
    ensures Filtered(ps, isExist, unit) == []
  {
    if |ps| > 0 {
      AllRemoved(ps[..|ps| - 1], isExist, unit);
    }
  }

  /** `log_maxsize` written as `<n>MB` becomes the integer `n`. */
  lemma LogMaxsizeMegabytes(p: Param, n: nat)
    requires p.key == "log_maxsize" && p.value == JsStr(NatToString(n) + "MB")
    ensures RewriteLogMaxsize(p) == Some(p.(paramType := "Integer", value := JsNum(Finite(n))))
  {
    var x := NatToString(n);
    SplitBeforeMB(x, "");
    assert x + "MB" + "" == x + "MB";
    NumberOfNat(n);
  }

  /** Splitting `<digits>MB<rest>` on `MB` yields the digits first. */
  lemma {:induction false} SplitBeforeMB(x: string, rest: string)
    requires AllDigits(x)
    ensures Split(x + "MB" + rest, "MB")[0] == x
    decreases |x|
  {
    var s := x + "MB" + rest;
    if |x| == 0 {
      assert s[..2] == "MB";
      assert StartsWith(s, "MB");
    } else {
      assert !StartsWith(s, "MB") by { assert s[0] == x[0]; }
      assert s[1..] == x[1..] + "MB" + rest;
      SplitBeforeMB(x[1..], rest);
      assert [s[0]] + x[1..] == x;
    }
  }

  /** The rewrite fails exactly when some `log_maxsize` is not a string. */
  lemma {:induction false} RewriteAllFailsIff(ps: seq<Param>)
    ensures RewriteAll(ps).None? <==> exists k :: 0 <= k < |ps| && BadLogMaxsize(ps[k])
  {
    if |ps| > 0 {
      var init := ps[..|ps| - 1];
      RewriteAllFailsIff(init);
      if exists k :: 0 <= k < |init| && BadLogMaxsize(init[k]) {
        var k :| 0 <= k < |init| && BadLogMaxsize(init[k]);
        assert ps[k] == init[k];
      }
      if exists k :: 0 <= k < |ps| && BadLogMaxsize(ps[k]) {
        var k :| 0 <= k < |ps| && BadLogMaxsize(ps[k]);
        if k < |init| { assert init[k] == ps[k]; }
      }
    }
  }

  /** A `log_maxsize` on which `split` throws. */
  predicate BadLogMaxsize(p: Param) {
    p.key == "log_maxsize" && !p.value.JsStr?
  }

  /** Every rewritten parameter is the original, or for `log_maxsize` the
      original as an `Integer` holding a number. */
  lemma {:induction false} RewriteAllKeeps(ps: seq<Param>)
    requires RewriteAll(ps).Some?
    ensures var qs := RewriteAll(ps).value;
            |qs| == |ps| && forall k :: 0 <= k < |ps| ==> RewrittenFrom(ps[k], qs[k])
  {
    if |ps| > 0 {
      var init := ps[..|ps| - 1];
      var q := RewriteLogMaxsize(ps[|ps| - 1]);
      assert RewriteAll(init).Some? && q.Some?;
      RewriteAllKeeps(init);
      var qs := RewriteAll(ps).value;
      assert qs == RewriteAll(init).value + [q.value];
      forall k | 0 <= k < |ps| ensures RewrittenFrom(ps[k], qs[k]) {
        if k < |init| { assert ps[k] == init[k]; }
      }
    }
  }

  /** `q` is `p` after the rewrite. */
  predicate RewrittenFrom(p: Param, q: Param) {
    if p.key == "log_maxsize" then q.paramType == "Integer" && q.value.JsNum? && q.key == p.key
    else q == p
  }

  /** After the rewrite a version check that passes guarantees a `scenario`
      parameter; `htap` is added exactly when none was there, in front. */
  lemma ScenarioAdded(c: Component)
    ensures var d := WithScenario(c);
            (ObVersionCheck(c.version) && !HasKey(c.parameters, "scenario") ==> d.parameters == [Scenario] + c.parameters) &&
            (!(ObVersionCheck(c.version) && !HasKey(c.parameters, "scenario")) ==> d == c) &&
            d.version == c.version &&
            (ObVersionCheck(c.version) ==> HasKey(d.parameters, "scenario"))
  {
    var d := WithScenario(c);
    if ObVersionCheck(c.version) && !HasKey(c.parameters, "scenario") {
      assert d.parameters[0].key == "scenario";
    }
  }

  /** Adding the scenario a second time changes nothing. */
  lemma ScenarioIdempotent(c: Component)
    ensures WithScenario(WithScenario(c)) == WithScenario(c)
  {
    ScenarioAdded(c);
    ScenarioAdded(WithScenario(c));
  }

  /** What `formatConfigData` returns: the same components, each with its
      surviving parameters, the configuration server's rewritten, and the
      `oceanbase` component with the scenario added. */
  lemma FormatConfigShape(components: Components, configServerKey: string,
                          isExist: JsValue -> bool, unit: Param -> JsValue, key: string)
    requires configServerKey != "oceanbase"
    requires FormatConfig(components, configServerKey, isExist, unit).Some? && key in components
    ensures var r := FormatConfig(components, configServerKey, isExist, unit).value;
            var f := Filtered(components[key].parameters, isExist, unit);
            r.Keys == components.Keys && r[key].version == components[key].version &&
            (key != configServerKey && key != "oceanbase" ==> r[key].parameters == f) &&
            (key == configServerKey ==> RewriteAll(f).Some? && r[key].parameters == RewriteAll(f).value) &&
            (key == "oceanbase" ==> r[key] == WithScenario(components[key].(parameters := f)))
  {
  }

  /** `formatConfigData` throws exactly when the `oceanbase` component is
      missing or a parameter that survives as the configuration server's
      `log_maxsize` is not a string. */
  lemma FormatConfigFails(components: Components, configServerKey: string,
                          isExist: JsValue -> bool, unit: Param -> JsValue)
    ensures FormatConfig(components, configServerKey, isExist, unit).None? <==>
              "oceanbase" !in components ||
              (configServerKey in components &&
               exists k :: 0 <= k < |Filtered(components[configServerKey].parameters, isExist, unit)| &&
                           BadLogMaxsize(Filtered(components[configServerKey].parameters, isExist, unit)[k]))
  {
    forall key | key in components && key != configServerKey
      ensures Processed(key, components[key], configServerKey, isExist, unit).Some?
    {
    }
    if configServerKey in components {
      var f := Filtered(components[configServerKey].parameters, isExist, unit);
      RewriteAllFailsIff(f);
      assert AllProcessed(components, components.Keys, configServerKey, isExist, unit) <==> RewriteAll(f).Some?;
      if exists k :: 0 <= k < |f| && BadLogMaxsize(f[k]) {
        var k :| 0 <= k < |f| && BadLogMaxsize(f[k]);
        assert f == Filtered(components[configServerKey].parameters, isExist, unit);
        assert BadLogMaxsize(Filtered(components[configServerKey].parameters, isExist, unit)[k]);
      }
    } else {
      assert AllProcessed(components, components.Keys, configServerKey, isExist, unit);
    }
  }
}
