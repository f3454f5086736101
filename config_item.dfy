/**
 * A parameter of a parameter plugin (`ConfigItem`): its type, its bounds,
 * parsed once when the item is built, the check of a new value against the
 * bounds and the policy that restricts changing the value after startup.
 */
module ConfigItems {
  import opened Text
  import opened Values
  import opened Wrappers
  import opened ParamTypes

  /** The modify-limit policies, named in a parameter definition by
      `modify`, `increase` or `decrease` in any case. */
  datatype Limit = NoLimit | ForbidModify | ForbidIncrease | ForbidDecrease

  /** The policy whose method `_<name>_limit` (lower-cased) the item looks up,
      or no limit when the item has no such method. */
  function LimitNamed(modifyLimit: Value): Limit {
    var handler := Lower("_" + PyStr(modifyLimit) + "_limit");
    if handler == "_modify_limit" then ForbidModify
    else if handler == "_increase_limit" then ForbidIncrease
    else if handler == "_decrease_limit" then ForbidDecrease
    else NoLimit
  }

  datatype ConfigItem = ConfigItem(
    name: string,
    kind: ParamKind,
    default: Value,
    minValue: Option<ParamValue>,
    maxValue: Option<ParamValue>,
    require: bool,
    essential: bool,
    section: string,
    needReload: bool,
    needRestart: bool,
    needRedeploy: bool,
    limit: Limit,
    nameLocal: Value,
    descriptionEn: Value,
    descriptionLocal: Value)
  {
    predicate HadModifyLimit() {
      limit != NoLimit
    }
  }

  /** A bound as the item keeps it: absent when the raw bound is `None`. */
  function Bound(kind: ParamKind, raw: Value): (r: Result<Option<ParamValue>, string>)
    ensures raw.PyNone? ==> r == Ok(None)
    ensures !raw.PyNone? ==> (r.Ok? <==> Parse(kind, raw).Ok?)
    ensures !raw.PyNone? && r.Ok? ==> r.value == Some(Parse(kind, raw).value)
    ensures r.Err? ==> r.error == Parse(kind, raw).error
  {
    if raw.PyNone? then Ok(None)
    else
      var p :- Parse(kind, raw);
      Ok(Some(p))
  }

  /** Building an item: the minimum is parsed before the maximum, and a bound
      that does not parse fails the item with the parser's own message. */
  function NewConfigItem(
    name: string, kind: ParamKind, default: Value, minRaw: Value, maxRaw: Value,
    require: bool, essential: bool, section: string,
    needReload: bool, needRestart: bool, needRedeploy: bool,
    modifyLimit: Value, nameLocal: Value, descriptionEn: Value, descriptionLocal: Value
  ): (r: Result<ConfigItem, string>)
    ensures r.Ok? <==> Bound(kind, minRaw).Ok? && Bound(kind, maxRaw).Ok?
    ensures Bound(kind, minRaw).Err? ==> r == Err(Bound(kind, minRaw).error)
    ensures Bound(kind, minRaw).Ok? && Bound(kind, maxRaw).Err? ==> r == Err(Bound(kind, maxRaw).error)
    ensures r.Ok? ==>
              && r.value.name == name && r.value.kind == kind && r.value.default == default
              && r.value.minValue == Bound(kind, minRaw).value
              && r.value.maxValue == Bound(kind, maxRaw).value
              && r.value.limit == LimitNamed(modifyLimit)
              && r.value.nameLocal == (if nameLocal.PyNone? then Str(name) else nameLocal)
              && r.value.descriptionLocal == (if descriptionLocal.PyNone? then descriptionEn else descriptionLocal)
  {
    var minValue :- Bound(kind, minRaw);
    var maxValue :- Bound(kind, maxRaw);
    Ok(ConfigItem(
      name, kind, default, minValue, maxValue, require, essential, section,
      needReload, needRestart, needRedeploy, LimitNamed(modifyLimit),
      if nameLocal.PyNone? then Str(name) else nameLocal,
      descriptionEn,
      if descriptionLocal.PyNone? then descriptionEn else descriptionLocal))
  }

  /** `item.param_type(v)`: parsing with the item's name in front of the error. */
  function TypedAs(item: ConfigItem, v: Value): (r: Result<ParamValue, string>)
    ensures r.Ok? <==> Parse(item.kind, v).Ok?
    ensures r.Ok? ==> r.value == Parse(item.kind, v).value && r.value.kind == item.kind
    ensures r.Err? ==> r.error == item.name + ": " + Parse(item.kind, v).error
  {
    match Parse(item.kind, v)
    case Ok(p) => Ok(p)
    case Err(e) => Err(item.name + ": " + e)
  }

  /** `check_value` on a raw value: parse it, then test the minimum, then the maximum. */
  function CheckValue(item: ConfigItem, v: Value): (r: Result<bool, string>)
    ensures r.Ok? ==> r.value && TypedAs(item, v).Ok?
    ensures TypedAs(item, v).Err? ==> r == Err(TypedAs(item, v).error)
  {
    var p :- TypedAs(item, v);
    var below :- if item.minValue.None? then Ok(false) else Less(p, item.minValue);
    if below then Err(item.name + " less then " + Show(item.minValue.value))
    else
      var above :- if item.maxValue.None? then Ok(false) else Greater(p, item.maxValue);
      if above then Err(item.name + " more then " + Show(item.maxValue.value))
      else Ok(true)
  }

  /** The policy applied to a change from the value `before` to the value `after`. */
  function ModifyAllowed(item: ConfigItem, before: Value, after: Value): (r: Result<bool, string>)
    ensures r.Ok? ==> r.value
    ensures item.limit == NoLimit ==> r == Ok(true)
    ensures item.limit == ForbidModify ==> (r.Ok? <==> PyEq(before, after))
  {
    match item.limit
    case NoLimit => Ok(true)
    case ForbidModify =>
      if PyEq(before, after) then Ok(true) else Err("DO NOT modify " + item.name + " after startup")
    case ForbidIncrease =>
      var n :- TypedAs(item, after);
      var o :- TypedAs(item, before);
      var up :- Greater(n, Some(o));
      if up then Err("DO NOT increase " + item.name + " after startup") else Ok(true)
    case ForbidDecrease =>
      var n :- TypedAs(item, after);
      var o :- TypedAs(item, before);
      var down :- Less(n, Some(o));
      if down then Err("DO NOT decrease " + item.name + " after startup") else Ok(true)
  }

  // ---------------------------------------------------------------- properties

  /** Two strings framed the same way are equal exactly when their middles are. */
  lemma FramedEqual(a: string, w: string, b: string, x: string)
    ensures a + w + b == a + x + b <==> w == x
  {
    if a + w + b == a + x + b {
      var s := a + w + b;
      assert w == s[|a|..|s| - |b|];
      assert x == (a + x + b)[|a|..|s| - |b|];
    }
  }

  /** The policy is chosen by the lower-cased name alone: `MODIFY` is `modify`,
      and `None` or any unknown name is no limit. */
  lemma LimitByName(modifyLimit: Value)
    ensures var w := Lower(PyStr(modifyLimit));
            LimitNamed(modifyLimit) ==
              if w == "modify" then ForbidModify
              else if w == "increase" then ForbidIncrease
              else if w == "decrease" then ForbidDecrease
              else NoLimit
  {
    var w := Lower(PyStr(modifyLimit));
    LowerConcat("_" + PyStr(modifyLimit), "_limit");
    LowerConcat("_", PyStr(modifyLimit));
    assert Lower("_") == "_" && Lower("_limit") == "_limit";
    assert "_modify_limit" == "_" + "modify" + "_limit";
    assert "_increase_limit" == "_" + "increase" + "_limit";
    assert "_decrease_limit" == "_" + "decrease" + "_limit";
    FramedEqual("_", w, "_limit", "modify");
    FramedEqual("_", w, "_limit", "increase");
    FramedEqual("_", w, "_limit", "decrease");
  }

  /** An item defined without a modify limit has none. */
  lemma NoLimitByDefault()
    ensures LimitNamed(PyNone) == NoLimit
  {
    LimitByName(PyNone);
    assert Lower("None") == "none";
  }

  /** A value whose comparison values are numbers passes `check_value` exactly
      when it lies between the bounds, each bound included. */
  lemma CheckValueWithinBounds(item: ConfigItem, v: Value)
    requires Parse(item.kind, v).Ok? && Parse(item.kind, v).value.cmp.Number?
    requires item.minValue.Some? ==> item.minValue.value.cmp.Number?
    requires item.maxValue.Some? ==> item.maxValue.value.cmp.Number?
    ensures var x := Parse(item.kind, v).value.cmp.x;
            CheckValue(item, v).Ok? <==>
              && (item.minValue.Some? ==> item.minValue.value.cmp.x <= x)
              && (item.maxValue.Some? ==> x <= item.maxValue.value.cmp.x)
  {
    var p := Parse(item.kind, v).value;
    if item.minValue.Some? { NumberComparisons(p, item.minValue.value); }
    if item.maxValue.Some? { NumberComparisons(p, item.maxValue.value); }
  }

  /** Below the minimum the error names the minimum; above the maximum, the maximum. */
  lemma CheckValueMessages(item: ConfigItem, v: Value)
    requires Parse(item.kind, v).Ok? && Parse(item.kind, v).value.cmp.Number?
    requires item.minValue.Some? ==> item.minValue.value.cmp.Number?
    requires item.maxValue.Some? ==> item.maxValue.value.cmp.Number?
    ensures var x := Parse(item.kind, v).value.cmp.x;
            item.minValue.Some? && x < item.minValue.value.cmp.x ==>
              CheckValue(item, v) == Err(item.name + " less then " + Show(item.minValue.value))
    ensures var x := Parse(item.kind, v).value.cmp.x;
            (item.minValue.Some? ==> item.minValue.value.cmp.x <= x) &&
            item.maxValue.Some? && x > item.maxValue.value.cmp.x ==>
              CheckValue(item, v) == Err(item.name + " more then " + Show(item.maxValue.value))
  {
    var p := Parse(item.kind, v).value;
    if item.minValue.Some? { NumberComparisons(p, item.minValue.value); }
    if item.maxValue.Some? { NumberComparisons(p, item.maxValue.value); }
  }

  /** An item without bounds accepts every value that parses. */
  lemma CheckValueUnbounded(item: ConfigItem, v: Value)
    requires item.minValue.None? && item.maxValue.None?
    ensures CheckValue(item, v).Ok? <==> Parse(item.kind, v).Ok?
  {
  }

  /** Under `increase`, a numeric change is refused exactly when the new value is greater. */
  lemma IncreaseLimit(item: ConfigItem, before: Value, after: Value)
    requires item.limit == ForbidIncrease
    requires Parse(item.kind, before).Ok? && Parse(item.kind, before).value.cmp.Number?
    requires Parse(item.kind, after).Ok? && Parse(item.kind, after).value.cmp.Number?
    ensures ModifyAllowed(item, before, after).Ok? <==>
              Parse(item.kind, after).value.cmp.x <= Parse(item.kind, before).value.cmp.x
    ensures ModifyAllowed(item, before, after).Err? ==>
              ModifyAllowed(item, before, after).error == "DO NOT increase " + item.name + " after startup"
  {
    NumberComparisons(Parse(item.kind, after).value, Parse(item.kind, before).value);
  }

  /** Under `decrease`, a numeric change is refused exactly when the new value is smaller. */
  lemma DecreaseLimit(item: ConfigItem, before: Value, after: Value)
    requires item.limit == ForbidDecrease
    requires Parse(item.kind, before).Ok? && Parse(item.kind, before).value.cmp.Number?
    requires Parse(item.kind, after).Ok? && Parse(item.kind, after).value.cmp.Number?
    ensures ModifyAllowed(item, before, after).Ok? <==>
              Parse(item.kind, before).value.cmp.x <= Parse(item.kind, after).value.cmp.x
    ensures ModifyAllowed(item, before, after).Err? ==>
              ModifyAllowed(item, before, after).error == "DO NOT decrease " + item.name + " after startup"
  {
    NumberComparisons(Parse(item.kind, after).value, Parse(item.kind, before).value);
  }

  /** Under `increase` and `decrease`, an unparsable new value is reported before the old one. */
  lemma LimitParsesNewFirst(item: ConfigItem, before: Value, after: Value)
    requires item.limit == ForbidIncrease || item.limit == ForbidDecrease
    requires Parse(item.kind, after).Err?
    ensures ModifyAllowed(item, before, after) == Err(item.name + ": " + Parse(item.kind, after).error)
  {
  }

  /** Under `modify`, keeping the value is always allowed. */
  lemma ModifyKeepsValue(item: ConfigItem, v: Value)
    requires item.limit == ForbidModify
    ensures ModifyAllowed(item, v, v) == Ok(true)
  {
    PyEqReflexive(v);
  }

  /** Under `modify`, a dictionary whose entries are only reordered is the same value. */
  lemma ModifyIgnoresDictOrder(item: ConfigItem, a: string, x: Value, b: string, y: Value)
    requires item.limit == ForbidModify && a != b
    ensures ModifyAllowed(item, Dict([(a, x), (b, y)]), Dict([(b, y), (a, x)])) == Ok(true)
  {
    DictOrderIgnored(a, x, b, y);
  }
}
