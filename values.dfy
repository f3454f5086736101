/**
 * The dynamically typed values that flow through the orchestrator: namespace
 * variables, plugin results, configuration values read from YAML and plugin
 * options. Dictionaries keep Python's insertion order, so they are
 * association lists whose keys are distinct.
 */
module Values {
  import opened Text
  import opened Wrappers

  datatype Value =
    | PyNone
    | Bool(b: bool)
    | Int(i: int)
    | Str(s: string)
    | List(items: seq<Value>)
    | Dict(entries: seq<(string, Value)>)
      /** An exception object: its class name and its message. */
    | Fault(kind: string, message: string)

  /** Python truthiness (`bool(v)`); exception objects are always true. */
  predicate Truthy(v: Value) {
    match v
    case PyNone => false
    case Bool(b) => b
    case Int(i) => i != 0
    case Str(s) => |s| > 0
    case List(items) => |items| > 0
    case Dict(entries) => |entries| > 0
    case Fault(_, _) => true
  }

  function JoinWith(parts: seq<string>, sep: string): string {
    if |parts| == 0 then "" else Join(parts, sep)
  }

  /** Python's `str(v)`. String escapes inside containers are not modelled. */
  function PyStr(v: Value): string
    decreases v, 0
  {
    match v
    case PyNone => "None"
    case Bool(b) => if b then "True" else "False"
    case Int(i) => IntToString(i)
    case Str(s) => s
    case List(items) =>
      "[" + JoinWith(seq(|items|, k requires 0 <= k < |items| => Repr(items[k])), ", ") + "]"
    case Dict(entries) =>
      "{" + JoinWith(seq(|entries|, k requires 0 <= k < |entries| =>
                           "'" + entries[k].0 + "': " + Repr(entries[k].1)), ", ") + "}"
    case Fault(_, message) => message
  }

  /** Python's `repr(v)`, as used inside the `str` of a container. */
  function Repr(v: Value): string
    decreases v, 1
  {
    match v
    case Str(s) => "'" + s + "'"
    case Fault(kind, message) => kind + "('" + message + "')"
    case _ => PyStr(v)
  }

  function Keys(entries: seq<(string, Value)>): set<string> {
    set k | 0 <= k < |entries| :: entries[k].0
  }

  lemma KeysCons(entries: seq<(string, Value)>)
    requires |entries| > 0
    ensures Keys(entries) == {entries[0].0} + Keys(entries[1..])
  {
    forall k | k in Keys(entries) ensures k in {entries[0].0} + Keys(entries[1..]) {
      var j :| 0 <= j < |entries| && entries[j].0 == k;
      if j > 0 { assert entries[1..][j - 1].0 == k; }
    }
    forall k | k in Keys(entries[1..]) ensures k in Keys(entries) {
      var j :| 0 <= j < |entries[1..]| && entries[1..][j].0 == k;
      assert entries[j + 1].0 == k;
    }
  }

  /** `d.get(key)` on a dictionary given by its entries. */
  function Lookup(entries: seq<(string, Value)>, key: string): (r: Option<Value>)
    ensures r.Some? <==> key in Keys(entries)
  {
    if |entries| == 0 then None
    else if entries[0].0 == key then Some(entries[0].1)
    else
      KeysCons(entries);
      Lookup(entries[1..], key)
  }

  /** `d[key] = value`: an existing key keeps its position, a new key goes last. */
  function Store(entries: seq<(string, Value)>, key: string, value: Value): (r: seq<(string, Value)>)
    ensures Keys(r) == Keys(entries) + {key}
    ensures Lookup(r, key) == Some(value)
    ensures forall k :: k != key ==> Lookup(r, k) == Lookup(entries, k)
  {
    if |entries| == 0 then
      var r := [(key, value)];
      assert r[0].0 == key;
      r
    else if entries[0].0 == key then
      var r := [(key, value)] + entries[1..];
      KeysCons(entries);
      KeysCons(r);
      assert r[1..] == entries[1..];
      r
    else
      var rest := Store(entries[1..], key, value);
      var r := [entries[0]] + rest;
      KeysCons(entries);
      KeysCons(r);
      assert r[1..] == rest;
      r
  }

  /** Storing a key twice keeps only the second value, at the first one's position. */
  lemma {:induction false} StoreTwice(entries: seq<(string, Value)>, key: string, v1: Value, v2: Value)
    ensures Store(Store(entries, key, v1), key, v2) == Store(entries, key, v2)
  {
    if |entries| > 0 && entries[0].0 != key {
      StoreTwice(entries[1..], key, v1, v2);
      var once := Store(entries, key, v1);
      assert once == [entries[0]] + Store(entries[1..], key, v1);
      assert once[1..] == Store(entries[1..], key, v1);
    }
  }

  /** Looking a key up in two lists of entries one after the other. */
  lemma {:induction false} LookupAppend(a: seq<(string, Value)>, b: seq<(string, Value)>, key: string)
    ensures Lookup(a + b, key) == if key in Keys(a) then Lookup(a, key) else Lookup(b, key)
  {
    if |a| == 0 {
      assert a + b == b;
    } else {
      KeysCons(a);
      assert (a + b)[0] == a[0];
      if a[0].0 != key {
        assert (a + b)[1..] == a[1..] + b;
        LookupAppend(a[1..], b, key);
      }
    }
  }

  /** Storing a key the dictionary does not hold appends it. */
  lemma {:induction false} StoreNew(entries: seq<(string, Value)>, key: string, value: Value)
    requires key !in Keys(entries)
    ensures Store(entries, key, value) == entries + [(key, value)]
  {
    if |entries| > 0 {
      KeysCons(entries);
      StoreNew(entries[1..], key, value);
      assert [entries[0]] + (entries[1..] + [(key, value)]) == entries + [(key, value)];
    }
  }

  predicate IsNumber(v: Value) {
    v.Bool? || v.Int?
  }

  function NumberOf(v: Value): int
    requires IsNumber(v)
  {
    if v.Bool? then (if v.b then 1 else 0) else v.i
  }

  /** The entry at `k` is the first one with its key, the one `Lookup` finds. */
  predicate FirstOfKey(entries: seq<(string, Value)>, k: int) {
    0 <= k < |entries| && entries[k].0 !in Keys(entries[..k])
  }

  /** The first entry with a key is what looking the key up gives. */
  lemma {:induction false} LookupFirst(entries: seq<(string, Value)>, k: int)
    requires FirstOfKey(entries, k)
    ensures Lookup(entries, entries[k].0) == Some(entries[k].1)
  {
    if k > 0 {
      assert entries[0].0 in Keys(entries[..k]) by { assert entries[..k][0] == entries[0]; }
      assert entries[1..][k - 1] == entries[k];
      assert Keys(entries[1..][..k - 1]) <= Keys(entries[..k]) by {
        forall x | x in Keys(entries[1..][..k - 1]) ensures x in Keys(entries[..k]) {
          var j :| 0 <= j < k - 1 && entries[1..][..k - 1][j].0 == x;
          assert entries[..k][j + 1] == entries[1..][..k - 1][j];
        }
      }
      LookupFirst(entries[1..], k - 1);
    }
  }

  /** Python's `==`: booleans are the numbers 0 and 1, lists compare element
      by element, and dictionaries are equal when they have the same keys and
      equal values under each key, whatever the order of their entries. */
  predicate PyEq(a: Value, b: Value) {
    if IsNumber(a) || IsNumber(b) then IsNumber(a) && IsNumber(b) && NumberOf(a) == NumberOf(b)
    else match a
      case List(items) =>
        b.List? && |items| == |b.items| && forall k :: 0 <= k < |items| ==> PyEq(items[k], b.items[k])
      case Dict(entries) =>
        && b.Dict? && Keys(entries) == Keys(b.entries)
        && forall k :: 0 <= k < |entries| && FirstOfKey(entries, k) ==>
             Lookup(b.entries, entries[k].0).Some? && PyEq(entries[k].1, Lookup(b.entries, entries[k].0).value)
      case _ => a == b
  }

  /** Every value equals itself. */
  lemma {:induction false} PyEqReflexive(v: Value)
    ensures PyEq(v, v)
  {
    match v
    case List(items) =>
      forall k | 0 <= k < |items| ensures PyEq(items[k], items[k]) {
        PyEqReflexive(items[k]);
      }
    case Dict(entries) =>
      forall k | FirstOfKey(entries, k)
        ensures Lookup(entries, entries[k].0).Some? && PyEq(entries[k].1, Lookup(entries, entries[k].0).value)
      {
        LookupFirst(entries, k);
        PyEqReflexive(entries[k].1);
      }
    case _ =>
  }

  /** Two dictionaries holding the same two entries in either order are equal. */
  lemma DictOrderIgnored(a: string, x: Value, b: string, y: Value)
    requires a != b
    ensures PyEq(Dict([(a, x), (b, y)]), Dict([(b, y), (a, x)]))
    ensures Dict([(a, x), (b, y)]) != Dict([(b, y), (a, x)])
  {
    var d, e := [(a, x), (b, y)], [(b, y), (a, x)];
    assert Keys(d) == {a, b} by { KeysCons(d); KeysCons(d[1..]); assert d[1..][1..] == []; }
    assert Keys(e) == {a, b} by { KeysCons(e); KeysCons(e[1..]); assert e[1..][1..] == []; }
    assert Lookup(e, b) == Some(y);
    assert Lookup(e, a) == Some(x) by {
      assert e[1..] == [(a, x)];
      assert Lookup(e[1..], a) == Some(x);
    }
    PyEqReflexive(x);
    PyEqReflexive(y);
    forall k | 0 <= k < |d| && FirstOfKey(d, k)
      ensures Lookup(e, d[k].0).Some? && PyEq(d[k].1, Lookup(e, d[k].0).value)
    {
      assert k == 0 || k == 1;
    }
  }

  /** The first position from `i` on where two lists hold unequal items, or
      the length of the shorter list when they agree that far. */
  function FirstDiff(xs: seq<Value>, ys: seq<Value>, i: nat): (k: nat)
    requires i <= |xs| && i <= |ys|
    ensures i <= k <= |xs| && k <= |ys|
    ensures forall j :: i <= j < k ==> PyEq(xs[j], ys[j])
    ensures k < |xs| && k < |ys| ==> !PyEq(xs[k], ys[k])
    decreases |xs| - i
  {
    if i == |xs| || i == |ys| then i
    else if PyEq(xs[i], ys[i]) then FirstDiff(xs, ys, i + 1)
    else i
  }

  /** Python's `<`: numbers by value, strings by code point, and lists
      lexicographically: the first unequal pair of items decides, and when
      there is none the shorter list is the lesser. Every other pair,
      dictionaries and `None` included, raises `TypeError`. */
  function PyLess(a: Value, b: Value): (r: Result<bool, string>)
    ensures r.Err? ==> r.error == "TypeError"
    ensures r.Ok? ==> (IsNumber(a) && IsNumber(b)) || (a.Str? && b.Str?) || (a.List? && b.List?)
    ensures (IsNumber(a) && IsNumber(b)) || (a.Str? && b.Str?) ==> r.Ok?
    decreases a
  {
    if IsNumber(a) && IsNumber(b) then Ok(NumberOf(a) < NumberOf(b))
    else if a.Str? && b.Str? then Ok(StrLess(a.s, b.s))
    else if a.List? && b.List? then
      var k := FirstDiff(a.items, b.items, 0);
      if k == |a.items| || k == |b.items| then Ok(|a.items| < |b.items|)
      else PyLess(a.items[k], b.items[k])
    else Err("TypeError")
  }

  /** Two lists are ordered by their first unequal pair of items. */
  lemma ListLessAtFirstDifference(xs: seq<Value>, ys: seq<Value>, k: nat)
    requires k < |xs| && k < |ys| && !PyEq(xs[k], ys[k])
    requires forall j :: 0 <= j < k ==> PyEq(xs[j], ys[j])
    ensures PyLess(List(xs), List(ys)) == PyLess(xs[k], ys[k])
  {
  }

  /** A list is less than every longer list that starts with it, and not less than itself. */
  lemma ListPrefixLess(xs: seq<Value>, ys: seq<Value>)
    ensures PyLess(List(xs), List(xs + ys)) == Ok(|ys| > 0)
  {
    forall j | 0 <= j < |xs| ensures PyEq(xs[j], (xs + ys)[j]) {
      PyEqReflexive(xs[j]);
    }
  }

  lemma {:induction false} StrLessIrreflexive(s: string)
    ensures !StrLess(s, s)
    decreases |s|
  {
    if |s| > 0 {
      StrLessIrreflexive(s[1..]);
    }
  }

  /** Nothing is less than itself. */
  lemma PyLessIrreflexive(v: Value)
    ensures PyLess(v, v).Ok? ==> PyLess(v, v) == Ok(false)
  {
    if v.Str? {
      StrLessIrreflexive(v.s);
    } else if v.List? {
      ListPrefixLess(v.items, []);
      assert v.items + [] == v.items;
    }
  }
}
