/**
 * The typed configuration values of a parameter plugin. Each type is built
 * from a raw value (`_origin`) once, computes the value it is compared by
 * (`__cmp_value__`) and the value it exposes (`value`, the raw value unless
 * the type sets its own), and fails with `'<origin>' is not <Type>` when the
 * raw value does not parse.
 */
module ParamTypes {
  import opened Text
  import opened Values
  import opened Wrappers

  datatype ParamKind =
    | Moment | Time | Capacity | StringList | DictItem | ListItem | StringOrKvList
    | Boolean | Integer | StringItem

  /** The class name that appears in the parse error. */
  function TypeName(k: ParamKind): string {
    match k
    case Moment => "Moment"
    case Time => "Time"
    case Capacity => "Capacity"
    case StringList => "StringList"
    case DictItem => "Dict"
    case ListItem => "List"
    case StringOrKvList => "StringOrKvList"
    case Boolean => "Boolean"
    case Integer => "Integer"
    case StringItem => "String"
  }

  /** What a typed value is compared by: a number (durations may be
      fractions of a second), a string, or a list or dictionary. */
  datatype CmpValue = Number(x: real) | Word(s: string) | Structure(v: Value)

  /** A parsed value: its kind, the raw value as the parser left it, the
      exposed value and the comparison value. */
  datatype ParamValue = ParamValue(kind: ParamKind, origin: Value, value: Value, cmp: CmpValue)

  /** `str()` of a typed value is `str()` of its raw value. */
  function Show(p: ParamValue): string {
    PyStr(p.origin)
  }

  function Invalid(k: ParamKind, origin: Value): Result<ParamValue, string> {
    Err("'" + PyStr(origin) + "' is not " + TypeName(k))
  }

  /** A value whose parser sets only the comparison value exposes its raw value. */
  function Plain(k: ParamKind, origin: Value, cmp: CmpValue): Result<ParamValue, string> {
    Ok(ParamValue(k, origin, origin, cmp))
  }

  // ---------------------------------------------------------------- Moment

  /** `re.match('^(\d{1,2}):(\d{1,2})$', s)`: the hour and minute digits.
      `$` also matches just before a final newline. */
  function MatchClock(s: string): (r: Option<(string, string)>)
    ensures r.Some? ==> 1 <= |r.value.0| <= 2 && 1 <= |r.value.1| <= 2
    ensures r.Some? ==> AllDigits(r.value.0) && AllDigits(r.value.1)
    ensures r.Some? ==> s == r.value.0 + ":" + r.value.1 || s == r.value.0 + ":" + r.value.1 + "\n"
  {
    var t := if |s| > 0 && s[|s| - 1] == '\n' then s[..|s| - 1] else s;
    var i := LeadingDigits(t);
    if 1 <= i <= 2 && i < |t| && t[i] == ':' && 1 <= |t| - (i + 1) <= 2 && AllDigits(t[i + 1..]) then
      assert t == t[..i] + ":" + t[i + 1..];
      Some((t[..i], t[i + 1..]))
    else None
  }

  /** Every `H:M` of one or two digits each is matched, with its parts. */
  lemma MatchClockOf(h: string, m: string)
    requires 1 <= |h| <= 2 && 1 <= |m| <= 2 && AllDigits(h) && AllDigits(m)
    ensures MatchClock(h + ":" + m) == Some((h, m))
  {
    var s := h + ":" + m;
    assert s[..|h|] == h && s[|h|] == ':' && s[|h| + 1..] == m;
    assert LeadingDigits(s) == |h| by {
      if |h| == 1 {
        assert s[1..][0] == ':';
      } else {
        assert s[1..][1..][0] == ':';
      }
    }
  }

  /** A time of day `HH:MM` in minutes; empty and `DISABLE` (in any case) are 0.
      The minute may be 60. */
  function ParseMoment(origin: Value): (r: Result<ParamValue, string>)
    ensures r.Ok? ==> r.value.kind == Moment && r.value.origin == origin && r.value.value == origin
    ensures r.Ok? ==> r.value.cmp.Number? && 0.0 <= r.value.cmp.x <= 1440.0
  {
    if !Truthy(origin) then Plain(Moment, origin, Number(0.0))
    else if !origin.Str? then Invalid(Moment, origin)
    else if Upper(origin.s) == "DISABLE" then Plain(Moment, origin, Number(0.0))
    else MomentOfClock(origin, MatchClock(origin.s))
  }

  /** The minutes of a matched clock, within range. */
  function MomentOfClock(origin: Value, clock: Option<(string, string)>): (r: Result<ParamValue, string>)
    requires clock.Some? ==> AllDigits(clock.value.0) && AllDigits(clock.value.1)
    ensures r.Ok? ==> r.value.kind == Moment && r.value.origin == origin && r.value.value == origin
    ensures r.Ok? ==> r.value.cmp.Number? && 0.0 <= r.value.cmp.x <= 1440.0
  {
    match clock
    case None => Invalid(Moment, origin)
    case Some((h, m)) =>
      var hours := DigitsValue(h);
      var minutes := DigitsValue(m);
      if hours <= 23 && minutes <= 60 then Plain(Moment, origin, Number((hours * 60 + minutes) as real))
      else Invalid(Moment, origin)
  }

  /** A non-empty string that is not `DISABLE` is read as a clock. */
  lemma ParseMomentOfText(s: string)
    requires |s| > 0 && Upper(s) != "DISABLE"
    ensures ParseMoment(Str(s)) == MomentOfClock(Str(s), MatchClock(s))
  {
    assert Truthy(Str(s));
  }

  /** A clock within range is `60 * H + M` minutes, and an error outside it. */
  lemma MomentInRange(origin: Value, h: string, m: string)
    requires AllDigits(h) && AllDigits(m)
    ensures var r := MomentOfClock(origin, Some((h, m)));
            && (DigitsValue(h) <= 23 && DigitsValue(m) <= 60 ==>
                  r.Ok? && r.value.cmp == Number((DigitsValue(h) * 60 + DigitsValue(m)) as real))
            && (DigitsValue(h) > 23 || DigitsValue(m) > 60 ==> r.Err?)
  {
  }

  /** A clock has a colon where `DISABLE` has a letter. */
  lemma ClockIsNotDisable(h: string, m: string)
    requires 1 <= |h| <= 2
    ensures Upper(h + ":" + m) != "DISABLE"
  {
    var u := Upper(h + ":" + m);
    assert u[|h|] == ':';
    assert "DISABLE"[|h|] != ':';
  }

  /** `H:M` within range is `60 * H + M` minutes; outside it is an error. */
  lemma MomentOfHoursAndMinutes(h: string, m: string)
    requires 1 <= |h| <= 2 && 1 <= |m| <= 2 && AllDigits(h) && AllDigits(m)
    ensures var r := ParseMoment(Str(h + ":" + m));
            && (DigitsValue(h) <= 23 && DigitsValue(m) <= 60 ==>
                  r.Ok? && r.value.cmp == Number((DigitsValue(h) * 60 + DigitsValue(m)) as real))
            && (DigitsValue(h) > 23 || DigitsValue(m) > 60 ==> r.Err?)
  {
    MatchClockOf(h, m);
    ClockIsNotDisable(h, m);
    ParseMomentOfText(h + ":" + m);
    MomentInRange(Str(h + ":" + m), h, m);
  }

  /** The two spellings of "no moment" both compare as 0. */
  lemma MomentDisabled()
    ensures ParseMoment(Str("disable")).Ok? && ParseMoment(Str("disable")).value.cmp == Number(0.0)
    ensures ParseMoment(Str("")).Ok? && ParseMoment(Str("")).value.cmp == Number(0.0)
  {
    assert Upper("disable") == "DISABLE";
  }

  // ---------------------------------------------------------------- Time

  /** Seconds per unit; the sub-second units are exact decimal fractions here. */
  function SecondUnit(u: string): (r: Option<real>)
    ensures r.Some? ==> r.value > 0.0
  {
    if u == "ns" then Some(0.000000001)
    else if u == "us" then Some(0.000001)
    else if u == "ms" then Some(0.001)
    else if u == "s" then Some(1.0)
    else if u == "m" then Some(60.0)
    else if u == "h" then Some(3600.0)
    else if u == "d" then Some(86400.0)
    else None
  }

  /** `n` units of `unit` seconds each. */
  function Seconds(n: nat, unit: real): (x: real)
    requires unit > 0.0
    ensures x >= 0.0
  {
    n as real * unit
  }

  /** `re.match('^(\d+)(\w+)$', t)` on a string without a final newline:
      the (greedy) digits and the rest, which must be word characters. */
  function MatchAmountWord(t: string): (r: Option<(string, string)>)
    ensures r.Some? ==> IsDecimal(r.value.0) && |r.value.1| > 0 && t == r.value.0 + r.value.1
    ensures r.Some? ==> !IsDigit(r.value.1[0])
  {
    var i := LeadingDigits(t);
    if 1 <= i < |t| && forall k :: i <= k < |t| ==> IsWordChar(t[k]) then
      assert t == t[..i] + t[i..];
      Some((t[..i], t[i..]))
    else None
  }

  /** The non-digit tail of a duration: a number followed by a unit name. */
  function TimeOfWord(s: string): (r: Result<ParamValue, string>)
    ensures r.Ok? ==> r.value.kind == Time && r.value.origin == Str(s) && r.value.value == Str(s)
    ensures r.Ok? ==> r.value.cmp.Number? && r.value.cmp.x >= 0.0
  {
    match MatchAmountWord(Lower(s))
    case None => Invalid(Time, Str(s))
    case Some((n, u)) =>
      // the unit is already lower case
      match SecondUnit(u)
      case Some(unit) => Plain(Time, Str(s), Number(Seconds(DigitsValue(n), unit)))
      case None => Invalid(Time, Str(s))
  }

  /** `Time` as the repository writes it: a string of bare digits takes the
      branch that never binds the unit name, so it always fails. */
  function ParseTimeAsWritten(origin: Value): (r: Result<ParamValue, string>)
    ensures r.Ok? ==> r.value.kind == Time && r.value.cmp.Number?
  {
    if !Truthy(origin) then Plain(Time, origin, Number(0.0))
    else TimeOfTextAsWritten(Strip(PyStr(origin)))
  }

  function TimeOfTextAsWritten(s: string): (r: Result<ParamValue, string>)
    ensures r.Ok? ==> r.value.kind == Time && r.value.cmp.Number?
  {
    if IsDecimal(s) then Invalid(Time, Str(s)) else TimeOfWord(s)
  }

  /** A duration in seconds: `<n><unit>`, or bare digits meaning seconds. */
  function ParseTime(origin: Value): (r: Result<ParamValue, string>)
    ensures r.Ok? ==> r.value.kind == Time && r.value.cmp.Number? && r.value.cmp.x >= 0.0
  {
    if !Truthy(origin) then Plain(Time, origin, Number(0.0))
    else TimeOfText(Strip(PyStr(origin)))
  }

  /** The stripped text of a duration. */
  function TimeOfText(s: string): (r: Result<ParamValue, string>)
    ensures r.Ok? ==> r.value.kind == Time && r.value.cmp.Number? && r.value.cmp.x >= 0.0
  {
    if IsDecimal(s) then Plain(Time, Str(s), Number(Seconds(DigitsValue(s), 1.0)))
    else TimeOfWord(s)
  }

  /** Digits and lower-case letters are left alone by `lower()`. */
  lemma LowerUnchanged(s: string)
    requires forall k :: 0 <= k < |s| ==> IsDigit(s[k]) || 'a' <= s[k] <= 'z'
    ensures Lower(s) == s
  {
    assert forall k :: 0 <= k < |s| ==> Lower(s)[k] == s[k];
  }

  /** Digits and upper-case letters are left alone by `upper()`. */
  lemma UpperUnchanged(s: string)
    requires forall k :: 0 <= k < |s| ==> IsDigit(s[k]) || 'A' <= s[k] <= 'Z'
    ensures Upper(s) == s
  {
    assert forall k :: 0 <= k < |s| ==> Upper(s)[k] == s[k];
  }

  /** The leading digits of a decimal string followed by a non-digit are that string. */
  lemma {:induction false} LeadingDigitsOfPrefix(n: string, u: string)
    requires IsDecimal(n) && |u| > 0 && !IsDigit(u[0])
    ensures LeadingDigits(n + u) == |n|
    decreases |n|
  {
    var s := n + u;
    if |n| == 1 {
      assert s[1..] == u;
    } else {
      assert s[1..] == n[1..] + u;
      LeadingDigitsOfPrefix(n[1..], u);
    }
  }

  /** A number followed by a word that starts with a non-digit splits there. */
  lemma MatchAmountWordOf(n: string, u: string)
    requires IsDecimal(n) && |u| > 0 && !IsDigit(u[0])
    requires forall k :: 0 <= k < |u| ==> IsWordChar(u[k])
    ensures MatchAmountWord(n + u) == Some((n, u))
  {
    var s := n + u;
    LeadingDigitsOfPrefix(n, u);
    assert s[..|n|] == n && s[|n|..] == u;
    assert forall k :: |n| <= k < |s| ==> s[k] == u[k - |n|];
  }

  /** A lower-case word after a number: the duration `TimeOfWord` reads. */
  lemma TimeOfLowerWord(n: string, u: string)
    requires IsDecimal(n) && |u| > 0 && forall k :: 0 <= k < |u| ==> 'a' <= u[k] <= 'z'
    ensures TimeOfWord(n + u) ==
              match SecondUnit(u)
              case Some(unit) => Plain(Time, Str(n + u), Number(Seconds(DigitsValue(n), unit)))
              case None => Invalid(Time, Str(n + u))
  {
    var s := n + u;
    assert forall k :: 0 <= k < |s| ==> IsDigit(s[k]) || 'a' <= s[k] <= 'z' by {
      forall k | 0 <= k < |s| ensures IsDigit(s[k]) || 'a' <= s[k] <= 'z' {
        if k >= |n| { assert s[k] == u[k - |n|]; }
      }
    }
    LowerUnchanged(s);
    MatchAmountWordOf(n, u);
  }

  /** A number followed by a lower-case word is its own `strip()` and not all digits. */
  lemma TimeTextShape(n: string, u: string)
    requires IsDecimal(n) && |u| > 0 && forall k :: 0 <= k < |u| ==> 'a' <= u[k] <= 'z'
    ensures var s := n + u; |s| > 0 && Strip(s) == s && !IsDecimal(s)
  {
    var s := n + u;
    assert s[0] == n[0] && s[|s| - 1] == u[|u| - 1] && !IsDigit(s[|n|]);
    StripUnchanged(s);
  }

  /** A non-empty string value without surrounding white space is read as its text. */
  lemma ParseTimeOfText(s: string)
    requires |s| > 0 && Strip(s) == s
    ensures ParseTime(Str(s)) == TimeOfText(s)
    ensures ParseTimeAsWritten(Str(s)) == TimeOfTextAsWritten(s)
  {
    assert Truthy(Str(s)) && PyStr(Str(s)) == s;
  }

  /** `<n><unit>` for a unit of the table is `n` times the unit's seconds;
      a lower-case word the table does not name is an error. */
  lemma TimeOfUnit(n: string, u: string)
    requires IsDecimal(n) && |u| > 0 && forall k :: 0 <= k < |u| ==> 'a' <= u[k] <= 'z'
    ensures var r := ParseTime(Str(n + u));
            && (SecondUnit(u).Some? ==> r.Ok? && r.value.cmp == Number(Seconds(DigitsValue(n), SecondUnit(u).value)))
            && (SecondUnit(u).None? ==> r.Err?)
  {
    TimeTextShape(n, u);
    ParseTimeOfText(n + u);
    TimeOfLowerWord(n, u);
  }

  /** Bare digits fail as written; once the unit is bound they are seconds. */
  lemma TimeBareDigits(n: string)
    requires IsDecimal(n)
    ensures ParseTimeAsWritten(Str(n)).Err?
    ensures ParseTime(Str(n)) == Plain(Time, Str(n), Number(Seconds(DigitsValue(n), 1.0)))
  {
    StripUnchanged(n);
    ParseTimeOfText(n);
  }

  /** Two durations written with unit names compare by their numbers of seconds. */
  lemma DurationsCompareBySeconds(n1: string, u1: string, n2: string, u2: string)
    requires IsDecimal(n1) && |u1| > 0 && (forall k :: 0 <= k < |u1| ==> 'a' <= u1[k] <= 'z') && SecondUnit(u1).Some?
    requires IsDecimal(n2) && |u2| > 0 && (forall k :: 0 <= k < |u2| ==> 'a' <= u2[k] <= 'z') && SecondUnit(u2).Some?
    ensures var a := ParseTime(Str(n1 + u1));
            var b := ParseTime(Str(n2 + u2));
            var x := Seconds(DigitsValue(n1), SecondUnit(u1).value);
            var y := Seconds(DigitsValue(n2), SecondUnit(u2).value);
            && a.Ok? && b.Ok?
            && (Equal(a.value, Some(b.value)) <==> x == y)
            && Less(a.value, Some(b.value)) == Ok(x < y)
  {
    TimeOfUnit(n1, u1);
    TimeOfUnit(n2, u2);
    NumberComparisons(ParseTime(Str(n1 + u1)).value, ParseTime(Str(n2 + u2)).value);
  }

  // ---------------------------------------------------------------- Capacity

  /** Bytes per unit letter. */
  function ByteUnit(u: char): (r: Option<nat>)
    ensures r.Some? ==> r.value > 0
  {
    match u
    case 'B' => Some(1)
    case 'K' => Some(1024)
    case 'M' => Some(1048576)
    case 'G' => Some(1073741824)
    case 'T' => Some(1099511627776)
    case 'P' => Some(1125899906842624)
    case _ => None
  }

  /** `n` units of `unit` bytes each. */
  function Bytes(n: nat, unit: nat): nat {
    n * unit
  }

  /** `re.match('^(\d+)(\w)B?$', t)` on a string without a final newline:
      the (greedy) digits and the unit letter. */
  function MatchAmountLetter(t: string): (r: Option<(string, char)>)
    ensures r.Some? ==> IsDecimal(r.value.0)
    ensures r.Some? ==> t == r.value.0 + [r.value.1] || t == r.value.0 + [r.value.1] + "B"
  {
    var i := LeadingDigits(t);
    if 1 <= i < |t| && IsWordChar(t[i]) && (t[i + 1..] == "" || t[i + 1..] == "B") then
      assert t == t[..i] + [t[i]] + t[i + 1..];
      Some((t[..i], t[i]))
    else None
  }

  /** The non-digit form of a size: a number, a unit letter and an optional `B`. */
  function CapacityOfWord(s: string): (r: Result<ParamValue, string>)
    ensures r.Ok? ==> r.value.kind == Capacity && r.value.origin == Str(s) && r.value.value == Str(s)
    ensures r.Ok? ==> r.value.cmp.Number? && r.value.cmp.x >= 0.0
  {
    match MatchAmountLetter(Upper(s))
    case None => Invalid(Capacity, Str(s))
    case Some((n, u)) =>
      // the unit is already upper case
      match ByteUnit(u)
      case Some(unit) => Plain(Capacity, Str(s), Number(Bytes(DigitsValue(n), unit) as real))
      case None => Invalid(Capacity, Str(s))
  }

  /** A size in bytes: `<n><unit>` or `<n><unit>B`, or bare digits meaning MiB. */
  function ParseCapacity(origin: Value): (r: Result<ParamValue, string>)
    ensures r.Ok? ==> r.value.kind == Capacity && r.value.value == r.value.origin
    ensures r.Ok? ==> r.value.cmp.Number? && r.value.cmp.x >= 0.0
  {
    if !Truthy(origin) then Plain(Capacity, origin, Number(0.0))
    else CapacityOfText(Strip(PyStr(origin)))
  }

  /** The stripped text of a size. */
  function CapacityOfText(s: string): (r: Result<ParamValue, string>)
    ensures r.Ok? ==> r.value.kind == Capacity && r.value.value == r.value.origin
    ensures r.Ok? ==> r.value.cmp.Number? && r.value.cmp.x >= 0.0
  {
    if IsDecimal(s) then Plain(Capacity, Str(s), Number(Bytes(DigitsValue(s), 1048576) as real))
    else CapacityOfWord(s)
  }

  /** A number, an upper-case letter and an optional `B` split after the digits. */
  lemma MatchAmountLetterOf(n: string, u: char, suffix: string)
    requires IsDecimal(n) && 'A' <= u <= 'Z' && (suffix == "" || suffix == "B")
    ensures MatchAmountLetter(n + [u] + suffix) == Some((n, u))
  {
    var s := n + [u] + suffix;
    assert s == n + ([u] + suffix);
    LeadingDigitsOfPrefix(n, [u] + suffix);
    assert s[..|n|] == n && s[|n|] == u && s[|n| + 1..] == suffix;
  }

  /** A non-empty string value without surrounding white space is read as its text. */
  lemma ParseCapacityOfText(s: string)
    requires |s| > 0 && Strip(s) == s
    ensures ParseCapacity(Str(s)) == CapacityOfText(s)
  {
    assert Truthy(Str(s)) && PyStr(Str(s)) == s;
  }

  /** Such a string is its own `strip()` and `upper()`, and is not all digits. */
  lemma CapacityTextShape(n: string, u: char, suffix: string)
    requires IsDecimal(n) && 'A' <= u <= 'Z' && (suffix == "" || suffix == "B")
    ensures var s := n + [u] + suffix; Strip(s) == s && Upper(s) == s && !IsDecimal(s)
  {
    var s := n + [u] + suffix;
    assert s[0] == n[0] && !IsDigit(s[|n|]);
    assert s[|s| - 1] == u || s[|s| - 1] == 'B';
    StripUnchanged(s);
    assert forall k :: 0 <= k < |s| ==> IsDigit(s[k]) || 'A' <= s[k] <= 'Z' by {
      forall k | 0 <= k < |s| ensures IsDigit(s[k]) || 'A' <= s[k] <= 'Z' {
        if k > |n| { assert s[k] == suffix[k - |n| - 1]; }
      }
    }
    UpperUnchanged(s);
  }

  /** `<n><unit>` and `<n><unit>B` for an upper-case unit letter of the table
      are `n` times the unit; any other upper-case letter is an error. */
  lemma CapacityOfUnit(n: string, u: char, suffix: string)
    requires IsDecimal(n) && 'A' <= u <= 'Z' && (suffix == "" || suffix == "B")
    ensures var r := ParseCapacity(Str(n + [u] + suffix));
            && (ByteUnit(u).Some? ==> r.Ok? && r.value.cmp == Number(Bytes(DigitsValue(n), ByteUnit(u).value) as real))
            && (ByteUnit(u).None? ==> r.Err?)
  {
    var s := n + [u] + suffix;
    CapacityTextShape(n, u, suffix);
    ParseCapacityOfText(s);
    MatchAmountLetterOf(n, u, suffix);
    CapacityOfMatch(s, n, u);
  }

  /** An upper-case size whose match is `(n, u)` is `n` units of `u`. */
  lemma CapacityOfMatch(s: string, n: string, u: char)
    requires Upper(s) == s && MatchAmountLetter(s) == Some((n, u))
    ensures var r := CapacityOfWord(s);
            && (ByteUnit(u).Some? ==> r.Ok? && r.value.cmp == Number(Bytes(DigitsValue(n), ByteUnit(u).value) as real))
            && (ByteUnit(u).None? ==> r.Err?)
  {
  }

  /** Bare digits are mebibytes. */
  lemma CapacityBareDigits(n: string)
    requires IsDecimal(n)
    ensures ParseCapacity(Str(n)) == Plain(Capacity, Str(n), Number(Bytes(DigitsValue(n), 1048576) as real))
  {
    StripUnchanged(n);
    ParseCapacityOfText(n);
  }

  /** `2048` alone is 2048 MiB, which is 2 GiB. */
  lemma CapacityTwoThousandMiB()
    ensures ParseCapacity(Str("2048")).Ok? && ParseCapacity(Str("2048")).value.cmp == Number(2147483648.0)
  {
    var d := "2048";
    assert d[..3] == "204" && d[..3][..2] == "20" && d[..3][..2][..1] == "2";
    assert DigitsValue("2") == 2;
    assert DigitsValue("20") == 20;
    assert DigitsValue("204") == 204;
    assert DigitsValue(d) == 2048;
    CapacityBareDigits(d);
  }

  // ---------------------------------------------------------------- lists and dictionaries

  function Strs(words: seq<string>): (r: seq<Value>)
    ensures |r| == |words| && forall k :: 0 <= k < |r| ==> r[k] == Str(words[k])
  {
    seq(|words|, k requires 0 <= k < |words| => Str(words[k]))
  }

  /** A `;`-separated list of strings, compared as the list of its parts. */
  function ParseStringList(origin: Value): (r: Result<ParamValue, string>)
    ensures r.Ok?
    ensures r.value.kind == StringList && r.value.value == r.value.origin
    ensures Truthy(origin) ==>
              var s := Strip(PyStr(origin));
              r.value.origin == Str(s) && r.value.cmp == Structure(List(Strs(Split(s, ";"))))
  {
    if !Truthy(origin) then Plain(StringList, origin, Structure(List([])))
    else
      var s := Strip(PyStr(origin));
      Plain(StringList, Str(s), Structure(List(Strs(Split(s, ";")))))
  }

  /** The texts of a list of string values. */
  function Texts(items: seq<Value>): (r: seq<string>)
    requires forall k :: 0 <= k < |items| ==> items[k].Str?
    ensures |r| == |items| && forall k :: 0 <= k < |r| ==> items[k] == Str(r[k])
  {
    seq(|items|, k requires 0 <= k < |items| => items[k].s)
  }

  /** The parts of a text split at `;` are strings that join back into the text. */
  lemma PartsJoin(s: string)
    ensures var items := Strs(Split(s, ";"));
            && |items| >= 1 && (forall k :: 0 <= k < |items| ==> items[k].Str?)
            && Join(Texts(items), ";") == s
  {
    var parts := Split(s, ";");
    JoinSplit(s, ";");
    assert Texts(Strs(parts)) == parts;
  }

  /** The parts of a string list joined with `;` give back the stripped text. */
  lemma StringListParts(origin: Value)
    requires Truthy(origin)
    ensures ParseStringList(origin).value.cmp.v.List?
    ensures var items := ParseStringList(origin).value.cmp.v.items;
            && |items| >= 1 && (forall k :: 0 <= k < |items| ==> items[k].Str?)
            && Join(Texts(items), ";") == Strip(PyStr(origin))
  {
    PartsJoin(Strip(PyStr(origin)));
  }

  /** A dictionary, or an empty value meaning the empty dictionary. */
  function ParseDict(origin: Value): (r: Result<ParamValue, string>)
    ensures r.Ok? <==> !Truthy(origin) || origin.Dict?
    ensures r.Ok? ==> r.value.kind == DictItem && r.value.cmp == Structure(r.value.value)
    ensures r.Ok? && Truthy(origin) ==> r.value.value == origin
    ensures r.Ok? && !Truthy(origin) ==> r.value.value == Dict([])
  {
    if !Truthy(origin) then Ok(ParamValue(DictItem, origin, Dict([]), Structure(Dict([]))))
    else if !origin.Dict? then Invalid(DictItem, origin)
    else Plain(DictItem, origin, Structure(origin))
  }

  /** A list, or an empty value meaning the empty list. */
  function ParseList(origin: Value): (r: Result<ParamValue, string>)
    ensures r.Ok? <==> !Truthy(origin) || origin.List?
    ensures r.Ok? ==> r.value.kind == ListItem && r.value.cmp == Structure(r.value.value)
    ensures r.Ok? && Truthy(origin) ==> r.value.value == origin
    ensures r.Ok? && !Truthy(origin) ==> r.value.value == List([])
  {
    if !Truthy(origin) then Ok(ParamValue(ListItem, origin, List([]), Structure(List([]))))
    else if !origin.List? then Invalid(ListItem, origin)
    else Plain(ListItem, origin, Structure(origin))
  }

  /** An item of a string-or-key-value list: skipped when empty, otherwise a
      string or a dictionary with exactly one key. */
  predicate KvItemAccepted(item: Value) {
    !Truthy(item) || item.Str? || (item.Dict? && |Keys(item.entries)| == 1)
  }

  function ParseStringOrKvList(origin: Value): (r: Result<ParamValue, string>)
    ensures r.Ok? <==> !Truthy(origin) || (origin.List? && forall k :: 0 <= k < |origin.items| ==> KvItemAccepted(origin.items[k]))
    ensures r.Ok? ==> r.value.kind == StringOrKvList && r.value.cmp == Structure(r.value.value)
    ensures r.Ok? && Truthy(origin) ==> r.value.value == origin
  {
    if !Truthy(origin) then Ok(ParamValue(StringOrKvList, origin, List([]), Structure(List([]))))
    else if !origin.List? then Invalid(StringOrKvList, origin)
    else if forall k :: 0 <= k < |origin.items| ==> KvItemAccepted(origin.items[k]) then
      Plain(StringOrKvList, origin, Structure(origin))
    else Invalid(StringOrKvList, origin)
  }

  // ---------------------------------------------------------------- Boolean, Integer, String

  function BoolValue(origin: Value, b: bool): Result<ParamValue, string> {
    Ok(ParamValue(Boolean, origin, Bool(b), Number(if b then 1.0 else 0.0)))
  }

  /** `Boolean` as the repository writes it: a digit string is read by the
      truthiness of the raw value, so the string `"0"` is true. */
  function ParseBooleanAsWritten(origin: Value): (r: Result<ParamValue, string>)
    ensures r.Ok? ==> r.value.kind == Boolean && r.value.value.Bool?
  {
    if origin.Bool? then BoolValue(origin, origin.b)
    else
      var s := Lower(PyStr(origin));
      if s == "true" then BoolValue(origin, true)
      else if s == "false" then BoolValue(origin, false)
      else if IsDecimal(s) then BoolValue(origin, Truthy(origin))
      else Invalid(Boolean, origin)
  }

  /** A boolean: `true`/`false` in any case, or digits read as a number. */
  function ParseBoolean(origin: Value): (r: Result<ParamValue, string>)
    ensures r.Ok? ==> r.value.kind == Boolean && r.value.value.Bool?
    ensures r.Ok? ==> r.value.cmp == Number(if r.value.value.b then 1.0 else 0.0)
  {
    if origin.Bool? then BoolValue(origin, origin.b)
    else
      var s := Lower(PyStr(origin));
      if s == "true" then BoolValue(origin, true)
      else if s == "false" then BoolValue(origin, false)
      else if IsDecimal(s) then BoolValue(origin, DigitsValue(s) != 0)
      else Invalid(Boolean, origin)
  }

  /** A digit string is true exactly when its number is not zero; as written,
      the string `"0"` comes out true. */
  lemma BooleanOfDigits(s: string)
    requires IsDecimal(s)
    ensures ParseBoolean(Str(s)).Ok? && ParseBoolean(Str(s)).value.value == Bool(DigitsValue(s) != 0)
    ensures ParseBooleanAsWritten(Str(s)).Ok? && ParseBooleanAsWritten(Str(s)).value.value == Bool(true)
  {
    assert Lower(s) == s;
    assert s != "true" && s != "false" by {
      assert IsDigit(s[0]);
      assert !IsDigit("true"[0]) && !IsDigit("false"[0]);
    }
  }

  /** The one-character case of the finding. */
  lemma BooleanZeroString()
    ensures ParseBooleanAsWritten(Str("0")).value.value == Bool(true)
    ensures ParseBoolean(Str("0")).value.value == Bool(false)
  {
    BooleanOfDigits("0");
  }

  predicate DigitsOrUnderscores(b: string) {
    forall k :: 0 <= k < |b| ==> IsDigit(b[k]) || b[k] == '_'
  }

  /** Decimal digits with single underscores between them, as `int()` takes them. */
  predicate GroupedDigits(b: string) {
    && |b| > 0 && IsDigit(b[0]) && IsDigit(b[|b| - 1]) && DigitsOrUnderscores(b)
    && NoDoubleUnderscore(b)
  }

  /** No two underscores in a row. */
  predicate NoDoubleUnderscore(b: string) {
    |b| < 2 || (!(b[0] == '_' && b[1] == '_') && NoDoubleUnderscore(b[1..]))
  }

  function DropUnderscores(b: string): (r: string)
    ensures DigitsOrUnderscores(b) ==> AllDigits(r)
    ensures AllDigits(b) ==> r == b
  {
    if |b| == 0 then ""
    else (if b[0] == '_' then "" else [b[0]]) + DropUnderscores(b[1..])
  }

  /** The sign and digit groups of `int()`'s text; `None` when it is not one. */
  function IntBody(t: string): (r: Option<(bool, string)>)
    ensures r.Some? ==> GroupedDigits(r.value.1)
  {
    var signed := |t| > 0 && (t[0] == '-' || t[0] == '+');
    var body := if signed then t[1..] else t;
    if GroupedDigits(body) then
      assert signed ==> t == [t[0]] + body;
      Some((signed && t[0] == '-', body))
    else None
  }

  /** Python's `int(s)` on a string: surrounding white space, an optional sign
      and digits grouped by underscores. */
  function ParseIntText(s: string): (r: Option<int>)
    ensures r.Some? <==> IntBody(Strip(s)).Some?
  {
    match IntBody(Strip(s))
    case None => None
    case Some((negative, body)) =>
      var n: int := DigitsValue(DropUnderscores(body));
      Some(if negative then -n else n)
  }

  /** A plain decimal string is its own digit group. */
  lemma DecimalGrouped(d: string)
    requires IsDecimal(d)
    ensures GroupedDigits(d) && DropUnderscores(d) == d
  {
    DigitsHaveNoDoubleUnderscore(d);
  }

  lemma {:induction false} DigitsHaveNoDoubleUnderscore(d: string)
    requires AllDigits(d)
    ensures NoDoubleUnderscore(d)
  {
    if |d| >= 2 {
      DigitsHaveNoDoubleUnderscore(d[1..]);
    }
  }

  /** A decimal string is read as its number. */
  lemma IntBodyOfDecimal(d: string)
    requires IsDecimal(d)
    ensures IntBody(d) == Some((false, d))
  {
    DecimalGrouped(d);
    assert !IsDigit('-') && !IsDigit('+') && IsDigit(d[0]);
  }

  /** A minus sign before a decimal string makes it negative. */
  lemma IntBodyOfNegative(s: string, d: string)
    requires IsDecimal(d) && |s| > 0 && s[0] == '-' && s[1..] == d
    ensures IntBody(s) == Some((true, d))
  {
    DecimalGrouped(d);
  }

  /** `int(str(i)) == i`. */
  lemma IntTextRoundTrip(i: int)
    ensures ParseIntText(IntToString(i)) == Some(i)
  {
    var m: nat := if i < 0 then -i else i;
    var digits := NatToString(m);
    DigitsOfNatToString(m);
    var s := IntToString(i);
    if i < 0 {
      assert s[1..] == digits;
      IntBodyOfNegative(s, digits);
    } else {
      IntBodyOfDecimal(digits);
    }
    assert s[|s| - 1] == digits[|digits| - 1];
    StripUnchanged(s);
  }

  /** An integer; `None` is 0 (and becomes the raw value 0). */
  function ParseInteger(origin: Value): (r: Result<ParamValue, string>)
    ensures r.Ok? ==> r.value.kind == Integer && r.value.value.Int? && r.value.cmp == Number(r.value.value.i as real)
    ensures origin.PyNone? ==> r == Ok(ParamValue(Integer, Int(0), Int(0), Number(0.0)))
  {
    if origin.PyNone? then Plain(Integer, Int(0), Number(0.0))
    else
      match ParseIntText(PyStr(origin))
      case None => Invalid(Integer, origin)
      case Some(n) => Ok(ParamValue(Integer, origin, Int(n), Number(n as real)))
  }

  /** Every integer parses to itself. */
  lemma IntegerOfInt(i: int)
    ensures ParseInteger(Int(i)) == Ok(ParamValue(Integer, Int(i), Int(i), Number(i as real)))
  {
    IntTextRoundTrip(i);
  }

  /** A string holding an integer parses to that integer and keeps the string as its origin. */
  lemma IntegerOfString(v: Value, i: int)
    requires v.Str? && ParseIntText(v.s) == Some(i)
    ensures ParseInteger(v) == Ok(ParamValue(Integer, v, Int(i), Number(i as real)))
  {
  }

  /** The text of every integer parses to it. */
  lemma IntegerOfText(i: int)
    ensures ParseInteger(Str(IntToString(i))) == Ok(ParamValue(Integer, Str(IntToString(i)), Int(i), Number(i as real)))
  {
    IntTextRoundTrip(i);
    IntegerOfString(Str(IntToString(i)), i);
  }

  /** A string; an empty value is the empty string. */
  function ParseString(origin: Value): (r: Result<ParamValue, string>)
    ensures r.Ok? && r.value.kind == StringItem && r.value.value.Str? && r.value.cmp == Word(r.value.value.s)
    ensures r.value.value == Str(if Truthy(origin) then PyStr(origin) else "")
  {
    var s := if Truthy(origin) then PyStr(origin) else "";
    Ok(ParamValue(StringItem, origin, Str(s), Word(s)))
  }

  /** Building a typed value of a given kind from a raw value. */
  function Parse(k: ParamKind, origin: Value): (r: Result<ParamValue, string>)
    ensures r.Ok? ==> r.value.kind == k
  {
    match k
    case Moment => ParseMoment(origin)
    case Time => ParseTime(origin)
    case Capacity => ParseCapacity(origin)
    case StringList => ParseStringList(origin)
    case DictItem => ParseDict(origin)
    case ListItem => ParseList(origin)
    case StringOrKvList => ParseStringOrKvList(origin)
    case Boolean => ParseBoolean(origin)
    case Integer => ParseInteger(origin)
    case StringItem => ParseString(origin)
  }

  // ---------------------------------------------------------------- comparisons

  /** `==` on comparison values; values of different sorts are unequal. */
  predicate SameCmp(x: CmpValue, y: CmpValue) {
    match (x, y)
    case (Number(a), Number(b)) => a == b
    case (Word(a), Word(b)) => a == b
    case (Structure(a), Structure(b)) => PyEq(a, b)
    case _ => false
  }

  /** `<` on comparison values: numbers and strings always compare, lists
      compare as Python lists do, and anything else is a `TypeError`. */
  function CmpLess(x: CmpValue, y: CmpValue): (r: Result<bool, string>)
    ensures (x.Number? && y.Number?) || (x.Word? && y.Word?) ==> r.Ok?
    ensures r.Ok? ==> (x.Number? && y.Number?) || (x.Word? && y.Word?) || (x.Structure? && y.Structure?)
    ensures x.Structure? && y.Structure? && (x.v.Dict? || y.v.Dict?) ==> r.Err?
    ensures r.Err? ==> r.error == "TypeError"
  {
    match (x, y)
    case (Number(a), Number(b)) => Ok(a < b)
    case (Word(a), Word(b)) => Ok(StrLess(a, b))
    case (Structure(a), Structure(b)) => PyLess(a, b)
    case _ => Err("TypeError")
  }

  /** `a == b`; nothing equals `None`. */
  predicate Equal(a: ParamValue, b: Option<ParamValue>) {
    b.Some? && SameCmp(a.cmp, b.value.cmp)
  }

  /** `a > b`; everything is greater than `None`. */
  function Greater(a: ParamValue, b: Option<ParamValue>): Result<bool, string> {
    if b.None? then Ok(true) else CmpLess(b.value.cmp, a.cmp)
  }

  function GreaterEq(a: ParamValue, b: Option<ParamValue>): Result<bool, string> {
    if b.None? then Ok(true) else if Equal(a, b) then Ok(true) else Greater(a, b)
  }

  /** `a < b`; nothing is less than `None`. */
  function Less(a: ParamValue, b: Option<ParamValue>): Result<bool, string> {
    if b.None? then Ok(false) else CmpLess(a.cmp, b.value.cmp)
  }

  /** `a <= b`; nothing is at most `None`. */
  function LessEq(a: ParamValue, b: Option<ParamValue>): Result<bool, string> {
    if b.None? then Ok(false) else if Equal(a, b) then Ok(true) else Less(a, b)
  }

  /** Against `None`: greater and greater-or-equal hold, the others do not. */
  lemma NoneComparisons(a: ParamValue)
    ensures !Equal(a, None)
    ensures Greater(a, None) == Ok(true) && GreaterEq(a, None) == Ok(true)
    ensures Less(a, None) == Ok(false) && LessEq(a, None) == Ok(false)
  {
  }

  /** Two numeric values compare as their numbers, in all five relations. */
  lemma NumberComparisons(a: ParamValue, b: ParamValue)
    requires a.cmp.Number? && b.cmp.Number?
    ensures Equal(a, Some(b)) <==> a.cmp.x == b.cmp.x
    ensures Greater(a, Some(b)) == Ok(a.cmp.x > b.cmp.x) && Less(a, Some(b)) == Ok(a.cmp.x < b.cmp.x)
    ensures GreaterEq(a, Some(b)) == Ok(a.cmp.x >= b.cmp.x) && LessEq(a, Some(b)) == Ok(a.cmp.x <= b.cmp.x)
    ensures Less(a, Some(b)) == Greater(b, Some(a))
  {
  }

  /** String lists compare as Python lists: two lists of one part each are
      ordered as their parts. */
  lemma OnePartListsCompare(a: string, b: string)
    requires |a| > 0 && |b| > 0 && a != b
    requires !IsSpace(a[0]) && !IsSpace(a[|a| - 1]) && !IsSpace(b[0]) && !IsSpace(b[|b| - 1])
    requires forall k :: 0 <= k < |a| ==> a[k] != ';'
    requires forall k :: 0 <= k < |b| ==> b[k] != ';'
    ensures Less(ParseStringList(Str(a)).value, Some(ParseStringList(Str(b)).value)) == Ok(StrLess(a, b))
  {
    OnePartCmp(a);
    OnePartCmp(b);
    OneWordLists(a, b);
  }

  /** Lists of one string each are ordered as the strings. */
  lemma OneWordLists(a: string, b: string)
    requires a != b
    ensures PyLess(List(Strs([a])), List(Strs([b]))) == Ok(StrLess(a, b))
  {
    var xs, ys := Strs([a]), Strs([b]);
    assert xs[0] == Str(a) && ys[0] == Str(b);
    assert !PyEq(xs[0], ys[0]);
    ListLessAtFirstDifference(xs, ys, 0);
  }

  lemma StrsAppend(a: seq<string>, b: seq<string>)
    ensures Strs(a + b) == Strs(a) + Strs(b)
  {
  }

  /** A string list's comparison value, for a text without surrounding blanks. */
  lemma StringListCmp(s: string)
    requires |s| > 0 && !IsSpace(s[0]) && !IsSpace(s[|s| - 1])
    ensures ParseStringList(Str(s)).value.cmp == Structure(List(Strs(Split(s, ";"))))
  {
    var v := Str(s);
    assert Truthy(v) && PyStr(v) == s;
    StripUnchanged(s);
    assert Strip(PyStr(v)) == s;
  }

  /** A string list of one part. */
  lemma OnePartCmp(s: string)
    requires |s| > 0 && !IsSpace(s[0]) && !IsSpace(s[|s| - 1])
    requires forall k :: 0 <= k < |s| ==> s[k] != ';'
    ensures ParseStringList(Str(s)).value.cmp == Structure(List(Strs([s])))
  {
    StringListCmp(s);
    assert ";" == [';'];
    SplitWithoutSeparator(s, ';');
  }

  /** A string list whose first part is `s`. */
  lemma FirstPartCmp(s: string, t: string)
    requires |s| > 0 && !IsSpace(s[0])
    requires |t| > 0 && !IsSpace(t[|t| - 1])
    requires forall k :: 0 <= k < |s| ==> s[k] != ';'
    ensures ParseStringList(Str(s + ";" + t)).value.cmp == Structure(List(Strs([s]) + Strs(Split(t, ";"))))
  {
    var u := s + ";" + t;
    assert u[0] == s[0] && u[|u| - 1] == t[|t| - 1];
    StringListCmp(u);
    assert ";" == [';'] && u == s + [';'] + t;
    SplitAtFirstSeparator(s, t, ';');
    StrsAppend([s], Split(t, ";"));
  }

  /** A string list is less than a longer one that continues it. */
  lemma StringListPrefixLess(s: string, t: string)
    requires |s| > 0 && !IsSpace(s[0]) && !IsSpace(s[|s| - 1])
    requires |t| > 0 && !IsSpace(t[|t| - 1])
    requires forall k :: 0 <= k < |s| ==> s[k] != ';'
    ensures Less(ParseStringList(Str(s)).value, Some(ParseStringList(Str(s + ";" + t)).value)) == Ok(true)
  {
    OnePartCmp(s);
    FirstPartCmp(s, t);
    ListPrefixLess(Strs([s]), Strs(Split(t, ";")));
  }

  /** Two sizes written with unit letters compare by their numbers of bytes. */
  lemma CapacitiesCompareByBytes(n1: string, u1: char, s1: string, n2: string, u2: char, s2: string)
    requires IsDecimal(n1) && 'A' <= u1 <= 'Z' && (s1 == "" || s1 == "B") && ByteUnit(u1).Some?
    requires IsDecimal(n2) && 'A' <= u2 <= 'Z' && (s2 == "" || s2 == "B") && ByteUnit(u2).Some?
    ensures var a := ParseCapacity(Str(n1 + [u1] + s1));
            var b := ParseCapacity(Str(n2 + [u2] + s2));
            var x := Bytes(DigitsValue(n1), ByteUnit(u1).value);
            var y := Bytes(DigitsValue(n2), ByteUnit(u2).value);
            && a.Ok? && b.Ok?
            && (Equal(a.value, Some(b.value)) <==> x == y)
            && Less(a.value, Some(b.value)) == Ok(x < y)
  {
    CapacityOfUnit(n1, u1, s1);
    CapacityOfUnit(n2, u2, s2);
    NumberComparisons(ParseCapacity(Str(n1 + [u1] + s1)).value, ParseCapacity(Str(n2 + [u2] + s2)).value);
  }

  // ---------------------------------------------------------------- examples

  /** `90m` is 5400 seconds. */
  lemma NinetyMinutes()
    ensures ParseTime(Str("90m")).Ok? && ParseTime(Str("90m")).value.cmp == Number(5400.0)
  {
    var n, u := "90", "m";
    assert n[..1] == "9";
    assert DigitsValue(n) == 90;
    TimeOfUnit(n, u);
    assert n + u == "90m";
  }

  /** `1h` is the same duration as `60m`. */
  lemma HourIsSixtyMinutes()
    ensures ParseTime(Str("1h")).Ok? && ParseTime(Str("60m")).Ok?
    ensures Equal(ParseTime(Str("1h")).value, Some(ParseTime(Str("60m")).value))
  {
    var n1, u1, n2, u2 := "1", "h", "60", "m";
    assert n2[..1] == "6";
    assert DigitsValue(n1) == 1 && DigitsValue(n2) == 60;
    DurationsCompareBySeconds(n1, u1, n2, u2);
    assert n1 + u1 == "1h" && n2 + u2 == "60m";
  }
}
