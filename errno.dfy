/**
 * Error codes and suggestions: a template carries a numeric code and a
 * message, its text is the message behind the prefix `OBD-<code>: ` with the
 * code zero-padded to four digits, and formatting a template gives an error
 * with the same code. Python's `str.format` is a parameter (`render`).
 */
module Errno {
  import opened Text
  import opened Values
  import opened Wrappers

  // ---------------------------------------------------------------- codes

  function Zeros(n: nat): (z: string)
    ensures |z| == n && AllDigits(z)
  {
    if n == 0 then "" else Zeros(n - 1) + "0"
  }

  /** `s` padded on the left with zeros to at least `width` characters. */
  function PadLeft(s: string, width: nat): (r: string)
    ensures |r| == if |s| < width then width else |s|
    ensures AllDigits(s) ==> AllDigits(r)
  {
    if |s| < width then Zeros(width - |s|) + s else s
  }

  /** `'%04d' % code`: at least four characters, the sign first. */
  function Pad4(code: int): string {
    if code < 0 then "-" + PadLeft(NatToString(-code), 3) else PadLeft(NatToString(code), 4)
  }

  datatype ErrorCode = ErrorCode(code: int, msg: string)

  /** `str()` of an error is its message. */
  function ErrorCodeStr(e: ErrorCode): string {
    e.msg
  }

  datatype ErrorCodeTemplate = ErrorCodeTemplate(code: int, msg: string, text: string)

  function Prefix(code: int): string {
    "OBD-" + Pad4(code) + ": "
  }

  function NewTemplate(code: int, msg: string): (t: ErrorCodeTemplate)
    ensures t.code == code && t.msg == msg
    ensures t.text == Prefix(code) + msg
  {
    ErrorCodeTemplate(code, msg, Prefix(code) + msg)
  }

  /** `str()` of a template is its bare message, without the prefix. */
  function TemplateStr(t: ErrorCodeTemplate): string {
    t.msg
  }

  /** `template.format(...)`: the same code, the prefixed text rendered. */
  function Format(t: ErrorCodeTemplate, render: string -> string): (e: ErrorCode)
    ensures e.code == t.code
  {
    ErrorCode(t.code, render(t.text))
  }

  // ---------------------------------------------------------------- suggestions

  datatype FixOperation = Del | Set

  /** The numeric constants of a fix operation. */
  function OperationNumber(op: FixOperation): nat {
    match op
    case Del => 0
    case Set => 1
  }

  datatype FixEval = FixEval(operation: FixOperation, key: string, value: Value, isGlobal: bool)

  /** A `fix_eval` argument: a list, or any other single value. */
  datatype FixArg = FixList(items: seq<FixArg>) | FixItem(fix: FixEval) | FixValue(v: Value)

  datatype Suggestion = Suggestion(msg: string, autoFix: Value, fixEval: FixArg)

  datatype SuggestionTemplate = SuggestionTemplate(msg: string, autoFix: Value, fixEval: FixArg)

  /** A non-list `fix_eval` becomes a one-element list. The default is `[]`
      and `auto_fix` defaults to `False`. */
  function NewSuggestionTemplate(msg: string, autoFix: Value, fixEval: FixArg): (t: SuggestionTemplate)
    ensures t.msg == msg && t.autoFix == autoFix
    ensures t.fixEval.FixList?
    ensures fixEval.FixList? ==> t.fixEval == fixEval
    ensures !fixEval.FixList? ==> t.fixEval.items == [fixEval]
  {
    SuggestionTemplate(msg, autoFix, if fixEval.FixList? then fixEval else FixList([fixEval]))
  }

  /** `template.format(..., auto_fix=..., fix_eval=...)`: each keyword given
      replaces the template's value as it is. */
  function FormatSuggestion(
    t: SuggestionTemplate, render: string -> string, autoFix: Option<Value>, fixEval: Option<FixArg>
  ): (s: Suggestion)
    ensures s.msg == render(t.msg)
    ensures s.autoFix == if autoFix.Some? then autoFix.value else t.autoFix
    ensures s.fixEval == if fixEval.Some? then fixEval.value else t.fixEval
  {
    Suggestion(render(t.msg), autoFix.GetOr(t.autoFix), fixEval.GetOr(t.fixEval))
  }

  // ---------------------------------------------------------------- check status

  datatype Status = Fail | Pass | Wait

  function StatusName(s: Status): string {
    match s
    case Fail => "FAIL"
    case Pass => "PASS"
    case Wait => "WAIT"
  }

  datatype CheckStatus = CheckStatus(status: Status, error: Option<ErrorCode>, suggests: seq<Suggestion>)

  /** `CheckStatus()`: waiting, with no error and no suggestion. */
  function NewCheckStatus(): (c: CheckStatus)
    ensures c.status == Wait && c.error.None? && |c.suggests| == 0
  {
    CheckStatus(Wait, None, [])
  }

  // ---------------------------------------------------------------- properties

  /** Zeros in front of a number do not change it. */
  lemma {:induction false} LeadingZeros(n: nat, s: string)
    requires AllDigits(s)
    ensures DigitsValue(Zeros(n) + s) == DigitsValue(s)
    decreases |s|, n
  {
    var z := Zeros(n) + s;
    if |s| == 0 {
      assert z == Zeros(n);
      if n > 0 {
        assert z[..|z| - 1] == Zeros(n - 1) + "";
        LeadingZeros(n - 1, "");
      }
    } else {
      assert z[..|z| - 1] == Zeros(n) + s[..|s| - 1];
      LeadingZeros(n, s[..|s| - 1]);
    }
  }

  /** A code from 0 to 9999 takes exactly four digits and reads back as the code. */
  lemma Pad4RoundTrip(code: int)
    requires 0 <= code
    ensures IsDecimal(Pad4(code)) && DigitsValue(Pad4(code)) == code
    ensures code < 10000 ==> |Pad4(code)| == 4
  {
    var s := NatToString(code);
    DigitsOfNatToString(code);
    if |s| < 4 {
      LeadingZeros(4 - |s|, s);
    }
    if code < 10000 {
      assert Pow10(4) == 10000;
      NatToStringLength(code, 4);
    }
  }

  function Pow10(k: nat): (p: nat)
    ensures p >= 1
  {
    if k == 0 then 1 else 10 * Pow10(k - 1)
  }

  /** A number below `10^k` has at most `k` digits. */
  lemma {:induction false} NatToStringLength(n: nat, k: nat)
    requires 1 <= k && n < Pow10(k)
    ensures |NatToString(n)| <= k
  {
    if n >= 10 {
      NatToStringLength(n / 10, k - 1);
    }
  }

  /** A negative code keeps its sign in front of three or more digits. */
  lemma Pad4Negative(code: int)
    requires code < 0
    ensures |Pad4(code)| >= 4 && Pad4(code)[0] == '-'
    ensures AllDigits(Pad4(code)[1..]) && DigitsValue(Pad4(code)[1..]) == -code
  {
    var s := NatToString(-code);
    DigitsOfNatToString(-code);
    if |s| < 3 {
      LeadingZeros(3 - |s|, s);
    }
    assert Pad4(code)[1..] == PadLeft(s, 3);
  }

  /** The formatted error begins with the code's prefix whenever rendering
      copies text without braces as it is, as `str.format` does. */
  lemma FormatKeepsPrefix(t: ErrorCodeTemplate, render: string -> string)
    requires t == NewTemplate(t.code, t.msg)
    requires forall p: string, s: string {:trigger render(p + s)} ::
               (forall i :: 0 <= i < |p| ==> p[i] != '{' && p[i] != '}') ==> render(p + s) == p + render(s)
    ensures Format(t, render).msg == Prefix(t.code) + render(t.msg)
  {
    var p := Prefix(t.code);
    PrefixHasNoBraces(t.code);
    assert t.text == p + t.msg;
  }

  /** The prefix is letters, digits, `-`, `:` and a space. */
  lemma PrefixHasNoBraces(code: int)
    ensures forall i :: 0 <= i < |Prefix(code)| ==> Prefix(code)[i] != '{' && Prefix(code)[i] != '}'
  {
    var d := if code < 0 then PadLeft(NatToString(-code), 3) else PadLeft(NatToString(code), 4);
    assert AllDigits(d);
    var p := Prefix(code);
    forall i | 0 <= i < |p| ensures p[i] != '{' && p[i] != '}' {
      if code < 0 {
        assert p == "OBD-" + "-" + d + ": ";
        if 5 <= i < 5 + |d| { assert p[i] == d[i - 5]; }
      } else {
        assert p == "OBD-" + d + ": ";
        if 4 <= i < 4 + |d| { assert p[i] == d[i - 4]; }
      }
    }
  }

  /** Formatting a suggestion without keywords keeps the template's fixes, always a list. */
  lemma SuggestionDefaults(msg: string, autoFix: Value, fixEval: FixArg, render: string -> string)
    ensures var s := FormatSuggestion(NewSuggestionTemplate(msg, autoFix, fixEval), render, None, None);
            s.autoFix == autoFix && s.fixEval.FixList? &&
            s.fixEval.items == if fixEval.FixList? then fixEval.items else [fixEval]
  {
  }

  /** `str()` of a template is the bare message, while the error it formats
      to carries the rendered text with the prefix. */
  lemma StrOmitsPrefix(code: int, msg: string, render: string -> string)
    ensures TemplateStr(NewTemplate(code, msg)) == msg
    ensures ErrorCodeStr(Format(NewTemplate(code, msg), render)) == render(Prefix(code) + msg)
  {
  }
}
