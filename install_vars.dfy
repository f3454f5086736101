/**
 * The `$name` substitution of an install plugin (`InstallPlugin.var_replace`):
 * every `$name` (the regular expression `\$(\w+)`) is replaced by the
 * variable named by its lower-cased name, scanning left to right; names
 * without a variable are left as they are, and replaced text is never
 * scanned again.
 */
module InstallPlugins {
  import opened Text
  import opened Values
  import opened Wrappers

  /** A `$` followed by a word character starts a reference at `k`. */
  predicate RefAt(s: string, k: int) {
    0 <= k < |s| - 1 && s[k] == '$' && IsWordChar(s[k + 1])
  }

  /** Length of the run of word characters that starts `s` (the greedy `\w*`). */
  function WordRun(s: string): (n: nat)
    ensures n <= |s|
    ensures forall i :: 0 <= i < n ==> IsWordChar(s[i])
    ensures n < |s| ==> !IsWordChar(s[n])
  {
    if |s| > 0 && IsWordChar(s[0]) then 1 + WordRun(s[1..]) else 0
  }

  /** The end of the reference that starts at `k`. */
  function RefEnd(s: string, k: int): (e: nat)
    requires RefAt(s, k)
    ensures k + 2 <= e <= |s|
  {
    k + 1 + WordRun(s[k + 1..])
  }

  /** The first position at or after `from` where a reference starts. */
  function SearchFrom(s: string, from: nat): (r: Option<nat>)
    ensures r.Some? ==> from <= r.value && RefAt(s, r.value)
    ensures r.Some? ==> forall k :: from <= k < r.value ==> !RefAt(s, k)
    ensures r.None? ==> forall k :: from <= k ==> !RefAt(s, k)
    decreases |s| - from
  {
    if from + 1 >= |s| then None
    else if RefAt(s, from) then Some(from)
    else SearchFrom(s, from + 1)
  }

  /** `re.search(r"\$(\w+)", s).span()`: the leftmost reference, with its end. */
  function Search(s: string): (r: Option<(nat, nat)>)
    ensures r.Some? ==> RefAt(s, r.value.0) && r.value.1 == RefEnd(s, r.value.0)
    ensures r.Some? ==> forall k :: 0 <= k < r.value.0 ==> !RefAt(s, k)
    ensures r.None? ==> forall k :: !RefAt(s, k)
  {
    match SearchFrom(s, 0)
    case None => None
    case Some(start) => Some((start, RefEnd(s, start)))
  }

  /** The search finds the first reference from `from` on. */
  lemma {:induction false} SearchFromFirst(s: string, from: nat, p: nat)
    requires from <= p && RefAt(s, p) && forall k :: from <= k < p ==> !RefAt(s, k)
    ensures SearchFrom(s, from) == Some(p)
    decreases p - from
  {
    if from < p {
      assert !RefAt(s, from);
      SearchFromFirst(s, from + 1, p);
    }
  }

  /** The search finds the first reference. */
  lemma SearchFirst(s: string, p: nat)
    requires RefAt(s, p) && forall k :: 0 <= k < p ==> !RefAt(s, k)
    ensures Search(s) == Some((p, RefEnd(s, p)))
  {
    SearchFromFirst(s, 0, p);
  }

  /** A reference in a suffix is a reference of the whole string, with the same name. */
  lemma RefShift(s: string, e: nat, k: int)
    requires e <= |s| && RefAt(s[e..], k)
    ensures RefAt(s, e + k) && RefEnd(s[e..], k) + e == RefEnd(s, e + k)
    ensures RefWord(s[e..], k) == RefWord(s, e + k)
  {
    assert s[e..][k + 1..] == s[e + k + 1..];
  }

  /** The name of the reference that starts at `k`. */
  function RefWord(s: string, k: int): string
    requires RefAt(s, k)
  {
    s[k + 1..RefEnd(s, k)]
  }

  /** What replaces the reference `$<word>`: the variable's `str()` when the
      lower-cased word names one, otherwise the reference itself. */
  function Replacement(word: string, vars: map<string, Value>): string {
    var name := Lower(word);
    if name in vars then PyStr(vars[name]) else "$" + word
  }

  /** The substitution, one reference at a time from the left. */
  function Substitute(s: string, vars: map<string, Value>): string
    decreases |s|
  {
    match Search(s)
    case None => s
    case Some((start, end)) =>
      s[..start] + Replacement(s[start + 1..end], vars) + Substitute(s[end..], vars)
  }

  /** `var_replace(s, vars)`: an empty mapping leaves the string alone. */
  function Expand(s: string, vars: map<string, Value>): string {
    if |vars| == 0 then s else Substitute(s, vars)
  }

  /** `''.join(parts)`. */
  function Concat(parts: seq<string>): string {
    if |parts| == 0 then "" else Concat(parts[..|parts| - 1]) + parts[|parts| - 1]
  }

  lemma ConcatAppend(parts: seq<string>, x: string)
    ensures Concat(parts + [x]) == Concat(parts) + x
  {
    assert (parts + [x])[..|parts|] == parts;
  }

  /** The substitution of a string whose first reference is known. */
  lemma SubstituteUnfold(s: string, vars: map<string, Value>, start: nat, end: nat)
    requires Search(s) == Some((start, end))
    ensures Substitute(s, vars) == s[..start] + Replacement(s[start + 1..end], vars) + Substitute(s[end..], vars)
  {
  }

  /** One step of the substitution: the text before the first reference, its
      replacement, and the substitution of what follows. */
  lemma SubstituteStep(rest: string, vars: map<string, Value>, start: nat, end: nat, done: seq<string>)
    requires Search(rest) == Some((start, end))
    ensures var replacement := Replacement(rest[start + 1..end], vars);
            Concat(done + [rest[..start]] + [replacement]) + Substitute(rest[end..], vars)
              == Concat(done) + Substitute(rest, vars)
  {
    var replacement := Replacement(rest[start + 1..end], vars);
    var tail := Substitute(rest[end..], vars);
    ConcatAppend(done, rest[..start]);
    ConcatAppend(done + [rest[..start]], replacement);
    SubstituteUnfold(rest, vars, start, end);
    Associative(Concat(done), rest[..start], replacement, tail);
  }

  lemma Associative(a: string, b: string, c: string, d: string)
    ensures a + b + c + d == a + (b + c + d)
  {
  }

  /** The loop of `var_replace`: the pieces before each reference and the
      replacements are collected in `done` and joined at the end. */
  method VarReplace(s: string, vars: map<string, Value>) returns (r: string)
    ensures r == Expand(s, vars)
  {
    if |vars| == 0 {
      return s;
    }
    var done: seq<string> := [];
    var rest := s;
    while |rest| > 0
      invariant Concat(done) + Substitute(rest, vars) == Substitute(s, vars)
      decreases |rest|
    {
      var m := Search(rest);
      if m.None? {
        ConcatAppend(done, rest);
        done := done + [rest];
        break;
      }
      var start, end := m.value.0, m.value.1;
      var replacement := Replacement(rest[start + 1..end], vars);
      SubstituteStep(rest, vars, start, end, done);
      done := done + [rest[..start]] + [replacement];
      rest := rest[end..];
    }
    r := Concat(done);
  }

  // ---------------------------------------------------------------- properties

  /** A string without references comes back unchanged. */
  lemma NoReferenceUnchanged(s: string, vars: map<string, Value>)
    requires forall k :: !RefAt(s, k)
    ensures Expand(s, vars) == s
  {
  }

  /** With no variables at all, even a string full of references comes back as it is. */
  lemma EmptyVarsUnchanged(s: string)
    ensures Expand(s, map[]) == s
  {
  }

  /** A single reference becomes its replacement and nothing more: the
      replacement text is not scanned again, even when it holds `$name`. */
  lemma SingleReference(word: string, vars: map<string, Value>)
    requires |word| > 0 && forall i :: 0 <= i < |word| ==> IsWordChar(word[i])
    requires |vars| > 0
    ensures Expand("$" + word, vars) == Replacement(word, vars)
  {
    var s := "$" + word;
    assert Search(s) == Some((0, |s|)) by {
      assert RefAt(s, 0) by { assert s[1] == word[0]; }
      assert RefEnd(s, 0) == |s| by { assert s[1..] == word; }
      SearchFirst(s, 0);
    }
    assert Substitute(s[|s|..], vars) == "" by {
      assert s[|s|..] == "";
      assert Search("").None?;
    }
    assert s[..0] + Replacement(s[1..|s|], vars) == Replacement(word, vars) by {
      assert s[..0] == "" && s[1..|s|] == word;
    }
    SubstituteUnfold(s, vars, 0, |s|);
  }

  /** References of a string behind a prefix without `$`. */
  lemma PrefixRefs(x: string, y: string, k: int)
    requires forall i :: 0 <= i < |x| ==> x[i] != '$'
    ensures RefAt(x + y, k) <==> k >= |x| && RefAt(y, k - |x|)
    ensures k >= |x| && RefAt(y, k - |x|) ==> RefEnd(x + y, k) == |x| + RefEnd(y, k - |x|)
  {
    var s := x + y;
    if 0 <= k < |x| {
      assert s[k] == x[k];
    } else if k >= |x| && k < |s| - 1 {
      assert s[k] == y[k - |x|] && s[k + 1] == y[k - |x| + 1];
      assert s[k + 1..] == y[k - |x| + 1..];
    }
  }

  /** Behind a prefix without `$`, the first reference is the first one of the rest. */
  lemma PrefixSearch(x: string, y: string)
    requires forall i :: 0 <= i < |x| ==> x[i] != '$'
    ensures Search(y).None? ==> Search(x + y).None?
    ensures Search(y).Some? ==> Search(x + y) == Some((|x| + Search(y).value.0, |x| + Search(y).value.1))
  {
    var s := x + y;
    match Search(y)
    case None =>
      forall k ensures !RefAt(s, k) {
        PrefixRefs(x, y, k);
      }
    case Some((start, end)) =>
      PrefixRefs(x, y, |x| + start);
      forall k | 0 <= k < |x| + start ensures !RefAt(s, k) {
        PrefixRefs(x, y, k);
      }
      SearchFirst(s, |x| + start);
  }

  /** Text without `$` before the first reference is copied as it is. */
  lemma PlainPrefix(x: string, y: string, vars: map<string, Value>)
    requires forall i :: 0 <= i < |x| ==> x[i] != '$'
    ensures Substitute(x + y, vars) == x + Substitute(y, vars)
  {
    PrefixSearch(x, y);
    if Search(y).Some? {
      var (start, end) := Search(y).value;
      PlainPrefixStep(x, y, vars, start, end);
    }
  }

  lemma PlainPrefixStep(x: string, y: string, vars: map<string, Value>, start: nat, end: nat)
    requires Search(y) == Some((start, end))
    requires Search(x + y) == Some((|x| + start, |x| + end))
    ensures Substitute(x + y, vars) == x + Substitute(y, vars)
  {
    var s := x + y;
    var a, b := |x| + start, |x| + end;
    var replacement := Replacement(y[start + 1..end], vars);
    var tail := Substitute(y[end..], vars);
    assert s[..a] == x + y[..start];
    assert s[a + 1..b] == y[start + 1..end];
    assert s[b..] == y[end..];
    SubstituteUnfold(s, vars, a, b);
    SubstituteUnfold(y, vars, start, end);
    Associative(x, y[..start], replacement, tail);
  }

  /** When no reference names a variable, the string comes back unchanged. */
  lemma {:induction false} UnknownNamesIntact(s: string, vars: map<string, Value>)
    requires forall k :: RefAt(s, k) ==> Lower(RefWord(s, k)) !in vars
    ensures Substitute(s, vars) == s
    decreases |s|
  {
    match Search(s)
    case None =>
    case Some((start, end)) =>
      var rest := s[end..];
      forall k | RefAt(rest, k) ensures Lower(RefWord(rest, k)) !in vars {
        RefShift(s, end, k);
      }
      UnknownNamesIntact(rest, vars);
      assert s[start + 1..end] == RefWord(s, start);
      assert s[start..end] == "$" + s[start + 1..end];
      assert s == s[..start] + s[start..end] + rest;
  }
}
