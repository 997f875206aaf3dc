/** The JavaScript string operations the core relies on, stated on `string`
    (`seq<char>`): `trim`, `String(n)` for integers, `Array.prototype.join`,
    `indexOf`, and `replace` with a string pattern. */
module Text {
  import opened Common

  /** The characters `String.prototype.trim` strips: ECMAScript WhiteSpace and
      LineTerminator code points. */
  predicate IsJsSpace(c: char) {
    || c == ' ' || c == '\t' || c == '\n' || c == '\r'
    || c == '\U{B}' || c == '\U{C}' || c == '\U{A0}' || c == '\U{FEFF}'
    || c == '\U{1680}' || ('\U{2000}' <= c <= '\U{200A}')
    || c == '\U{2028}' || c == '\U{2029}' || c == '\U{202F}'
    || c == '\U{205F}' || c == '\U{3000}'
  }

  /** Drops the leading white space: what is left is a suffix of `s`, every
      dropped character is white space, and the suffix does not start with one. */
  function TrimStart(s: string): (r: string)
    ensures |r| <= |s| && r == s[|s| - |r|..]
    ensures forall k :: 0 <= k < |s| - |r| ==> IsJsSpace(s[k])
    ensures r != [] ==> !IsJsSpace(r[0])
    decreases |s|
  {
    if s != [] && IsJsSpace(s[0]) then TrimStart(s[1..]) else s
  }

  /** Drops the trailing white space, symmetrically to `TrimStart`. */
  function TrimEnd(s: string): (r: string)
    ensures |r| <= |s| && r == s[..|r|]
    ensures forall k :: |r| <= k < |s| ==> IsJsSpace(s[k])
    ensures r != [] ==> !IsJsSpace(r[|r| - 1])
    decreases |s|
  {
    if s != [] && IsJsSpace(s[|s| - 1]) then TrimEnd(s[..|s| - 1]) else s
  }

  /** `String.prototype.trim`: no longer than `s`, and neither starting nor
      ending with white space. */
  function Trim(s: string): (r: string)
    ensures |r| <= |s|
    ensures r != [] ==> !IsJsSpace(r[0]) && !IsJsSpace(r[|r| - 1])
  {
    TrimEnd(TrimStart(s))
  }

  /** A string trims to the empty string exactly when it is all white space:
      this is JavaScript's "blank" test `!s.trim()`. */
  lemma TrimEmptyIffBlank(s: string)
    ensures Trim(s) == [] <==> forall k :: 0 <= k < |s| ==> IsJsSpace(s[k])
  {
    var a := TrimStart(s);
    if a != [] {
      var t := Trim(s);
      assert !IsJsSpace(t[0]);
      assert t[0] == a[0] == s[|s| - |a|];
    }
  }

  /** `s[i..j]` is `s` with all of its leading and trailing white space cut
      off: what is cut is white space, and what is kept neither starts nor
      ends with it. */
  predicate IsInnerSlice(s: string, i: int, j: int) {
    && 0 <= i <= j <= |s|
    && (forall k :: 0 <= k < i ==> IsJsSpace(s[k]))
    && (forall k :: j <= k < |s| ==> IsJsSpace(s[k]))
    && (i < j ==> !IsJsSpace(s[i]) && !IsJsSpace(s[j - 1]))
  }

  /** Cutting `n` characters off the front of the suffix `a` of `s` (from
      index `i`) keeps the slice of `s` from `i` to `i + n`, and white space
      after that slice in `a` is white space of `s`, at shifted positions. */
  lemma PrefixOfSuffix(s: string, i: nat, a: string, n: nat)
    requires i <= |s| && a == s[i..] && n <= |a|
    requires forall k :: n <= k < |a| ==> IsJsSpace(a[k])
    ensures a[..n] == s[i..i + n]
    ensures forall k :: i + n <= k < |s| ==> IsJsSpace(s[k])
  {
    forall k | i + n <= k < |s| ensures IsJsSpace(s[k]) {
      assert s[k] == a[k - i];
    }
  }

  /** A slice of `s` with only white space around it, that neither starts
      nor ends with white space, is its inner slice. */
  lemma InnerSliceOfParts(s: string, i: nat, t: string)
    requires i + |t| <= |s| && t == s[i..i + |t|]
    requires forall k :: 0 <= k < i ==> IsJsSpace(s[k])
    requires forall k :: i + |t| <= k < |s| ==> IsJsSpace(s[k])
    requires t != [] ==> !IsJsSpace(t[0]) && !IsJsSpace(t[|t| - 1])
    ensures IsInnerSlice(s, i, i + |t|)
  {
    if t != [] {
      assert s[i] == t[0] && s[i + |t| - 1] == t[|t| - 1];
    }
  }

  /** Trimming keeps the inner text verbatim: the result is the slice of `s`
      between its leading and its trailing white space. */
  lemma TrimIsInnerSlice(s: string)
    ensures exists i, j :: IsInnerSlice(s, i, j) && Trim(s) == s[i..j]
  {
    var a := TrimStart(s);
    var t := Trim(s);
    var i := |s| - |a|;
    PrefixOfSuffix(s, i, a, |t|);
    InnerSliceOfParts(s, i, t);
    assert IsInnerSlice(s, i, i + |t|) && t == s[i..i + |t|];
  }

  function DigitChar(d: nat): (c: char)
    requires d < 10
    ensures '0' <= c <= '9'
  {
    ['0', '1', '2', '3', '4', '5', '6', '7', '8', '9'][d]
  }

  /** Decimal rendering of a natural number, as `String(n)` gives it. */
  function NatToString(n: nat): (r: string)
    ensures r != []
    ensures forall k :: 0 <= k < |r| ==> '0' <= r[k] <= '9'
    decreases n
  {
    if n < 10 then [DigitChar(n)] else NatToString(n / 10) + [DigitChar(n % 10)]
  }

  /** `String(n)` for an integer: an optional minus sign and the decimal digits. */
  function IntToString(n: int): (r: string)
    ensures r != []
    ensures n >= 0 ==> r == NatToString(n)
    ensures n < 0 ==> r[0] == '-' && r[1..] == NatToString(-n)
    ensures '$' !in r
  {
    if n < 0 then "-" + NatToString(-n) else NatToString(n)
  }

  /** `parts.join(sep)`. */
  function Join(parts: seq<string>, sep: string): (r: string)
    ensures parts == [] ==> r == ""
    ensures |parts| == 1 ==> r == parts[0]
    decreases |parts|
  {
    if parts == [] then ""
    else if |parts| == 1 then parts[0]
    else parts[0] + sep + Join(parts[1..], sep)
  }

  /** Joining one more part appends the separator and that part. */
  lemma {:induction false} JoinSnoc(parts: seq<string>, last: string, sep: string)
    requires parts != []
    ensures Join(parts + [last], sep) == Join(parts, sep) + sep + last
    decreases |parts|
  {
    if |parts| > 1 {
      assert (parts + [last])[1..] == parts[1..] + [last];
      JoinSnoc(parts[1..], last, sep);
    }
  }

  /** `pat` occurs in `s` starting at index `i`. */
  predicate OccursAt(s: string, pat: string, i: nat) {
    i + |pat| <= |s| && s[i..i + |pat|] == pat
  }

  /** The first index at or after `from` where `pat` occurs. */
  function IndexFrom(s: string, pat: string, from: nat): (r: Option<nat>)
    requires from <= |s|
    ensures r.Some? ==> from <= r.value && OccursAt(s, pat, r.value)
    ensures r.Some? ==> forall k :: from <= k < r.value ==> !OccursAt(s, pat, k)
    ensures r.None? ==> forall k :: from <= k ==> !OccursAt(s, pat, k)
    decreases |s| - from
  {
    if OccursAt(s, pat, from) then Some(from)
    else if from == |s| then None
    else IndexFrom(s, pat, from + 1)
  }

  /** `s.indexOf(pat)`: the least index where `pat` occurs, if any. */
  function IndexOf(s: string, pat: string): (r: Option<nat>)
    ensures r.Some? ==> OccursAt(s, pat, r.value)
    ensures r.Some? ==> forall k :: 0 <= k < r.value ==> !OccursAt(s, pat, k)
    ensures r.None? <==> forall k :: !OccursAt(s, pat, k)
  {
    IndexFrom(s, pat, 0)
  }

  /** The replacement text `replace` inserts for one match of a string
      pattern (ECMAScript GetSubstitution with no capture groups): `$$` is a
      dollar sign, `$&` the matched text, `` $` `` the text before the match,
      `$'` the text after it; any other `$` stays literal. */
  function Substitution(repl: string, matched: string, before: string, after: string): (r: string)
    ensures '$' !in repl ==> r == repl
    ensures repl == "$&" ==> r == matched
    ensures repl == "$$" ==> r == "$"
    decreases |repl|
  {
    if |repl| >= 2 && repl[0] == '$' then
      if repl[1] == '$' then "$" + Substitution(repl[2..], matched, before, after)
      else if repl[1] == '&' then matched + Substitution(repl[2..], matched, before, after)
      else if repl[1] == '`' then before + Substitution(repl[2..], matched, before, after)
      else if repl[1] == '\'' then after + Substitution(repl[2..], matched, before, after)
      else "$" + Substitution(repl[1..], matched, before, after)
    else if repl == [] then []
    else
      assert forall c :: c in repl[1..] ==> c in repl;
      [repl[0]] + Substitution(repl[1..], matched, before, after)
  }

  /** `s.replace(pat, repl)` for a string `pat`: only the first occurrence is
      replaced; with no occurrence the string is returned as it is. */
  function ReplaceFirst(s: string, pat: string, repl: string): (r: string)
    ensures IndexOf(s, pat).None? ==> r == s
  {
    match IndexOf(s, pat)
    case None => s
    case Some(i) =>
      s[..i] + Substitution(repl, pat, s[..i], s[i + |pat|..]) + s[i + |pat|..]
  }

  /** `replace` splices the expanded replacement in at the first occurrence
      of `pat` and keeps the text before and after it verbatim, so any later
      occurrence of `pat` is still there. */
  lemma ReplaceFirstAt(s: string, pat: string, repl: string, i: nat)
    requires OccursAt(s, pat, i)
    requires forall k :: 0 <= k < i ==> !OccursAt(s, pat, k)
    ensures ReplaceFirst(s, pat, repl) == s[..i] + Substitution(repl, pat, s[..i], s[i + |pat|..]) + s[i + |pat|..]
  {
    assert IndexOf(s, pat) == Some(i);
  }

  /** With a dollar-free replacement the replacement itself is spliced in. */
  lemma ReplaceFirstOnly(s: string, pat: string, repl: string, i: nat)
    requires '$' !in repl
    requires OccursAt(s, pat, i)
    requires forall k :: 0 <= k < i ==> !OccursAt(s, pat, k)
    ensures ReplaceFirst(s, pat, repl) == s[..i] + repl + s[i + |pat|..]
  {
    ReplaceFirstAt(s, pat, repl, i);
  }
}
