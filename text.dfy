/**
 * The handful of Python string operations the chatbot, the monitor, the API
 * and the updater rely on, over `string` = `seq<char>` (one `char` per Unicode
 * code point, as a Python `str` indexes them): `str.isspace`, `str.strip`,
 * the `in` operator, `str.split`, `int(str)` and `str(int)`.
 */
module Text {
  import opened Wrappers

  // ---------------------------------------------------------------------------
  // Whitespace and str.strip()
  // ---------------------------------------------------------------------------

  /** `c.isspace()`: the code points Python treats as whitespace. */
  predicate IsSpace(c: char) {
    ('\t' <= c <= '\r') || ('\U{1C}' <= c <= '\U{1F}') || c == ' '
    || c == '\U{85}' || c == '\U{A0}' || c == '\U{1680}'
    || ('\U{2000}' <= c <= '\U{200A}') || c == '\U{2028}' || c == '\U{2029}'
    || c == '\U{202F}' || c == '\U{205F}' || c == '\U{3000}'
  }

  /** No whitespace character can be part of a number: a digit, a sign or an underscore. */
  lemma SpaceIsNotNumeric(c: char)
    ensures IsSpace(c) ==> !IsDigit(c) && c != '-' && c != '+' && c != '_'
  {
  }

  /** Number of whitespace code points at the start of `s`. */
  function LeadingSpaces(s: string): (n: nat)
    ensures n <= |s|
    ensures forall i :: 0 <= i < n ==> IsSpace(s[i])
    ensures n == |s| || !IsSpace(s[n])
  {
    if s != [] && IsSpace(s[0]) then 1 + LeadingSpaces(s[1..]) else 0
  }

  /** Number of whitespace code points at the end of `s`. */
  function TrailingSpaces(s: string): (n: nat)
    ensures n <= |s|
    ensures forall i :: |s| - n <= i < |s| ==> IsSpace(s[i])
    ensures n == |s| || !IsSpace(s[|s| - n - 1])
  {
    if s != [] && IsSpace(s[|s| - 1]) then 1 + TrailingSpaces(s[..|s| - 1]) else 0
  }

  /**
   * `s.strip()`: the longest contiguous piece of `s` that neither starts nor
   * ends with whitespace, with every non-whitespace code point of `s` inside it.
   */
  function Strip(s: string): (r: string)
    ensures |r| <= |s|
    ensures r == [] || (!IsSpace(r[0]) && !IsSpace(r[|r| - 1]))
    ensures LeadingSpaces(s) + |r| <= |s|
    ensures r == s[LeadingSpaces(s)..LeadingSpaces(s) + |r|]
    ensures forall i :: 0 <= i < |s| && !IsSpace(s[i]) ==>
              LeadingSpaces(s) <= i < LeadingSpaces(s) + |r|
  {
    var rest := s[LeadingSpaces(s)..];
    rest[..|rest| - TrailingSpaces(rest)]
  }

  /** `not s.strip()`: the string is empty or whitespace only. */
  predicate IsBlank(s: string)
    ensures IsBlank(s) <==> forall i :: 0 <= i < |s| ==> IsSpace(s[i])
  {
    Strip(s) == []
  }

  lemma {:induction false} LeadingSpacesAfterSpaces(pre: string, u: string)
    requires forall i :: 0 <= i < |pre| ==> IsSpace(pre[i])
    ensures LeadingSpaces(pre + u) == |pre| + LeadingSpaces(u)
  {
    if pre == [] {
      assert pre + u == u;
    } else {
      assert (pre + u)[0] == pre[0];
      assert (pre + u)[1..] == pre[1..] + u;
      LeadingSpacesAfterSpaces(pre[1..], u);
    }
  }

  lemma {:induction false} TrailingSpacesBeforeSpaces(u: string, post: string)
    requires forall i :: 0 <= i < |post| ==> IsSpace(post[i])
    ensures TrailingSpaces(u + post) == |post| + TrailingSpaces(u)
  {
    if post == [] {
      assert u + post == u;
    } else {
      var s := u + post;
      assert s[|s| - 1] == post[|post| - 1];
      assert s[..|s| - 1] == u + post[..|post| - 1];
      TrailingSpacesBeforeSpaces(u, post[..|post| - 1]);
    }
  }

  /** Stripping a string padded only with whitespace gives back the string inside. */
  lemma StripPadded(pre: string, t: string, post: string)
    requires forall i :: 0 <= i < |pre| ==> IsSpace(pre[i])
    requires forall i :: 0 <= i < |post| ==> IsSpace(post[i])
    requires t == [] || (!IsSpace(t[0]) && !IsSpace(t[|t| - 1]))
    ensures Strip(pre + t + post) == t
  {
    if t == [] {
      assert pre + t + post == pre + post;
      StripAllSpaces(pre + post);
    } else {
      StripAroundWord(pre, t, post);
    }
  }

  lemma StripAllSpaces(s: string)
    requires forall i :: 0 <= i < |s| ==> IsSpace(s[i])
    ensures Strip(s) == []
  {
    LeadingSpacesAfterSpaces(s, []);
    assert s + [] == s;
  }

  lemma StripAroundWord(pre: string, t: string, post: string)
    requires forall i :: 0 <= i < |pre| ==> IsSpace(pre[i])
    requires forall i :: 0 <= i < |post| ==> IsSpace(post[i])
    requires t != [] && !IsSpace(t[0]) && !IsSpace(t[|t| - 1])
    ensures Strip(pre + t + post) == t
  {
    var s := pre + t + post;
    assert s == pre + (t + post);
    LeadingSpacesAfterSpaces(pre, t + post);
    assert (t + post)[0] == t[0];
    assert LeadingSpaces(t + post) == 0;
    var rest := s[LeadingSpaces(s)..];
    assert rest == t + post;
    TrailingSpacesBeforeSpaces(t, post);
    assert TrailingSpaces(t) == 0;
    assert rest[..|rest| - TrailingSpaces(rest)] == t;
  }

  // ---------------------------------------------------------------------------
  // Substrings: `sub in s` and the first occurrence of a separator
  // ---------------------------------------------------------------------------

  /** `sub` occurs in `s` starting at index `i`. */
  predicate OccursAt(s: string, sub: string, i: nat) {
    i + |sub| <= |s| && s[i..i + |sub|] == sub
  }

  /** The first occurrence of `sub` in `s` at index `k` or later (`s.find(sub, k)`). */
  function FindFrom(s: string, sub: string, k: nat): (r: Option<nat>)
    requires k <= |s|
    decreases |s| - k
    ensures r.Some? ==> k <= r.value && OccursAt(s, sub, r.value)
    ensures forall i: nat :: k <= i && OccursAt(s, sub, i) ==> r.Some? && r.value <= i
  {
    if k + |sub| > |s| then None
    else if s[k..k + |sub|] == sub then Some(k)
    else FindFrom(s, sub, k + 1)
  }

  /** `s.find(sub)`: the first occurrence of `sub` in `s`, if any. */
  function Find(s: string, sub: string): (r: Option<nat>)
    ensures r.Some? ==> OccursAt(s, sub, r.value)
    ensures forall i: nat :: OccursAt(s, sub, i) ==> r.Some? && r.value <= i
  {
    FindFrom(s, sub, 0)
  }

  /** Python's `sub in s`. */
  predicate Contains(s: string, sub: string)
    ensures Contains(s, sub) <==> exists i: nat :: OccursAt(s, sub, i)
  {
    exists i: nat :: i <= |s| && OccursAt(s, sub, i)
  }

  /** A string holding a code point that `s` lacks cannot occur in `s`. */
  lemma NotContainsByWitness(s: string, sub: string, c: char)
    requires c in sub && c !in s
    ensures !Contains(s, sub)
  {
  }

  /** A string occurs in any string built around it. */
  lemma ContainsInside(pre: string, sub: string, post: string)
    ensures Contains(pre + sub + post, sub)
  {
    var s := pre + sub + post;
    assert s[|pre|..|pre| + |sub|] == sub;
    assert OccursAt(s, sub, |pre|);
  }

  /** `s.split(sep)[0]`: the text before the first `sep`, or all of `s`. */
  function BeforeFirst(s: string, sep: string): (r: string)
    requires sep != []
    ensures r <= s
    ensures Contains(s, sep) ==> OccursAt(s, sep, |r|) && !Contains(r + sep[..|sep| - 1], sep)
    ensures !Contains(s, sep) ==> r == s
  {
    match Find(s, sep)
    case None => s
    case Some(i) =>
      assert OccursAt(s, sep, i);
      var r := s[..i];
      assert !Contains(r + sep[..|sep| - 1], sep) by {
        if Contains(r + sep[..|sep| - 1], sep) {
          var j: nat :| OccursAt(r + sep[..|sep| - 1], sep, j);
          assert j < i;
          assert r + sep[..|sep| - 1] == s[..i + |sep| - 1];
          assert (r + sep[..|sep| - 1])[j..j + |sep|] == s[j..j + |sep|];
          assert OccursAt(s, sep, j);
        }
      }
      r
  }

  // ---------------------------------------------------------------------------
  // str.split(c) for a one-character separator, and its inverse
  // ---------------------------------------------------------------------------

  /** The index of the first `c` in `s`, if any. */
  function IndexOfChar(s: string, c: char): (r: Option<nat>)
    ensures r.Some? ==> r.value < |s| && s[r.value] == c && c !in s[..r.value]
    ensures r.None? ==> c !in s
  {
    if s == [] then None
    else if s[0] == c then Some(0)
    else match IndexOfChar(s[1..], c)
      case None => None
      case Some(i) =>
        assert s[..i + 1] == [s[0]] + s[1..][..i];
        Some(i + 1)
  }

  /** `sep.join(parts)` for a one-character separator. */
  function Join(parts: seq<string>, sep: char): string
    requires |parts| >= 1
  {
    if |parts| == 1 then parts[0] else parts[0] + [sep] + Join(parts[1..], sep)
  }

  /** `s.split(sep)`: the pieces between successive occurrences of `sep`. */
  function Split(s: string, sep: char): (parts: seq<string>)
    decreases |s|
    ensures |parts| >= 1
    ensures forall i :: 0 <= i < |parts| ==> sep !in parts[i]
    ensures Join(parts, sep) == s
  {
    match IndexOfChar(s, sep)
    case None => [s]
    case Some(i) =>
      var rest := Split(s[i + 1..], sep);
      assert s == s[..i] + [sep] + s[i + 1..];
      [s[..i]] + rest
  }

  /** Splitting a joined list of separator-free pieces gives the pieces back. */
  lemma {:induction false} SplitJoin(parts: seq<string>, sep: char)
    requires |parts| >= 1
    requires forall i :: 0 <= i < |parts| ==> sep !in parts[i]
    ensures Split(Join(parts, sep), sep) == parts
  {
    if |parts| > 1 {
      var s := Join(parts, sep);
      var tail := Join(parts[1..], sep);
      assert s == parts[0] + [sep] + tail;
      var k := IndexOfChar(s, sep);
      assert s[|parts[0]|] == sep;
      assert s[..|parts[0]|] == parts[0];
      assert k.Some? by { assert sep in s; }
      assert k.value == |parts[0]|;
      assert s[k.value + 1..] == tail;
      SplitJoin(parts[1..], sep);
    } else {
      assert parts[0] == Join(parts, sep);
    }
  }

  // ---------------------------------------------------------------------------
  // str(n) and int(s) in base ten
  // ---------------------------------------------------------------------------

  predicate IsDigit(c: char) { '0' <= c <= '9' }

  function DigitChar(d: nat): (c: char)
    requires d < 10
    ensures IsDigit(c) && DigitValue(c) == d
  {
    "0123456789"[d]
  }

  function DigitValue(c: char): nat
    requires IsDigit(c)
  {
    (c as int - '0' as int) as nat
  }

  /** `str(n)` for a non-negative integer: its decimal digits, most significant first. */
  function ShowNat(n: nat): (s: string)
    ensures s != []
    ensures forall i :: 0 <= i < |s| ==> IsDigit(s[i])
    ensures |s| > 1 ==> s[0] != '0'
  {
    if n < 10 then [DigitChar(n)] else ShowNat(n / 10) + [DigitChar(n % 10)]
  }

  /** The number a non-empty run of decimal digits denotes. */
  function DigitsValue(s: string): nat
    requires forall i :: 0 <= i < |s| ==> IsDigit(s[i])
  {
    if s == [] then 0 else 10 * DigitsValue(s[..|s| - 1]) + DigitValue(s[|s| - 1])
  }

  /**
   * The digit part that `int()` accepts: digits, where single underscores may
   * separate two digits.
   */
  predicate ValidDigits(s: string) {
    s != [] && IsDigit(s[0]) && IsDigit(s[|s| - 1])
    && (forall i :: 0 <= i < |s| ==> IsDigit(s[i]) || s[i] == '_')
    && (forall i :: 0 <= i < |s| - 1 && s[i] == '_' ==> s[i + 1] != '_')
  }

  /** `s` with every underscore removed. */
  function DropUnderscores(s: string): (r: string)
    ensures forall i :: 0 <= i < |r| ==> r[i] != '_' && r[i] in s
  {
    if s == [] then []
    else if s[|s| - 1] == '_' then DropUnderscores(s[..|s| - 1])
    else DropUnderscores(s[..|s| - 1]) + [s[|s| - 1]]
  }

  /** The value of the digits that `int()` accepts, or `None` when it raises `ValueError`. */
  function ParseDigits(s: string): (r: Option<nat>)
    ensures r.Some? <==> ValidDigits(s)
  {
    if ValidDigits(s) then
      var d := DropUnderscores(s);
      assert forall i :: 0 <= i < |d| ==> IsDigit(d[i]);
      Some(DigitsValue(d))
    else None
  }

  /**
   * `int(s)`: surrounding whitespace is ignored, an optional sign is accepted,
   * and anything else raises `ValueError`, here `None`.
   */
  function ParseInt(s: string): (r: Option<int>)
    ensures r.Some? <==>
              var t := Strip(s);
              t != [] && ValidDigits(if t[0] == '-' || t[0] == '+' then t[1..] else t)
    ensures r.Some? && Strip(s)[0] == '-' ==> r.value <= 0
    ensures r.Some? && Strip(s)[0] != '-' ==> r.value >= 0
  {
    var t := Strip(s);
    if t == [] then None
    else if t[0] == '-' || t[0] == '+' then
      match ParseDigits(t[1..])
      case None => None
      case Some(n) => var v: int := n; Some(if t[0] == '-' then -v else v)
    else
      match ParseDigits(t)
      case None => None
      case Some(n) => Some(n)
  }

  lemma {:induction false} DigitsValueOfShowNat(n: nat)
    ensures DigitsValue(ShowNat(n)) == n
  {
    if n >= 10 {
      var s := ShowNat(n);
      assert s[..|s| - 1] == ShowNat(n / 10);
      DigitsValueOfShowNat(n / 10);
    }
  }

  lemma {:induction false} DropUnderscoresOfDigits(s: string)
    requires forall i :: 0 <= i < |s| ==> IsDigit(s[i])
    ensures DropUnderscores(s) == s
  {
    if s != [] {
      DropUnderscoresOfDigits(s[..|s| - 1]);
    }
  }

  /** `int(str(n)) == n`, even with whitespace around the digits. */
  lemma ParseShowNat(pre: string, n: nat, post: string)
    requires forall i :: 0 <= i < |pre| ==> IsSpace(pre[i])
    requires forall i :: 0 <= i < |post| ==> IsSpace(post[i])
    ensures ParseInt(pre + ShowNat(n) + post) == Some(n)
  {
    var s := ShowNat(n);
    StripPadded(pre, s, post);
    assert ValidDigits(s);
    DropUnderscoresOfDigits(s);
    DigitsValueOfShowNat(n);
  }

  /** `f"{n:,}"`: the decimal digits of `n` with a comma between groups of three. */
  function ShowGrouped(n: nat): (s: string)
    ensures s != []
    ensures forall i :: 0 <= i < |s| ==> IsDigit(s[i]) || s[i] == ','
  {
    if n < 1000 then ShowNat(n)
    else ShowGrouped(n / 1000) + "," + [DigitChar(n % 1000 / 100), DigitChar(n % 100 / 10), DigitChar(n % 10)]
  }
}
