/**
  The few Python string operations the core relies on, written out so that
  their behaviour is explicit: the substring test `sub in s`, `str.strip()`,
  `str.split(sep)` and `str(n)` for a non-negative integer.
 */
module PyStr {
  import opened Wrappers

  /** The characters for which Python's `str.isspace()` holds; `strip()` removes exactly these. */
  predicate IsSpace(c: char) {
    || ('\t' <= c <= '\r')
    || ('\U{1C}' <= c <= '\U{1F}')
    || c == ' '
    || c == '\U{85}'
    || c == '\U{A0}'
    || c == '\U{1680}'
    || ('\U{2000}' <= c <= '\U{200A}')
    || c == '\U{2028}'
    || c == '\U{2029}'
    || c == '\U{202F}'
    || c == '\U{205F}'
    || c == '\U{3000}'
  }

  predicate AllSpace(s: string) {
    forall k :: 0 <= k < |s| ==> IsSpace(s[k])
  }

  // ---------------------------------------------------------------------------
  // Substring search

  /** `sub` occurs in `s` starting at index `i`. */
  predicate OccursAt(s: string, sub: string, i: nat) {
    i + |sub| <= |s| && s[i..i + |sub|] == sub
  }

  /** The first index at or after `i` where `sub` occurs in `s`. */
  function IndexOfFrom(s: string, sub: string, i: nat): (r: Option<nat>)
    requires i <= |s|
    decreases |s| - i
  {
    if OccursAt(s, sub, i) then Some(i)
    else if i == |s| then None
    else IndexOfFrom(s, sub, i + 1)
  }

  /** `s.find(sub)`, with `None` for Python's `-1`. */
  function IndexOf(s: string, sub: string): (r: Option<nat>) {
    IndexOfFrom(s, sub, 0)
  }

  /** Python's `sub in s`. */
  function Contains(s: string, sub: string): (r: bool) {
    IndexOf(s, sub).Some?
  }

  lemma {:induction false} IndexOfFromCorrect(s: string, sub: string, i: nat)
    requires i <= |s|
    ensures IndexOfFrom(s, sub, i).Some? ==>
      var j := IndexOfFrom(s, sub, i).value;
      i <= j && OccursAt(s, sub, j) && forall k: nat :: i <= k < j ==> !OccursAt(s, sub, k)
    ensures IndexOfFrom(s, sub, i).None? ==> forall k: nat :: i <= k ==> !OccursAt(s, sub, k)
    decreases |s| - i
  {
    if !OccursAt(s, sub, i) && i < |s| {
      IndexOfFromCorrect(s, sub, i + 1);
    }
  }

  /** `s.find(sub)` is the first place where `sub` occurs, and there is none when it finds nothing. */
  lemma IndexOfCorrect(s: string, sub: string)
    ensures IndexOf(s, sub).Some? ==>
      OccursAt(s, sub, IndexOf(s, sub).value) && forall k: nat :: k < IndexOf(s, sub).value ==> !OccursAt(s, sub, k)
    ensures IndexOf(s, sub).None? <==> forall k: nat :: !OccursAt(s, sub, k)
  {
    IndexOfFromCorrect(s, sub, 0);
  }

  /** `sub in s` holds exactly when `sub` occurs somewhere in `s`. */
  lemma ContainsCorrect(s: string, sub: string)
    ensures Contains(s, sub) <==> exists k: nat :: OccursAt(s, sub, k)
  {
    IndexOfCorrect(s, sub);
  }

  // ---------------------------------------------------------------------------
  // strip()

  function StripLeading(s: string): (r: string)
    ensures |r| <= |s| && r == s[|s| - |r|..]
    ensures AllSpace(s[..|s| - |r|])
    ensures r == [] || !IsSpace(r[0])
  {
    if s != [] && IsSpace(s[0]) then StripLeading(s[1..]) else s
  }

  function StripTrailing(s: string): (r: string)
    ensures |r| <= |s| && r == s[..|r|]
    ensures AllSpace(s[|r|..])
    ensures r == [] || !IsSpace(r[|r| - 1])
  {
    if s != [] && IsSpace(s[|s| - 1]) then StripTrailing(s[..|s| - 1]) else s
  }

  /** `r` is what is left of `s` once `i` leading and some trailing whitespace characters are cut off. */
  predicate StrippedAt(s: string, r: string, i: nat) {
    i + |r| <= |s| && s[i..i + |r|] == r && AllSpace(s[..i]) && AllSpace(s[i + |r|..])
  }

  /** Python's `s.strip()`: the longest middle part with no whitespace at either end. */
  function Strip(s: string): (r: string)
    ensures exists i: nat :: StrippedAt(s, r, i)
    ensures r == [] || (!IsSpace(r[0]) && !IsSpace(r[|r| - 1]))
  {
    var t := StripLeading(s);
    var r := StripTrailing(t);
    var i := |s| - |t|;
    assert s[i..i + |r|] == r by {
      assert t == s[i..];
    }
    assert s[i + |r|..] == t[|r|..];
    assert StrippedAt(s, r, i);
    r
  }

  /** Stripping a string that has no whitespace at either end (for one, a stripped string) changes nothing. */
  lemma StripKeepsTrimmed(s: string)
    requires s == [] || (!IsSpace(s[0]) && !IsSpace(s[|s| - 1]))
    ensures Strip(s) == s
  {
  }

  lemma StripIdempotent(s: string)
    ensures Strip(Strip(s)) == Strip(s)
  {
    StripKeepsTrimmed(Strip(s));
  }

  /** Whitespace after a string that does not end in whitespace is exactly what `strip()` removes. */
  lemma {:induction false} StripTrailingSpace(s: string, tail: string)
    requires s == [] || (!IsSpace(s[0]) && !IsSpace(s[|s| - 1]))
    requires AllSpace(tail)
    ensures Strip(s + tail) == s
  {
    if s == [] {
      assert s + tail == tail;
      StripAllSpace(tail);
    } else {
      assert StripLeading(s + tail) == s + tail;
      StripTrailingOff(s, tail);
    }
  }

  lemma {:induction false} StripAllSpace(s: string)
    requires AllSpace(s)
    ensures StripLeading(s) == []
  {
    if s != [] {
      StripAllSpace(s[1..]);
    }
  }

  lemma {:induction false} StripTrailingOff(s: string, tail: string)
    requires s != [] && !IsSpace(s[|s| - 1])
    requires AllSpace(tail)
    ensures StripTrailing(s + tail) == s
    decreases |tail|
  {
    if tail == [] {
      assert s + tail == s;
    } else {
      var u := s + tail;
      assert u[..|u| - 1] == s + tail[..|tail| - 1];
      StripTrailingOff(s, tail[..|tail| - 1]);
    }
  }

  // ---------------------------------------------------------------------------
  // split(sep)

  /** The inverse of splitting: `sep.join(parts)`. */
  function JoinWith(parts: seq<string>, sep: string): (r: string)
  {
    if |parts| == 0 then ""
    else if |parts| == 1 then parts[0]
    else parts[0] + sep + JoinWith(parts[1..], sep)
  }

  lemma PrefixBeforeFirstOccurrence(s: string, sep: string, i: nat)
    requires i <= |s| && |sep| > 0
    requires forall k: nat :: k < i ==> !OccursAt(s, sep, k)
    ensures !Contains(s[..i], sep)
  {
    ContainsCorrect(s[..i], sep);
    forall k: nat | OccursAt(s[..i], sep, k)
      ensures false
    {
      assert s[..i][k..k + |sep|] == s[k..k + |sep|];
      assert OccursAt(s, sep, k);
    }
  }

  /**
    Python's `s.split(sep)` for a non-empty separator: the pieces between the
    left-to-right, non-overlapping occurrences of `sep`. Joining the pieces
    gives back `s`, and no piece contains `sep`.
   */
  function Split(s: string, sep: string): (parts: seq<string>)
    requires |sep| > 0
    ensures |parts| >= 1
    ensures JoinWith(parts, sep) == s
    ensures forall p :: p in parts ==> !Contains(p, sep)
    decreases |s|
  {
    IndexOfCorrect(s, sep);
    match IndexOf(s, sep)
    case None =>
      ContainsCorrect(s, sep);
      [s]
    case Some(i) =>
      var rest := Split(s[i + |sep|..], sep);
      var parts := [s[..i]] + rest;
      PrefixBeforeFirstOccurrence(s, sep, i);
      assert parts[1..] == rest;
      assert s == s[..i] + sep + s[i + |sep|..] by {
        assert s[i..i + |sep|] == sep;
      }
      parts
  }

  /** Splitting cuts at the first occurrence of the separator. */
  lemma SplitAtFirst(s: string, sep: string, i: nat)
    requires |sep| > 0 && IndexOf(s, sep) == Some(i)
    ensures i + |sep| <= |s|
    ensures Split(s, sep) == [s[..i]] + Split(s[i + |sep|..], sep)
    ensures var p := Split(s, sep)[0];
      OccursAt(s, sep, |p|) && forall k: nat :: k < |p| ==> !OccursAt(s, sep, k)
  {
    IndexOfCorrect(s, sep);
  }

  /** A string with no occurrence of `sep` splits into itself alone. */
  lemma SplitWithoutSeparator(s: string, sep: string)
    requires |sep| > 0 && !Contains(s, sep)
    ensures Split(s, sep) == [s]
  {
  }

  // ---------------------------------------------------------------------------
  // str(n) and int(s) for non-negative integers

  predicate IsDigit(c: char) {
    '0' <= c <= '9'
  }

  predicate AllDigits(s: string) {
    forall k :: 0 <= k < |s| ==> IsDigit(s[k])
  }

  function DigitChar(d: nat): (c: char)
    requires d < 10
    ensures IsDigit(c)
  {
    (48 + d) as char
  }

  function DigitValue(c: char): (d: nat)
    requires IsDigit(c)
    ensures d < 10 && DigitChar(d) == c
  {
    (c as int) - 48
  }

  /** Python's `int(s)` on a string of decimal digits. */
  function ParseDecimal(s: string): (n: nat)
    requires AllDigits(s)
  {
    if s == [] then 0 else ParseDecimal(s[..|s| - 1]) * 10 + DigitValue(s[|s| - 1])
  }

  /** Python's `str(n)`: decimal digits, the first nonzero unless `n` is zero. */
  function Decimal(n: nat): (r: string)
    ensures |r| >= 1 && AllDigits(r)
    ensures r[0] == '0' ==> r == "0"
    decreases n
  {
    if n < 10 then [DigitChar(n)] else Decimal(n / 10) + [DigitChar(n % 10)]
  }

  /** `int(str(n)) == n`. */
  lemma {:induction false} DecimalRoundTrip(n: nat)
    ensures ParseDecimal(Decimal(n)) == n
    decreases n
  {
    var r := Decimal(n);
    if n >= 10 {
      DecimalRoundTrip(n / 10);
      assert r[..|r| - 1] == Decimal(n / 10);
    }
  }

  /** Below 1000, and so for every speed byte, `str(n)` has at most three digits. */
  lemma DecimalWidth(n: nat)
    requires n < 1000
    ensures |Decimal(n)| <= 3
  {
    if n >= 10 {
      var m := n / 10;
      assert m < 100;
      assert |Decimal(n)| == |Decimal(m)| + 1;
      if m >= 10 {
        assert m / 10 < 10;
        assert |Decimal(m)| == |Decimal(m / 10)| + 1;
      }
    }
  }
}
