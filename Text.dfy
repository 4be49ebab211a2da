/**
 * Models of the Python string operations the core relies on: `str.strip()`,
 * `str.lower()`, `str.upper()`, `str.title()`, `str.join` and list
 * repetition. Stripping uses Python's full set of whitespace characters;
 * case mapping and title-casing are the ASCII part of Python's Unicode rules.
 */
module Text {

  /** The characters for which Python's `str.isspace()` holds. */
  const WHITESPACE: set<char> := {' ', '\t', '\n', '\U{000b}', '\U{000c}', '\r', '\U{001c}', '\U{001d}', '\U{001e}', '\U{001f}',
    '\U{0085}', '\U{00a0}', '\U{1680}', '\U{2000}', '\U{2001}', '\U{2002}', '\U{2003}', '\U{2004}', '\U{2005}',
    '\U{2006}', '\U{2007}', '\U{2008}', '\U{2009}', '\U{200a}', '\U{2028}', '\U{2029}', '\U{202f}', '\U{205f}', '\U{3000}'}
  predicate IsSpace(c: char) {
    c in WHITESPACE
  }

  predicate AllSpace(s: string) {
    forall i :: 0 <= i < |s| ==> IsSpace(s[i])
  }

  /** The scan `strip` starts with: from index `i`, the index of the first
      character that is not whitespace (or `|s|`). */
  function SkipSpaces(s: string, i: nat): (p: nat)
    requires i <= |s|
    ensures i <= p <= |s|
    ensures forall k :: i <= k < p ==> IsSpace(s[k])
    ensures p < |s| ==> !IsSpace(s[p])
    decreases |s| - i
  {
    if i < |s| && IsSpace(s[i]) then SkipSpaces(s, i + 1) else i
  }

  /** The scan `strip` ends with: moving down from `j` but not below `lo`,
      the end of the last character that is not whitespace (or `lo`). */
  function SkipSpacesBack(s: string, lo: nat, j: nat): (q: nat)
    requires lo <= j <= |s|
    ensures lo <= q <= j
    ensures forall k :: q <= k < j ==> IsSpace(s[k])
    ensures q > lo ==> !IsSpace(s[q - 1])
    decreases j
  {
    if j > lo && IsSpace(s[j - 1]) then SkipSpacesBack(s, lo, j - 1) else j
  }

  /** `s.strip()`: the slice between the leading and the trailing whitespace. */
  function Strip(s: string): (r: string)
  {
    var i := SkipSpaces(s, 0);
    s[i..SkipSpacesBack(s, i, |s|)]
  }

  /** SkipSpaces is determined by its contract. */
  lemma {:induction false} SkipSpacesIs(s: string, i: nat, p: nat)
    requires i <= p <= |s|
    requires forall k :: i <= k < p ==> IsSpace(s[k])
    requires p < |s| ==> !IsSpace(s[p])
    ensures SkipSpaces(s, i) == p
    decreases p - i
  {
    if i < p {
      SkipSpacesIs(s, i + 1, p);
    }
  }

  /** SkipSpacesBack is determined by its contract. */
  lemma {:induction false} SkipSpacesBackIs(s: string, lo: nat, j: nat, q: nat)
    requires lo <= q <= j <= |s|
    requires forall k :: q <= k < j ==> IsSpace(s[k])
    requires q > lo ==> !IsSpace(s[q - 1])
    ensures SkipSpacesBack(s, lo, j) == q
    decreases j - q
  {
    if q < j {
      SkipSpacesBackIs(s, lo, j - 1, q);
    }
  }

  /** Strip removes whitespace only at the two ends: its result is a slice
      of `s` with only whitespace before and after it, and it begins and
      ends with a character that is not whitespace unless it is empty. */
  lemma StripIsTrimmedSlice(s: string)
    ensures var i := SkipSpaces(s, 0); var j := i + |Strip(s)|;
      j <= |s| && Strip(s) == s[i..j]
      && (forall k :: 0 <= k < i ==> IsSpace(s[k]))
      && (forall k :: j <= k < |s| ==> IsSpace(s[k]))
    ensures Strip(s) != [] ==> !IsSpace(Strip(s)[0]) && !IsSpace(Strip(s)[|Strip(s)| - 1])
  {
  }

  /** Reference characterisation of `strip`: whatever whitespace surrounds a
      core that begins and ends with a character that is not whitespace,
      strip returns exactly that core. */
  lemma StripOfPadded(a: string, m: string, b: string)
    requires AllSpace(a) && AllSpace(b)
    requires m != [] ==> !IsSpace(m[0]) && !IsSpace(m[|m| - 1])
    ensures Strip(a + m + b) == m
  {
    var t := a + m + b;
    if m == [] {
      assert t == a + b;
      SkipSpacesIs(t, 0, |t|);
    } else {
      var i, j := |a|, |a| + |m|;
      assert t[i] == m[0] && t[j - 1] == m[|m| - 1];
      SkipSpacesIs(t, 0, i);
      assert forall k :: j <= k < |t| ==> t[k] == b[k - j];
      SkipSpacesBackIs(t, i, |t|, j);
      assert t[i..j] == m;
    }
  }

  /** Stripping twice is stripping once. */
  lemma StripIdempotent(s: string)
    ensures Strip(Strip(s)) == Strip(s)
  {
    var m := Strip(s);
    StripIsTrimmedSlice(s);
    SkipSpacesIs(m, 0, 0);
    SkipSpacesBackIs(m, 0, |m|, |m|);
    assert m[0..|m|] == m;
  }

  lemma SkipSpacesAfterPadding(a: string, s: string)
    requires AllSpace(a)
    ensures SkipSpaces(a + s, 0) == |a| + SkipSpaces(s, 0)
  {
    var t, d, i := a + s, |a|, SkipSpaces(s, 0);
    forall k | 0 <= k < d + i ensures IsSpace(t[k]) {
      if k < d { assert t[k] == a[k]; } else { assert t[k] == s[k - d]; }
    }
    if i < |s| { assert t[d + i] == s[i]; }
    SkipSpacesIs(t, 0, d + i);
  }

  lemma SkipSpacesBackAfterPrefix(a: string, s: string, i: nat)
    requires i <= |s|
    ensures SkipSpacesBack(a + s, |a| + i, |a + s|) == |a| + SkipSpacesBack(s, i, |s|)
  {
    var t, d, j := a + s, |a|, SkipSpacesBack(s, i, |s|);
    forall k | d + j <= k < |t| ensures IsSpace(t[k]) {
      assert t[k] == s[k - d];
    }
    if j > i { assert t[d + j - 1] == s[j - 1]; }
    SkipSpacesBackIs(t, d + i, |t|, d + j);
  }

  lemma StripIgnoresLeftPadding(a: string, s: string)
    requires AllSpace(a)
    ensures Strip(a + s) == Strip(s)
  {
    var d, i := |a|, SkipSpaces(s, 0);
    SkipSpacesAfterPadding(a, s);
    SkipSpacesBackAfterPrefix(a, s, i);
    var j := SkipSpacesBack(s, i, |s|);
    assert (a + s)[d + i..d + j] == s[i..j];
  }

  lemma SkipSpacesBeforePadding(s: string, b: string, i: nat)
    requires AllSpace(b) && i <= |s|
    ensures SkipSpacesBack(s + b, i, |s + b|) == SkipSpacesBack(s, i, |s|)
  {
    var t, j := s + b, SkipSpacesBack(s, i, |s|);
    forall k | j <= k < |t| ensures IsSpace(t[k]) {
      if k < |s| { assert t[k] == s[k]; } else { assert t[k] == b[k - |s|]; }
    }
    if j > i { assert t[j - 1] == s[j - 1]; }
    SkipSpacesBackIs(t, i, |t|, j);
  }

  lemma SkipSpacesWithSuffix(s: string, b: string)
    requires AllSpace(b)
    ensures var i := SkipSpaces(s, 0);
      SkipSpaces(s + b, 0) == if i < |s| then i else |s + b|
  {
    var t, i := s + b, SkipSpaces(s, 0);
    if i == |s| {
      forall k | 0 <= k < |t| ensures IsSpace(t[k]) {
        if k < |s| { assert t[k] == s[k]; } else { assert t[k] == b[k - |s|]; }
      }
      SkipSpacesIs(t, 0, |t|);
    } else {
      forall k | 0 <= k < i ensures IsSpace(t[k]) {
        assert t[k] == s[k];
      }
      assert t[i] == s[i];
      SkipSpacesIs(t, 0, i);
    }
  }

  lemma StripIgnoresRightPadding(s: string, b: string)
    requires AllSpace(b)
    ensures Strip(s + b) == Strip(s)
  {
    var t, i := s + b, SkipSpaces(s, 0);
    SkipSpacesWithSuffix(s, b);
    if i < |s| {
      SkipSpacesBeforePadding(s, b, i);
      var j := SkipSpacesBack(s, i, |s|);
      assert t[i..j] == s[i..j];
    }
  }

  /** Surrounding whitespace never changes the stripped value. */
  lemma StripIgnoresPadding(a: string, s: string, b: string)
    requires AllSpace(a) && AllSpace(b)
    ensures Strip(a + s + b) == Strip(s)
  {
    StripIgnoresRightPadding(a + s, b);
    StripIgnoresLeftPadding(a, s);
  }

  // ---------------------------------------------------------------------
  // Case mapping (ASCII letters; every other character maps to itself)

  predicate IsAsciiLetter(c: char) {
    'A' <= c <= 'Z' || 'a' <= c <= 'z'
  }

  function LowerChar(c: char): char {
    if 'A' <= c <= 'Z' then (c as int + 32) as char else c
  }

  function UpperChar(c: char): char {
    if 'a' <= c <= 'z' then (c as int - 32) as char else c
  }

  /** `s.lower()`. */
  function Lower(s: string): (r: string)
    ensures |r| == |s|
  {
    seq(|s|, i requires 0 <= i < |s| => LowerChar(s[i]))
  }

  /** `s.upper()`. */
  function Upper(s: string): (r: string)
    ensures |r| == |s|
  {
    seq(|s|, i requires 0 <= i < |s| => UpperChar(s[i]))
  }

  /** Lower-cased strings are fixed points of `lower`. */
  lemma LowerIdempotent(s: string)
    ensures Lower(Lower(s)) == Lower(s)
  {
  }

  /** Upper-casing forgets any earlier lower-casing. */
  lemma UpperOfLower(s: string)
    ensures Upper(Lower(s)) == Upper(s)
  {
    assert forall i :: 0 <= i < |s| ==> UpperChar(LowerChar(s[i])) == UpperChar(s[i]);
  }

  /** Two strings agree after `lower` exactly when they agree after `upper`:
      comparing by either case is the same case-insensitive equality. */
  lemma {:induction false} LowerEqualIffUpperEqual(a: string, b: string)
    ensures Lower(a) == Lower(b) <==> Upper(a) == Upper(b)
  {
    if Lower(a) == Lower(b) {
      forall i | 0 <= i < |a| ensures UpperChar(a[i]) == UpperChar(b[i]) {
        assert LowerChar(a[i]) == Lower(a)[i] == Lower(b)[i] == LowerChar(b[i]);
      }
      assert Upper(a) == Upper(b);
    }
    if Upper(a) == Upper(b) {
      forall i | 0 <= i < |a| ensures LowerChar(a[i]) == LowerChar(b[i]) {
        assert UpperChar(a[i]) == Upper(a)[i] == Upper(b)[i] == UpperChar(b[i]);
      }
      assert Lower(a) == Lower(b);
    }
  }

  /** `s.title()`: a letter is upper-cased when the character before it is
      not a letter and lower-cased when it is; other characters are kept. */
  function Title(s: string): (r: string)
    ensures |r| == |s|
  {
    TitleAfter(s, false)
  }

  /** The title-cased form of `c` when it follows a letter or not. */
  function TitleChar(c: char, afterLetter: bool): char {
    if !IsAsciiLetter(c) then c else if afterLetter then LowerChar(c) else UpperChar(c)
  }

  function TitleAfter(s: string, afterLetter: bool): (r: string)
    ensures |r| == |s|
  {
    if s == [] then []
    else [TitleChar(s[0], afterLetter)] + TitleAfter(s[1..], IsAsciiLetter(s[0]))
  }

  lemma {:induction false} TitleAfterAt(s: string, afterLetter: bool, i: nat)
    requires i < |s|
    ensures TitleAfter(s, afterLetter)[i] == TitleChar(s[i], if i == 0 then afterLetter else IsAsciiLetter(s[i - 1]))
    decreases i
  {
    if i > 0 {
      TitleAfterAt(s[1..], IsAsciiLetter(s[0]), i - 1);
      assert s[1..][i - 1] == s[i];
      if i > 1 {
        assert s[1..][i - 2] == s[i - 1];
      }
    }
  }

  /** Character by character, `title` depends only on the character and on
      whether the one before it is a letter. */
  lemma TitleAt(s: string, i: nat)
    requires i < |s|
    ensures Title(s)[i] == TitleChar(s[i], i > 0 && IsAsciiLetter(s[i - 1]))
  {
    TitleAfterAt(s, false, i);
  }

  // ---------------------------------------------------------------------
  // Joining and counting

  /** `[x] * n`. */
  function Repeat(x: string, n: nat): (r: seq<string>)
    ensures |r| == n && forall i :: 0 <= i < n ==> r[i] == x
  {
    if n == 0 then [] else [x] + Repeat(x, n - 1)
  }

  /** `sep.join(parts)`. */
  function Join(sep: string, parts: seq<string>): string {
    if parts == [] then ""
    else if |parts| == 1 then parts[0]
    else parts[0] + sep + Join(sep, parts[1..])
  }

  /** The number of occurrences of `c` in `s`. */
  function Count(s: string, c: char): nat {
    if s == [] then 0 else (if s[0] == c then 1 else 0) + Count(s[1..], c)
  }

  lemma {:induction false} CountAppend(a: string, b: string, c: char)
    ensures Count(a + b, c) == Count(a, c) + Count(b, c)
    decreases |a|
  {
    if a != [] {
      assert (a + b)[0] == a[0];
      assert (a + b)[1..] == a[1..] + b;
      CountAppend(a[1..], b, c);
    } else {
      assert a + b == b;
    }
  }

  /** `n` copies of a part holding one `c`, joined by a separator without
      `c` and framed by a head and a tail without `c`, hold `n` of `c`. */
  lemma CountFramedRepeat(head: string, sep: string, x: string, tail: string, n: nat, c: char)
    requires Count(head, c) == 0 && Count(sep, c) == 0 && Count(x, c) == 1 && Count(tail, c) == 0
    ensures Count(head + Join(sep, Repeat(x, n)) + tail, c) == n
  {
    var body := Join(sep, Repeat(x, n));
    CountJoinRepeat(sep, x, n, c);
    CountAppend(head + body, tail, c);
    CountAppend(head, body, c);
  }

  lemma {:induction false} CountAbsent(s: string, c: char)
    requires c !in s
    ensures Count(s, c) == 0
    decreases |s|
  {
    if s != [] {
      CountAbsent(s[1..], c);
    }
  }

  /** Joining `n` copies of a part with a separator that lacks `c` yields
      `n` times as many `c` as the part holds. */
  lemma {:induction false} CountJoinRepeat(sep: string, x: string, n: nat, c: char)
    requires Count(sep, c) == 0
    ensures Count(Join(sep, Repeat(x, n)), c) == n * Count(x, c)
    decreases n
  {
    if n > 1 {
      var rest := Join(sep, Repeat(x, n - 1));
      assert Repeat(x, n)[1..] == Repeat(x, n - 1);
      assert Join(sep, Repeat(x, n)) == (x + sep) + rest;
      CountJoinRepeat(sep, x, n - 1, c);
      assert (n - 1) * Count(x, c) + Count(x, c) == n * Count(x, c);
      CountAppend(x + sep, rest, c);
      CountAppend(x, sep, c);
    }
  }
}
