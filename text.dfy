/**
 * String helpers shared by every component.
 *
 * Text is `seq<char>`; case mapping is ASCII only. A regular-expression word
 * character is `[A-Za-z0-9_]` and whitespace is the ASCII whitespace set, so
 * `\b` means "the neighbour is not a word character (or is the end)".
 */
module Text {

  predicate IsUpperLetter(c: char) { 'A' <= c <= 'Z' }
  predicate IsLowerLetter(c: char) { 'a' <= c <= 'z' }
  predicate IsLetter(c: char) { IsUpperLetter(c) || IsLowerLetter(c) }
  predicate IsDigit(c: char) { '0' <= c <= '9' }
  predicate IsWordChar(c: char) { IsLetter(c) || IsDigit(c) || c == '_' }
  predicate IsSpace(c: char)
  {
    c == ' ' || c == '\t' || c == '\n' || c == '\r' || c == '\U{0B}' || c == '\U{0C}'
    || c == '\U{1C}' || c == '\U{1D}' || c == '\U{1E}' || c == '\U{1F}'
  }

  lemma SpaceIsNotWord(c: char)
    ensures IsSpace(c) ==> !IsWordChar(c)
  {}

  // ---------------------------------------------------------------- case

  function LowerChar(c: char): (r: char)
    ensures IsUpperLetter(c) ==> IsLowerLetter(r)
    ensures !IsUpperLetter(c) ==> r == c
    ensures IsWordChar(r) == IsWordChar(c) && IsSpace(r) == IsSpace(c) && IsDigit(r) == IsDigit(c)
  {
    if IsUpperLetter(c) then (c as int + 32) as char else c
  }

  function UpperChar(c: char): (r: char)
    ensures IsLowerLetter(c) ==> IsUpperLetter(r)
    ensures !IsLowerLetter(c) ==> r == c
    ensures IsWordChar(r) == IsWordChar(c) && IsSpace(r) == IsSpace(c) && IsDigit(r) == IsDigit(c)
  {
    if IsLowerLetter(c) then (c as int - 32) as char else c
  }

  /** Python's `str.lower()` restricted to ASCII letters. */
  function Lower(s: string): (r: string)
    ensures |r| == |s|
  {
    if s == [] then [] else [LowerChar(s[0])] + Lower(s[1..])
  }

  /** Lower-casing works character by character. */
  lemma {:induction false} LowerChars(s: string)
    ensures forall i :: 0 <= i < |s| ==> Lower(s)[i] == LowerChar(s[i])
  {
    if s != [] {
      LowerChars(s[1..]);
      assert forall i :: 1 <= i < |s| ==> Lower(s)[i] == Lower(s[1..])[i - 1];
    }
  }

  /** Python's `str.upper()` restricted to ASCII letters. */
  function Upper(s: string): (r: string)
    ensures |r| == |s|
  {
    if s == [] then [] else [UpperChar(s[0])] + Upper(s[1..])
  }

  /** Upper-casing works character by character. */
  lemma {:induction false} UpperChars(s: string)
    ensures forall i :: 0 <= i < |s| ==> Upper(s)[i] == UpperChar(s[i])
  {
    if s != [] {
      UpperChars(s[1..]);
      assert forall i :: 1 <= i < |s| ==> Upper(s)[i] == Upper(s[1..])[i - 1];
    }
  }

  predicate NoLowerLetter(s: string) { forall i :: 0 <= i < |s| ==> !IsLowerLetter(s[i]) }
  predicate NoUpperLetter(s: string) { forall i :: 0 <= i < |s| ==> !IsUpperLetter(s[i]) }

  lemma UpperHasNoLower(s: string)
    ensures NoLowerLetter(Upper(s))
  {}

  lemma LowerHasNoUpper(s: string)
    ensures NoUpperLetter(Lower(s))
  {}

  lemma UpperIdempotent(s: string)
    ensures Upper(Upper(s)) == Upper(s)
  {
    assert forall i :: 0 <= i < |s| ==> Upper(Upper(s))[i] == Upper(s)[i];
  }

  lemma LowerIdempotent(s: string)
    ensures Lower(Lower(s)) == Lower(s)
  {
    assert forall i :: 0 <= i < |s| ==> Lower(Lower(s))[i] == Lower(s)[i];
  }

  /** Lower-casing a string that has no upper-case letter changes nothing. */
  lemma LowerOfNoUpper(s: string)
    requires NoUpperLetter(s)
    ensures Lower(s) == s
  {}

  lemma UpperOfNoLower(s: string)
    requires NoLowerLetter(s)
    ensures Upper(s) == s
  {}

  /** Upper-casing forgets any earlier lower-casing. */
  lemma {:induction false} UpperLowerUpper(s: string)
    ensures Upper(Lower(s)) == Upper(s)
  {
    if s != [] {
      UpperLowerUpper(s[1..]);
      assert Lower(s)[1..] == Lower(s[1..]);
    }
  }

  // ------------------------------------------------------- substrings

  predicate StartsWith(s: string, p: string) { |p| <= |s| && s[..|p|] == p }
  predicate EndsWith(s: string, p: string) { |p| <= |s| && s[|s| - |p|..] == p }

  predicate OccursAt(s: string, t: string, i: int)
  {
    0 <= i && i + |t| <= |s| && s[i..i + |t|] == t
  }

  /** Python's `t in s` for strings. */
  predicate Contains(s: string, t: string)
  {
    exists i :: 0 <= i <= |s| - |t| && OccursAt(s, t, i)
  }

  /** `any(t in s for t in terms)`. */
  predicate ContainsAny(s: string, terms: seq<string>)
  {
    exists j :: 0 <= j < |terms| && Contains(s, terms[j])
  }

  /** `any(s.startswith(p) for p in prefixes)`. */
  predicate StartsWithAny(s: string, prefixes: seq<string>)
  {
    exists j :: 0 <= j < |prefixes| && StartsWith(s, prefixes[j])
  }

  /** Boundary test of `\b` just before index i (the character at i is a word character). */
  predicate WordStart(s: string, i: int)
    requires 0 <= i <= |s|
  {
    i == 0 || !IsWordChar(s[i - 1])
  }

  /** Boundary test of `\b` just after index j (the character before j is a word character). */
  predicate WordEnd(s: string, j: int)
    requires 0 <= j <= |s|
  {
    j == |s| || !IsWordChar(s[j])
  }

  /** `re.search(r"\bw\b", s)` for a word `w` made of word characters. */
  predicate HasWord(s: string, w: string)
  {
    exists i :: 0 <= i <= |s| - |w| && OccursAt(s, w, i) && WordStart(s, i) && WordEnd(s, i + |w|)
  }

  lemma HasWordContains(s: string, w: string)
    ensures HasWord(s, w) ==> Contains(s, w)
  {}

  lemma ContainsWitness(s: string, t: string, i: int)
    requires OccursAt(s, t, i)
    ensures Contains(s, t)
  {}

  lemma StartsWithContains(s: string, p: string)
    requires StartsWith(s, p)
    ensures Contains(s, p)
  {
    assert OccursAt(s, p, 0);
  }

  /** A concatenation starts with its first part and ends with its last. */
  lemma ConcatEnds(a: string, b: string)
    ensures StartsWith(a + b, a) && EndsWith(a + b, b)
  {
    assert (a + b)[..|a|] == a;
    assert (a + b)[|a + b| - |b|..] == b;
  }

  /** Strings that differ in their first character do not start one with the other. */
  lemma DifferentHead(s: string, p: string)
    requires |s| > 0 && |p| > 0 && s[0] != p[0]
    ensures !StartsWith(s, p)
  {
    if |p| <= |s| {
      assert s[..|p|][0] == s[0];
    }
  }

  /** At-or-after-`lo` occurrence test: `pat` occurs at some index in `[lo, end - |pat|]`. */
  predicate OccursBetween(s: string, pat: string, lo: int, end: int)
  {
    exists i :: lo <= i && i + |pat| <= end && OccursAt(s, pat, i)
  }

  /** Python's `s.rfind(pat, 0, end)`: the last index where `pat` fits inside `s[:end]`, or -1. */
  function RFind(s: string, pat: string, end: nat): (r: int)
    requires end <= |s|
    ensures r == -1 || (0 <= r && r + |pat| <= end && OccursAt(s, pat, r))
    ensures forall j :: r < j && j + |pat| <= end ==> !OccursAt(s, pat, j)
    ensures r == -1 <==> !OccursBetween(s, pat, 0, end)
    decreases end
  {
    if end < |pat| then -1
    else if OccursAt(s, pat, end - |pat|) then end - |pat|
    else RFind(s, pat, end - 1)
  }

  /** A nonempty sequence is its head before its tail, also when something follows. */
  lemma ConsConcat<T>(a: seq<T>, b: seq<T>)
    requires a != []
    ensures a + b == [a[0]] + (a[1..] + b)
  {
  }

  lemma ConcatTail<T>(a: seq<T>, b: seq<T>)
    requires a != []
    ensures (a + b)[0] == a[0] && (a + b)[1..] == a[1..] + b
  {}

  lemma ContainsTail(s: string, t: string)
    requires s != [] && !Contains(s, t)
    ensures !Contains(s[1..], t)
  {
    forall i | 0 <= i <= |s[1..]| - |t| ensures !OccursAt(s[1..], t, i) {
      assert s[1..][i..i + |t|] == s[i + 1..i + 1 + |t|];
      assert !OccursAt(s, t, i + 1);
    }
  }

  /**
   * Text free of `p` that ends in a character not among the first |p| - 1 of
   * `p` cannot start an occurrence of `p`, whatever follows it.
   */
  lemma NotStartedBefore(a: string, p: string, rest: string)
    requires |p| > 0 && a != [] && !Contains(a, p) && a[|a| - 1] !in p[..|p| - 1]
    ensures !StartsWith(a + rest, p)
  {
    var s := a + rest;
    if |s| >= |p| {
      if |a| >= |p| {
        assert s[..|p|] == a[..|p|];
        assert !OccursAt(a, p, 0);
      } else {
        assert s[..|p|][|a| - 1] == a[|a| - 1];
        assert p[|a| - 1] == p[..|p| - 1][|a| - 1];
      }
    }
  }

  /** The middle part of a concatenation of three occurs in it. */
  lemma ConcatMiddle(a: string, b: string, c: string)
    ensures OccursAt(a + b + c, b, |a|) && Contains(a + b + c, b)
  {
    var s := a + b + c;
    assert s[|a|..|a| + |b|] == b;
    assert OccursAt(s, b, |a|);
  }

  // -------------------------------------------------------- whitespace

  predicate IsBlank(s: string) { forall i :: 0 <= i < |s| ==> IsSpace(s[i]) }

  /** Python's `str.lstrip()`. */
  function LStrip(s: string): (r: string)
    ensures |r| <= |s|
    ensures r == [] || !IsSpace(r[0])
  {
    if s == [] || !IsSpace(s[0]) then s else LStrip(s[1..])
  }

  /** What `lstrip` keeps is a suffix, and what it removes is whitespace. */
  lemma {:induction false} LStripRemovesSpace(s: string)
    ensures LStrip(s) == s[|s| - |LStrip(s)|..]
    ensures forall i :: 0 <= i < |s| - |LStrip(s)| ==> IsSpace(s[i])
  {
    if s != [] && IsSpace(s[0]) {
      var t := s[1..];
      LStripRemovesSpace(t);
      assert forall i :: 1 <= i < |s| - |LStrip(s)| ==> s[i] == t[i - 1];
    }
  }

  /** Python's `str.rstrip()`. */
  function RStrip(s: string): (r: string)
    ensures |r| <= |s|
    ensures r == [] || !IsSpace(r[|r| - 1])
  {
    if s == [] || !IsSpace(s[|s| - 1]) then s else RStrip(s[..|s| - 1])
  }

  /** What `rstrip` keeps is a prefix, and what it removes is whitespace. */
  lemma {:induction false} RStripRemovesSpace(s: string)
    ensures RStrip(s) == s[..|RStrip(s)|]
    ensures forall i :: |RStrip(s)| <= i < |s| ==> IsSpace(s[i])
  {
    if s != [] && IsSpace(s[|s| - 1]) {
      var t := s[..|s| - 1];
      RStripRemovesSpace(t);
      assert forall i :: |RStrip(s)| <= i < |s| - 1 ==> s[i] == t[i];
    }
  }

  /** Python's `str.strip()`. */
  function Strip(s: string): (r: string)
    ensures |r| <= |s|
    ensures r == [] || (!IsSpace(r[0]) && !IsSpace(r[|r| - 1]))
  {
    RStripRemovesSpace(LStrip(s));
    RStrip(LStrip(s))
  }

  predicate IsStripped(s: string) { s == [] || (!IsSpace(s[0]) && !IsSpace(s[|s| - 1])) }

  lemma StripOfStripped(s: string)
    requires IsStripped(s)
    ensures Strip(s) == s
  {}

  lemma StripIdempotent(s: string)
    ensures Strip(Strip(s)) == Strip(s)
  {
    StripOfStripped(Strip(s));
  }

  lemma StripBlank(s: string)
    ensures Strip(s) == [] <==> IsBlank(s)
  {
    LStripRemovesSpace(s);
    RStripRemovesSpace(LStrip(s));
  }

  // ------------------------------------------------------------ slicing

  lemma ConcatAssoc<T>(x: seq<T>, y: seq<T>, z: seq<T>)
    ensures x + (y + z) == (x + y) + z
  {}

  /** Python's `s[:n]` for n >= 0. */
  function Take<T>(s: seq<T>, n: nat): (r: seq<T>)
    ensures |r| == if n < |s| then n else |s|
    ensures r == s[..|r|]
  {
    if n < |s| then s[..n] else s
  }

  /** Python's `s[-n:]` for n > 0 (the whole sequence when it is shorter). */
  function TakeLast<T>(s: seq<T>, n: nat): (r: seq<T>)
    ensures |r| == if n < |s| then n else |s|
    ensures r == s[|s| - |r|..]
  {
    if n < |s| then s[|s| - n..] else s
  }

  // -------------------------------------------------- digits and numbers

  /** Python's `str.isdigit()` over ASCII digits: non-empty and all digits. */
  predicate IsAllDigits(s: string) { |s| > 0 && forall i :: 0 <= i < |s| ==> IsDigit(s[i]) }

  function DigitValue(c: char): (d: nat)
    requires IsDigit(c)
    ensures d < 10
  {
    c as int - '0' as int
  }

  /** Python's `int(s)` for a string of ASCII digits. */
  function DigitsValue(s: string): (n: nat)
    requires forall i :: 0 <= i < |s| ==> IsDigit(s[i])
  {
    if s == [] then 0 else DigitsValue(s[..|s| - 1]) * 10 + DigitValue(s[|s| - 1])
  }

  function DigitChar(d: nat): (c: char)
    requires d < 10
    ensures IsDigit(c) && DigitValue(c) == d
  {
    ('0' as int + d) as char
  }

  /** Decimal rendering of a natural number, as Python's `str(n)`. */
  function NatToString(n: nat): (s: string)
    ensures IsAllDigits(s)
    ensures DigitsValue(s) == n
    decreases n
  {
    if n < 10 then [DigitChar(n)]
    else
      var p := NatToString(n / 10);
      var s := p + [DigitChar(n % 10)];
      assert s[..|s| - 1] == p;
      s
  }

  /** Decimal rendering of an integer, as Python's `str(i)`. */
  function IntToString(i: int): (s: string)
    ensures i >= 0 ==> s == NatToString(i)
    ensures i < 0 ==> s == "-" + NatToString(-i)
  {
    if i >= 0 then NatToString(i) else "-" + NatToString(-i)
  }

  /** `"%0*d" % (width, n)`: left-padded with zeros up to `width` digits. */
  function ZeroPad(n: nat, width: nat): (s: string)
    ensures IsAllDigits(s) && DigitsValue(s) == n
    ensures |s| >= width
  {
    var d := NatToString(n);
    if |d| >= width then d else Zeros(width - |d|, d)
  }

  function Zeros(k: nat, s: string): (r: string)
    requires forall i :: 0 <= i < |s| ==> IsDigit(s[i])
    ensures |r| == k + |s|
    ensures forall i :: 0 <= i < |r| ==> IsDigit(r[i])
    ensures DigitsValue(r) == DigitsValue(s)
    ensures IsAllDigits(s) ==> IsAllDigits(r)
    decreases k
  {
    if k == 0 then s else
      var r := Zeros(k - 1, s);
      LeadingZero(r);
      "0" + r
  }

  lemma {:induction false} LeadingZero(s: string)
    requires forall i :: 0 <= i < |s| ==> IsDigit(s[i])
    ensures DigitsValue("0" + s) == DigitsValue(s)
  {
    if s != [] {
      var t := s[..|s| - 1];
      LeadingZero(t);
      assert ("0" + s)[..|"0" + s| - 1] == "0" + t;
    }
  }

  // --------------------------------------------------- join and replace

  /** `[line(i, x) for i, x in enumerate(xs, start=1)]`. */
  function NumberedLines<T>(xs: seq<T>, line: (nat, T) -> string): (r: seq<string>)
    ensures |r| == |xs|
    ensures forall k :: 0 <= k < |xs| ==> r[k] == line(k + 1, xs[k])
  {
    if xs == [] then []
    else
      var n := |xs| - 1;
      var init := xs[..n];
      var p := NumberedLines(init, line);
      assert forall k :: 0 <= k < n ==> init[k] == xs[k];
      p + [line(n + 1, xs[n])]
  }

  /** Python's `sep.join(parts)`. */
  function Join(parts: seq<string>, sep: string): (r: string)
    ensures parts == [] ==> r == []
    ensures |parts| == 1 ==> r == parts[0]
  {
    if parts == [] then []
    else if |parts| == 1 then parts[0]
    else parts[0] + sep + Join(parts[1..], sep)
  }

  /** A join opens with its first part. */
  lemma JoinOpens(parts: seq<string>, sep: string)
    requires parts != []
    ensures StartsWith(Join(parts, sep), parts[0])
  {
    if |parts| > 1 {
      var rest := sep + Join(parts[1..], sep);
      assert Join(parts, sep) == parts[0] + rest;
      assert (parts[0] + rest)[..|parts[0]|] == parts[0];
    }
  }

  /** Python's `s.replace(pat, rep)` with a non-empty `old`: left-to-right, non-overlapping. */
  function Replace(s: string, pat: string, rep: string): (r: string)
    requires |pat| > 0
    decreases |s|
  {
    if |s| < |pat| then s
    else if s[..|pat|] == pat then rep + Replace(s[|pat|..], pat, rep)
    else [s[0]] + Replace(s[1..], pat, rep)
  }

  lemma {:induction false} ReplaceAbsent(s: string, pat: string, rep: string)
    requires |pat| > 0
    requires !Contains(s, pat)
    ensures Replace(s, pat, rep) == s
    decreases |s|
  {
    if |s| >= |pat| {
      assert !OccursAt(s, pat, 0);
      assert !Contains(s[1..], pat) by {
        if Contains(s[1..], pat) {
          var i :| 0 <= i <= |s[1..]| - |pat| && OccursAt(s[1..], pat, i);
          assert s[1..][i..i + |pat|] == s[i + 1..i + 1 + |pat|];
          assert OccursAt(s, pat, i + 1);
        }
      }
      ReplaceAbsent(s[1..], pat, rep);
    }
  }

  /** Replacing one character by another maps the text character by character. */
  lemma {:induction false} ReplaceCharMap(s: string, c: char, d: char)
    ensures var r := Replace(s, [c], [d]);
      |r| == |s| && forall i :: 0 <= i < |s| ==> r[i] == (if s[i] == c then d else s[i])
    decreases |s|
  {
    if s != [] {
      assert s[..1] == [s[0]];
      ReplaceCharMap(s[1..], c, d);
      var r := Replace(s, [c], [d]);
      assert forall i :: 1 <= i < |s| ==> r[i] == Replace(s[1..], [c], [d])[i - 1] && s[1..][i - 1] == s[i];
    }
  }

  /** No character of `a` occurs in `b`. */
  predicate SharesNoChar(a: string, b: string)
  {
    forall i :: 0 <= i < |a| ==> a[i] !in b
  }

  lemma OccursShift(s: string, t: string, k: nat, i: int)
    requires k <= |s| && OccursAt(s[k..], t, i)
    ensures OccursAt(s, t, i + k) && Contains(s, t)
  {
    assert s[k..][i..i + |t|] == s[i + k..i + k + |t|];
    assert OccursAt(s, t, i + k) && 0 <= i + k <= |s| - |t|;
  }

  /** A prefix of a replacement result that shows no replacement character is the input's own prefix. */
  lemma {:induction false} ReplacePrefix(t: string, pat: string, rep: string, k: nat)
    requires |pat| > 0 && |rep| > 0
    requires k <= |Replace(t, pat, rep)|
    ensures SharesNoChar(Replace(t, pat, rep)[..k], rep) ==> k <= |t| && Replace(t, pat, rep)[..k] == t[..k]
    decreases |t|
  {
    var r := Replace(t, pat, rep);
    if k > 0 && |t| >= |pat| {
      if t[..|pat|] == pat {
        assert r[..k][0] == rep[0];
        assert r[..k][0] in rep;
      } else {
        var tail := Replace(t[1..], pat, rep);
        assert r == [t[0]] + tail;
        if SharesNoChar(r[..k], rep) {
          var front := tail[..k - 1];
          forall i | 0 <= i < k - 1 ensures front[i] !in rep {
            assert front[i] == r[..k][i + 1];
          }
          ReplacePrefix(t[1..], pat, rep, k - 1);
          assert r[..k] == [t[0]] + tail[..k - 1];
        }
      }
    }
  }

  /** Replacing with characters foreign to `q` cannot create an occurrence of `q`. */
  lemma {:induction false} ReplaceKeeps(s: string, pat: string, rep: string, q: string)
    requires |pat| > 0 && |rep| > 0 && |q| > 0 && SharesNoChar(q, rep)
    requires Contains(Replace(s, pat, rep), q)
    ensures Contains(s, q)
    decreases |s|
  {
    var r := Replace(s, pat, rep);
    var i :| 0 <= i <= |r| - |q| && OccursAt(r, q, i);
    if |s| >= |pat| {
      if s[..|pat|] == pat {
        var tail := Replace(s[|pat|..], pat, rep);
        assert r == rep + tail;
        assert q[0] == r[i];
        assert r[i] !in rep;
        assert i >= |rep|;
        assert OccursAt(tail, q, i - |rep|) by {
          var x, y := r[i..i + |q|], tail[i - |rep|..i - |rep| + |q|];
          assert forall j :: 0 <= j < |q| ==> x[j] == y[j];
        }
        ReplaceKeeps(s[|pat|..], pat, rep, q);
        var j :| 0 <= j <= |s[|pat|..]| - |q| && OccursAt(s[|pat|..], q, j);
        OccursShift(s, q, |pat|, j);
      } else if i >= 1 {
        var tail := Replace(s[1..], pat, rep);
        assert r == [s[0]] + tail;
        assert OccursAt(tail, q, i - 1) by {
          var x, y := r[i..i + |q|], tail[i - 1..i - 1 + |q|];
          assert forall j :: 0 <= j < |q| ==> x[j] == y[j];
        }
        ReplaceKeeps(s[1..], pat, rep, q);
        var j :| 0 <= j <= |s[1..]| - |q| && OccursAt(s[1..], q, j);
        OccursShift(s, q, 1, j);
      } else {
        assert r[..|q|] == q;
        assert SharesNoChar(r[..|q|], rep);
        ReplacePrefix(s, pat, rep, |q|);
        assert OccursAt(s, q, 0) && 0 <= |s| - |q|;
      }
    }
  }

  /** Once replaced, a pattern none of whose characters is in the replacement no longer occurs. */
  lemma {:induction false} ReplaceRemoves(s: string, pat: string, rep: string)
    requires |pat| > 0 && |rep| > 0 && SharesNoChar(pat, rep)
    ensures !Contains(Replace(s, pat, rep), pat)
    decreases |s|
  {
    var r := Replace(s, pat, rep);
    if |s| >= |pat| {
      if s[..|pat|] == pat {
        var tail := Replace(s[|pat|..], pat, rep);
        assert r == rep + tail;
        ReplaceRemoves(s[|pat|..], pat, rep);
        forall i | 0 <= i <= |r| - |pat| ensures !OccursAt(r, pat, i) {
          if i < |rep| {
            assert r[i] == rep[i];
            assert r[i..i + |pat|][0] != pat[0];
          } else {
            assert r[i..i + |pat|] == tail[i - |rep|..i - |rep| + |pat|];
            assert !OccursAt(tail, pat, i - |rep|);
          }
        }
      } else {
        var tail := Replace(s[1..], pat, rep);
        assert r == [s[0]] + tail;
        ReplaceRemoves(s[1..], pat, rep);
        forall i | 0 <= i <= |r| - |pat| ensures !OccursAt(r, pat, i) {
          if i >= 1 {
            assert r[i..i + |pat|] == tail[i - 1..i - 1 + |pat|];
            assert !OccursAt(tail, pat, i - 1);
          } else {
            var k := |pat| - 1;
            ReplacePrefix(s[1..], pat, rep, k);
            if SharesNoChar(tail[..k], rep) {
              assert r[..|pat|] == [s[0]] + s[1..][..k] == s[..|pat|];
            } else {
              var m :| 0 <= m < k && tail[..k][m] in rep;
              assert r[..|pat|][m + 1] == tail[..k][m];
              assert pat[m + 1] !in rep;
            }
          }
        }
      }
    }
  }

  // ---------------------------------------------------------- whitespace runs

  /** Length of the leading run of whitespace. */
  function SpaceRun(s: string): (n: nat)
    ensures n <= |s|
    ensures forall i :: 0 <= i < n ==> IsSpace(s[i])
    ensures n == |s| || !IsSpace(s[n])
  {
    if s == [] || !IsSpace(s[0]) then 0 else 1 + SpaceRun(s[1..])
  }

  /** `re.sub(r"\s{2,}", " ", s)`: every run of two or more whitespace characters becomes one space. */
  function CollapseSpaces(s: string): string
    decreases |s|
  {
    if s == [] then []
    else if |s| >= 2 && IsSpace(s[0]) && IsSpace(s[1]) then " " + CollapseSpaces(s[SpaceRun(s)..])
    else [s[0]] + CollapseSpaces(s[1..])
  }

  predicate HasNoSpace(s: string) { forall i :: 0 <= i < |s| ==> !IsSpace(s[i]) }

  /** No two whitespace characters are adjacent. */
  predicate NoSpaceRun(s: string) { forall i :: 0 <= i < |s| - 1 ==> !(IsSpace(s[i]) && IsSpace(s[i + 1])) }

  lemma CollapseHead(s: string)
    requires s != [] && !IsSpace(s[0])
    ensures CollapseSpaces(s) != [] && CollapseSpaces(s)[0] == s[0]
  {}

  /** Collapsing leaves no two adjacent whitespace characters. */
  lemma {:induction false} CollapseNoRun(s: string)
    ensures NoSpaceRun(CollapseSpaces(s))
    decreases |s|
  {
    if s != [] {
      var r := CollapseSpaces(s);
      if |s| >= 2 && IsSpace(s[0]) && IsSpace(s[1]) {
        var rest := s[SpaceRun(s)..];
        CollapseNoRun(rest);
        if rest != [] {
          CollapseHead(rest);
        }
        assert r == " " + CollapseSpaces(rest);
        forall i | 0 <= i < |r| - 1 ensures !(IsSpace(r[i]) && IsSpace(r[i + 1])) {
          if i >= 1 {
            assert r[i] == CollapseSpaces(rest)[i - 1] && r[i + 1] == CollapseSpaces(rest)[i];
          }
        }
      } else {
        var rest := s[1..];
        CollapseNoRun(rest);
        if IsSpace(s[0]) && rest != [] {
          CollapseHead(rest);
        }
        assert r == [s[0]] + CollapseSpaces(rest);
        forall i | 0 <= i < |r| - 1 ensures !(IsSpace(r[i]) && IsSpace(r[i + 1])) {
          if i >= 1 {
            assert r[i] == CollapseSpaces(rest)[i - 1] && r[i + 1] == CollapseSpaces(rest)[i];
          }
        }
      }
    }
  }

  /** A text without adjacent whitespace is left as it is. */
  lemma {:induction false} CollapseOfNoRun(s: string)
    requires NoSpaceRun(s)
    ensures CollapseSpaces(s) == s
    decreases |s|
  {
    if s != [] {
      assert !(|s| >= 2 && IsSpace(s[0]) && IsSpace(s[1]));
      assert NoSpaceRun(s[1..]) by {
        forall i | 0 <= i < |s[1..]| - 1 ensures !(IsSpace(s[1..][i]) && IsSpace(s[1..][i + 1])) {
          assert s[1..][i] == s[i + 1] && s[1..][i + 1] == s[i + 2];
        }
      }
      CollapseOfNoRun(s[1..]);
    }
  }

  /** A prefix of a collapsed text with no whitespace is the input's own prefix. */
  lemma {:induction false} CollapsePrefix(t: string, k: nat)
    requires k <= |CollapseSpaces(t)|
    ensures HasNoSpace(CollapseSpaces(t)[..k]) ==> k <= |t| && CollapseSpaces(t)[..k] == t[..k]
    decreases |t|
  {
    var r := CollapseSpaces(t);
    if k > 0 {
      if |t| >= 2 && IsSpace(t[0]) && IsSpace(t[1]) {
        assert r[..k][0] == ' ';
      } else {
        var tail := CollapseSpaces(t[1..]);
        assert r == [t[0]] + tail;
        if HasNoSpace(r[..k]) {
          var front := tail[..k - 1];
          forall i | 0 <= i < k - 1 ensures !IsSpace(front[i]) {
            assert front[i] == r[..k][i + 1];
          }
          CollapsePrefix(t[1..], k - 1);
          assert r[..k] == [t[0]] + tail[..k - 1];
        }
      }
    }
  }

  /** An occurrence after the first character of `[c] + tail` is an occurrence in `tail`. */
  lemma OccursInTail(c: char, tail: string, q: string, i: int)
    requires i >= 1 && OccursAt([c] + tail, q, i)
    ensures OccursAt(tail, q, i - 1)
  {
    var r := [c] + tail;
    assert r[i..i + |q|] == tail[i - 1..i - 1 + |q|];
  }

  /** Collapsing whitespace cannot create an occurrence of a text without whitespace. */
  lemma {:induction false} CollapseKeeps(s: string, q: string)
    requires |q| > 0 && HasNoSpace(q)
    requires Contains(CollapseSpaces(s), q)
    ensures Contains(s, q)
    decreases |s|
  {
    var r := CollapseSpaces(s);
    var i :| 0 <= i <= |r| - |q| && OccursAt(r, q, i);
    if |s| >= 2 && IsSpace(s[0]) && IsSpace(s[1]) {
      var n := SpaceRun(s);
      var tail := CollapseSpaces(s[n..]);
      assert r == [' '] + tail;
      assert q[0] == r[i];
      OccursInTail(' ', tail, q, i);
      CollapseKeeps(s[n..], q);
      var j :| 0 <= j <= |s[n..]| - |q| && OccursAt(s[n..], q, j);
      OccursShift(s, q, n, j);
    } else {
      var tail := CollapseSpaces(s[1..]);
      assert r == [s[0]] + tail;
      if i >= 1 {
        OccursInTail(s[0], tail, q, i);
        CollapseKeeps(s[1..], q);
        var j :| 0 <= j <= |s[1..]| - |q| && OccursAt(s[1..], q, j);
        OccursShift(s, q, 1, j);
      } else {
        assert r[..|q|] == q;
        CollapsePrefix(s, |q|);
        assert OccursAt(s, q, 0);
      }
    }
  }

  /** `strip` keeps a contiguous slice. */
  lemma StripIsSlice(s: string) returns (a: nat)
    ensures a + |Strip(s)| <= |s| && Strip(s) == s[a..a + |Strip(s)|]
  {
    LStripRemovesSpace(s);
    RStripRemovesSpace(LStrip(s));
    a := |s| - |LStrip(s)|;
    assert Strip(s) == s[a..][..|Strip(s)|] == s[a..a + |Strip(s)|];
  }

  lemma StripNoRun(s: string)
    requires NoSpaceRun(s)
    ensures NoSpaceRun(Strip(s))
  {
    var a := StripIsSlice(s);
    forall i | 0 <= i < |Strip(s)| - 1 ensures !(IsSpace(Strip(s)[i]) && IsSpace(Strip(s)[i + 1])) {
      assert Strip(s)[i] == s[a + i] && Strip(s)[i + 1] == s[a + i + 1];
    }
  }

  lemma StripKeeps(s: string, q: string)
    requires Contains(Strip(s), q)
    ensures Contains(s, q)
  {
    var a := StripIsSlice(s);
    var i :| 0 <= i <= |Strip(s)| - |q| && OccursAt(Strip(s), q, i);
    var st := Strip(s);
    var w := s[a..a + |st|];
    assert st == w;
    assert a + i + |q| <= |s|;
    var x, y := w[i..i + |q|], s[a + i..a + i + |q|];
    assert forall j :: 0 <= j < |q| ==> x[j] == y[j];
    assert st[i..i + |q|] == y;
    assert OccursAt(s, q, a + i) && 0 <= a + i <= |s| - |q|;
  }

  // ---------------------------------------------------------- segments

  /** Length of the leading run of characters whose word-ness is `word`. */
  function RunLength(s: string, word: bool): (n: nat)
    ensures n <= |s|
    ensures forall i :: 0 <= i < n ==> IsWordChar(s[i]) == word
    ensures n == |s| || IsWordChar(s[n]) != word
  {
    if s == [] || IsWordChar(s[0]) != word then 0 else 1 + RunLength(s[1..], word)
  }

  /**
   * The maximal runs of word and of non-word characters, in order. A regular
   * expression of the form `\b[cls]{m,n}\b`, with `cls` made of word
   * characters, matches exactly the word segments that consist of m..n
   * characters of `cls`.
   */
  function Segments(s: string): (segs: seq<string>)
    ensures forall k :: 0 <= k < |segs| ==> |segs[k]| > 0
    ensures forall k :: 0 <= k < |segs| ==> HomogeneousRun(segs[k])
    decreases |s|
  {
    if s == [] then []
    else
      var n := RunLength(s, IsWordChar(s[0]));
      [s[..n]] + Segments(s[n..])
  }

  predicate HomogeneousRun(t: string)
  {
    |t| > 0 && forall i :: 0 <= i < |t| ==> IsWordChar(t[i]) == IsWordChar(t[0])
  }

  function Concat(segs: seq<string>): string
  {
    if segs == [] then [] else segs[0] + Concat(segs[1..])
  }

  lemma {:induction false} SegmentsConcat(s: string)
    ensures Concat(Segments(s)) == s
    decreases |s|
  {
    if s != [] {
      var n := RunLength(s, IsWordChar(s[0]));
      SegmentsConcat(s[n..]);
      assert Segments(s)[1..] == Segments(s[n..]);
    }
  }

  /** Consecutive segments alternate between word and non-word runs. */
  lemma {:induction false} SegmentsAlternate(s: string, k: nat)
    requires k + 1 < |Segments(s)|
    ensures IsWordChar(Segments(s)[k][0]) != IsWordChar(Segments(s)[k + 1][0])
    decreases |s|
  {
    var n := RunLength(s, IsWordChar(s[0]));
    if k == 0 {
      assert Segments(s)[0] == s[..n];
      assert Segments(s)[1] == Segments(s[n..])[0];
      assert Segments(s[n..])[0][0] == s[n];
    } else {
      assert Segments(s)[k] == Segments(s[n..])[k - 1];
      assert Segments(s)[k + 1] == Segments(s[n..])[k];
      SegmentsAlternate(s[n..], k - 1);
    }
  }

  predicate IsWordSegment(t: string) { |t| > 0 && IsWordChar(t[0]) }

  /** The word segments, in order: the tokens a `\b…\b` pattern can match. */
  function Words(s: string): (ws: seq<string>)
    ensures forall k :: 0 <= k < |ws| ==> |ws[k]| > 0 && (forall i :: 0 <= i < |ws[k]| ==> IsWordChar(ws[k][i]))
  {
    FilterWords(Segments(s))
  }

  function FilterWords(segs: seq<string>): (ws: seq<string>)
    requires forall k :: 0 <= k < |segs| ==> HomogeneousRun(segs[k])
    ensures forall k :: 0 <= k < |ws| ==> |ws[k]| > 0 && (forall i :: 0 <= i < |ws[k]| ==> IsWordChar(ws[k][i]))
    ensures forall k :: 0 <= k < |ws| ==> ws[k] in segs
  {
    if segs == [] then []
    else if IsWordSegment(segs[0]) then
      assert HomogeneousRun(segs[0]);
      [segs[0]] + FilterWords(segs[1..])
    else FilterWords(segs[1..])
  }

  /** Python's `str.split()`: the maximal runs of non-whitespace characters. */
  function SplitWhitespace(s: string): (ws: seq<string>)
    ensures forall k :: 0 <= k < |ws| ==> |ws[k]| > 0 && (forall i :: 0 <= i < |ws[k]| ==> !IsSpace(ws[k][i]))
    decreases |s|
  {
    if s == [] then []
    else if IsSpace(s[0]) then SplitWhitespace(s[1..])
    else
      var n := NonSpaceRun(s);
      [s[..n]] + SplitWhitespace(s[n..])
  }

  function NonSpaceRun(s: string): (n: nat)
    ensures n <= |s|
    ensures forall i :: 0 <= i < n ==> !IsSpace(s[i])
    ensures n == |s| || IsSpace(s[n])
    ensures |s| > 0 && !IsSpace(s[0]) ==> n > 0
  {
    if s == [] || IsSpace(s[0]) then 0 else 1 + NonSpaceRun(s[1..])
  }
}
