/**
 * Voice channel (channels/voice_handler.py).
 *
 * The orchestrator's reply is turned into a telephony-friendly `say_text`:
 * stripped, links dropped, support references spoken generically, whitespace
 * normalised, acronyms spelled out, "Next step options: ..." removed, and at
 * most the first two sentence pieces kept. A `say_text` over 420 characters
 * is cut back to the last space before character 417 and ends in "...".
 * Every regular expression of the pipeline is a left-to-right scanner here.
 */
module VoiceChannel {
  import opened Text
  import opened Wrappers
  import opened Values
  import opened Schemas
  import opened Patterns

  // ------------------------------------------------------------------- links

  /**
   * `https?://\S+` matches at the start of `s`: "http", then "://" or
   * "s://", then at least one non-whitespace character.
   */
  predicate UrlHead(s: string)
  {
    |s| > 7 && s[0] == 'h' && s[1] == 't' && s[2] == 't' && s[3] == 'p'
    && ((s[4] == ':' && s[5] == '/' && s[6] == '/' && !IsSpace(s[7]))
        || (|s| > 8 && s[4] == 's' && s[5] == ':' && s[6] == '/' && s[7] == '/' && !IsSpace(s[8])))
  }

  /** Where the link's non-whitespace tail starts: after "https://" or "http://". */
  function SchemeLength(s: string): (k: nat)
    requires UrlHead(s)
    ensures k < |s| && !IsSpace(s[k])
  {
    if s[4] == 's' then 8 else 7
  }

  /** Length of the match of `https?://\S+` at the start of `s`, or 0 when there is none. */
  function UrlLength(s: string): (n: nat)
    ensures n <= |s|
    ensures n > 0 <==> UrlHead(s)
  {
    if UrlHead(s) then SchemeLength(s) + NonSpaceRun(s[SchemeLength(s)..]) else 0
  }

  /** A link is more than its scheme, has no whitespace, and ends at whitespace or the end. */
  lemma UrlLengthShape(s: string)
    requires UrlHead(s)
    ensures var n := UrlLength(s);
      n > SchemeLength(s) && HasNoSpace(s[..n]) && (n == |s| || IsSpace(s[n]))
  {
    var n := UrlLength(s);
    var k := SchemeLength(s);
    assert forall i :: k <= i < n ==> s[i] == s[k..][i - k];
  }

  /** `re.sub(r"https?://\S+", "", s)`. */
  function RemoveUrls(s: string): (r: string)
    ensures |r| <= |s|
    decreases |s|
  {
    if s == [] then []
    else
      var n := UrlLength(s);
      if n > 0 then RemoveUrls(s[n..]) else [s[0]] + RemoveUrls(s[1..])
  }

  /** A text with no "http" keeps every character. */
  lemma {:induction false} UrlsAbsent(s: string)
    requires !Contains(s, "http")
    ensures RemoveUrls(s) == s
    decreases |s|
  {
    if s != [] {
      assert !OccursAt(s, "http", 0);
      assert !Contains(s[1..], "http") by {
        if Contains(s[1..], "http") {
          var i :| 0 <= i <= |s[1..]| - 4 && OccursAt(s[1..], "http", i);
          OccursShift(s, "http", 1, i);
        }
      }
      UrlsAbsent(s[1..]);
    }
  }

  /** Plain text without "http" that ends in whitespace is kept as it is, whatever follows. */
  lemma {:induction false} PlainPrefixKept(a: string, t: string)
    requires !Contains(a, "http") && (a == [] || IsSpace(a[|a| - 1]))
    ensures RemoveUrls(a + t) == a + RemoveUrls(t)
    decreases |a|
  {
    if a == [] {
      assert a + t == t;
    } else {
      var b := a[1..];
      PlainStep(a, t);
      ContainsTail(a, "http");
      assert b != [] ==> b[|b| - 1] == a[|a| - 1];
      PlainPrefixKept(b, t);
      ConsConcat(a, RemoveUrls(t));
    }
  }

  /** One step of the scan over plain text: its first character is kept. */
  lemma PlainStep(a: string, t: string)
    requires a != [] && !Contains(a, "http") && IsSpace(a[|a| - 1])
    ensures RemoveUrls(a + t) == [a[0]] + RemoveUrls(a[1..] + t)
  {
    NotStartedBefore(a, "http", t);
    KeptFirst(a + t);
    ConcatTail(a, t);
  }


  /**
   * A whole link after plain text is dropped: the text before it is kept as
   * it is, and scanning resumes at the whitespace that ends the link.
   */
  lemma UrlRemoved(a: string, url: string, rest: string)
    requires !Contains(a, "http") && (a == [] || IsSpace(a[|a| - 1]))
    requires UrlHead(url) && HasNoSpace(url)
    requires rest == [] || IsSpace(rest[0])
    ensures RemoveUrls(a + url + rest) == a + RemoveUrls(rest)
  {
    assert a + url + rest == a + (url + rest);
    PlainPrefixKept(a, url + rest);
    UrlDropped(url, rest);
  }

  /** A text that does not start with "http" keeps its first character. */
  lemma KeptFirst(s: string)
    requires s != [] && !StartsWith(s, "http")
    ensures RemoveUrls(s) == [s[0]] + RemoveUrls(s[1..])
  {
    UrlHeadIsHttp(s);
  }

  /** A whole link at the start is dropped. */
  lemma UrlDropped(url: string, rest: string)
    requires UrlHead(url) && HasNoSpace(url)
    requires rest == [] || IsSpace(rest[0])
    ensures RemoveUrls(url + rest) == RemoveUrls(rest)
  {
    var s := url + rest;
    UrlLengthOfToken(url, rest);
    assert s[|url|..] == rest;
  }

  lemma UrlHeadIsHttp(s: string)
    ensures UrlHead(s) ==> StartsWith(s, "http")
  {
    if UrlHead(s) {
      assert s[..4] == "http";
    }
  }


  /** A link followed by whitespace (or nothing) is matched exactly. */
  lemma UrlLengthOfToken(url: string, rest: string)
    requires UrlHead(url) && HasNoSpace(url)
    requires rest == [] || IsSpace(rest[0])
    ensures UrlLength(url + rest) == |url|
  {
    var s := url + rest;
    var k := SchemeLength(url);
    assert forall i :: 0 <= i < |url| ==> s[i] == url[i];
    assert UrlHead(s) && SchemeLength(s) == k;
    NonSpaceRunOfToken(s[k..], |url| - k);
  }


  /** The non-whitespace run of a text that starts with `n` non-whitespace characters then whitespace. */
  lemma {:induction false} NonSpaceRunOfToken(s: string, n: nat)
    requires n <= |s| && HasNoSpace(s[..n]) && (n == |s| || IsSpace(s[n]))
    ensures NonSpaceRun(s) == n
    decreases n
  {
    if n > 0 {
      assert s[..n][0] == s[0];
      assert s[1..][..n - 1] == s[..n][1..];
      NonSpaceRunOfToken(s[1..], n - 1);
    }
  }

  /** A non-whitespace prefix of what is kept is the input's own prefix. */
  lemma {:induction false} KeptPrefix(s: string, k: nat)
    requires k <= |RemoveUrls(s)|
    ensures HasNoSpace(RemoveUrls(s)[..k]) ==> k <= |s| && RemoveUrls(s)[..k] == s[..k]
    decreases |s|
  {
    if k > 0 {
      var n := UrlLength(s);
      if n > 0 {
        UrlLengthShape(s);
        var t := s[n..];
        if t != [] {
          assert t[0] == s[n];
          SpaceKept(t);
          assert RemoveUrls(s)[..k][0] == t[0];
        }
      } else {
        var tail := RemoveUrls(s[1..]);
        assert RemoveUrls(s) == [s[0]] + tail;
        HeadTailPrefix(s[0], tail, k);
        KeptPrefix(s[1..], k - 1);
        ConsPrefix(s, k);
      }
    }
  }

  /** Whitespace at the start is kept: no link starts there. */
  lemma SpaceKept(t: string)
    requires t != [] && IsSpace(t[0])
    ensures RemoveUrls(t) != [] && RemoveUrls(t)[0] == t[0]
  {
  }

  /** A non-whitespace prefix of `[c] + tail` is `c` before a non-whitespace prefix of `tail`. */
  lemma HeadTailPrefix(c: char, tail: string, k: nat)
    requires 0 < k <= |tail| + 1
    ensures ([c] + tail)[..k] == [c] + tail[..k - 1]
    ensures HasNoSpace(([c] + tail)[..k]) ==> HasNoSpace(tail[..k - 1])
  {
    var rk, tk := ([c] + tail)[..k], tail[..k - 1];
    assert rk == [c] + tk;
    forall i | 0 <= i < |tk| ensures tk[i] == rk[i + 1] {}
  }

  /** A prefix is the head before a prefix of the tail. */
  lemma ConsPrefix(s: string, k: nat)
    requires 0 < k <= |s|
    ensures s[..k] == [s[0]] + s[1..][..k - 1]
  {
  }


  /** Two texts that agree on a whole link agree that a link starts there. */
  lemma UrlHeadShared(x: string, y: string)
    requires UrlHead(x) && SchemeLength(x) < |y|
    requires y[..SchemeLength(x) + 1] == x[..SchemeLength(x) + 1]
    ensures UrlHead(y)
  {
    var m := SchemeLength(x) + 1;
    assert forall i :: 0 <= i < m ==> y[i] == y[..m][i] == x[i];
  }



  /** A link at the start of what is kept after a kept first character was already there. */
  lemma KeptHead(s: string)
    requires s != []
    ensures UrlHead([s[0]] + RemoveUrls(s[1..])) ==> UrlHead(s)
  {
    var tail := RemoveUrls(s[1..]);
    var r := [s[0]] + tail;
    if UrlHead(r) {
      var m := SchemeLength(r) + 1;
      assert HasNoSpace(r[..m]) by {
        assert forall i :: 0 <= i < m ==> r[..m][i] == r[i];
      }
      HeadTailPrefix(s[0], tail, m);
      KeptPrefix(s[1..], m - 1);
      ConsPrefix(s, m);
      UrlHeadShared(r, s);
    }
  }


  /** No link is left anywhere in the result. */
  lemma {:induction false} NoUrlLeft(s: string)
    ensures forall i :: 0 <= i < |RemoveUrls(s)| ==> !UrlHead(RemoveUrls(s)[i..])
    decreases |s|
  {
    var r := RemoveUrls(s);
    if s != [] {
      var n := UrlLength(s);
      if n > 0 {
        NoUrlLeft(s[n..]);
      } else {
        var tail := RemoveUrls(s[1..]);
        NoUrlLeft(s[1..]);
        assert r == [s[0]] + tail;
        forall i | 0 <= i < |r| ensures !UrlHead(r[i..]) {
          if i > 0 {
            assert r[i..] == tail[i - 1..];
          } else {
            KeptHead(s);
          }
        }
      }
    }
  }

  // ------------------------------------------------------- support references

  /** Length of the leading run of `[A-Z0-9]`. */
  function UpperAlnumRun(s: string): (n: nat)
    ensures n <= |s|
    ensures forall i :: 0 <= i < n ==> IsUpperAlnum(s[i])
    ensures n == |s| || !IsUpperAlnum(s[n])
  {
    if s == [] || !IsUpperAlnum(s[0]) then 0 else 1 + UpperAlnumRun(s[1..])
  }

  /**
   * Length of the match of `SUP-[A-Z0-9]+\b` at the start of `s`, or 0. The
   * run is maximal, and a shorter one would end between two word characters.
   */
  function SupLength(s: string): (n: nat)
    ensures n <= |s|
    ensures n > 0 ==> n > 4 && StartsWith(s, "SUP-")
  {
    if StartsWith(s, "SUP-") then
      var k := UpperAlnumRun(s[4..]);
      if k > 0 && (4 + k == |s| || !IsWordChar(s[4 + k])) then 4 + k else 0
    else 0
  }

  const SupportReference := "your support reference"

  /**
   * `re.sub(r"\bSUP-[A-Z0-9]+\b", "your support reference", s)`, where
   * `boundary` says that the character before `s` is not a word character.
   */
  function ReplaceSupFrom(s: string, boundary: bool): string
    decreases |s|
  {
    if s == [] then []
    else
      var n := if boundary then SupLength(s) else 0;
      if n > 0 then SupportReference + ReplaceSupFrom(s[n..], false)
      else [s[0]] + ReplaceSupFrom(s[1..], !IsWordChar(s[0]))
  }

  function ReplaceSupportRefs(s: string): string { ReplaceSupFrom(s, true) }

  /** A text with no "SUP-" keeps every character. */
  lemma {:induction false} SupAbsent(s: string, boundary: bool)
    requires !Contains(s, "SUP-")
    ensures ReplaceSupFrom(s, boundary) == s
    decreases |s|
  {
    if s != [] {
      assert !OccursAt(s, "SUP-", 0);
      assert !Contains(s[1..], "SUP-") by {
        if Contains(s[1..], "SUP-") {
          var i :| 0 <= i <= |s[1..]| - 4 && OccursAt(s[1..], "SUP-", i);
          OccursShift(s, "SUP-", 1, i);
        }
      }
      SupAbsent(s[1..], !IsWordChar(s[0]));
    }
  }

  /** After a non-word character the boundary flag makes no difference. */
  lemma SupAfterNonWord(s: string)
    requires s == [] || !IsWordChar(s[0])
    ensures ReplaceSupFrom(s, false) == ReplaceSupFrom(s, true)
  {
    if s != [] {
      assert !StartsWith(s, "SUP-") by {
        if |s| >= 4 {
          assert s[..4][0] == s[0];
        }
      }
    }
  }

  /** Plain text without "SUP-" that ends in a non-word character is kept as it is, whatever follows. */
  lemma {:induction false} PlainPrefixKeptSup(a: string, t: string, boundary: bool)
    requires !Contains(a, "SUP-") && (a != [] ==> !IsWordChar(a[|a| - 1]))
    ensures ReplaceSupFrom(a + t, boundary) == a + ReplaceSupFrom(t, if a == [] then boundary else true)
    decreases |a|
  {
    if a == [] {
      assert a + t == t;
    } else {
      NotStartedBefore(a, "SUP-", t);
      ConcatTail(a, t);
      ContainsTail(a, "SUP-");
      var b := a[1..];
      assert b != [] ==> b[|b| - 1] == a[|a| - 1];
      PlainPrefixKeptSup(b, t, !IsWordChar(a[0]));
      ConsConcat(a, ReplaceSupFrom(t, true));
    }
  }

  /** A reference standing on its own at the start is spoken as "your support reference". */
  lemma SupDropped(code: string, rest: string)
    requires code != [] && forall i :: 0 <= i < |code| ==> IsUpperAlnum(code[i])
    requires rest == [] || !IsWordChar(rest[0])
    ensures ReplaceSupportRefs("SUP-" + code + rest) == SupportReference + ReplaceSupportRefs(rest)
  {
    var s := "SUP-" + code + rest;
    assert s[..4] == "SUP-";
    assert s[4..] == code + rest;
    UpperAlnumRunOfToken(code, rest);
    assert s[4 + |code|..] == rest;
    SupAfterNonWord(rest);
  }

  /**
   * A reference standing on its own after plain text is spoken as "your
   * support reference"; the text before it is kept as it is.
   */
  lemma SupReplaced(a: string, code: string, rest: string)
    requires !Contains(a, "SUP-") && (a == [] || !IsWordChar(a[|a| - 1]))
    requires code != [] && forall i :: 0 <= i < |code| ==> IsUpperAlnum(code[i])
    requires rest == [] || !IsWordChar(rest[0])
    ensures ReplaceSupportRefs(a + "SUP-" + code + rest) == a + SupportReference + ReplaceSupportRefs(rest)
  {
    assert a + "SUP-" + code + rest == a + ("SUP-" + code + rest);
    PlainPrefixKeptSup(a, "SUP-" + code + rest, true);
    SupDropped(code, rest);
  }

  lemma {:induction false} UpperAlnumRunOfToken(code: string, rest: string)
    requires forall i :: 0 <= i < |code| ==> IsUpperAlnum(code[i])
    requires rest == [] || !IsWordChar(rest[0])
    ensures UpperAlnumRun(code + rest) == |code|
    decreases |code|
  {
    if code != [] {
      assert (code + rest)[1..] == code[1..] + rest;
      UpperAlnumRunOfToken(code[1..], rest);
    } else {
      assert code + rest == rest;
    }
  }

  // ------------------------------------------------------------- whitespace

  /** `re.sub(r"\s+", " ", s)`: every whitespace run becomes one space. */
  function SpacesToOne(s: string): string
    decreases |s|
  {
    if s == [] then []
    else if IsSpace(s[0]) then " " + SpacesToOne(s[SpaceRun(s)..])
    else [s[0]] + SpacesToOne(s[1..])
  }

  /** The only whitespace is single spaces. */
  predicate SingleSpaced(s: string)
  {
    NoSpaceRun(s) && forall i :: 0 <= i < |s| ==> IsSpace(s[i]) ==> s[i] == ' '
  }

  lemma SpacesToOneHead(s: string)
    requires s != [] && !IsSpace(s[0])
    ensures SpacesToOne(s) != [] && SpacesToOne(s)[0] == s[0]
  {}

  lemma {:induction false} SpacesToOneIsSingleSpaced(s: string)
    ensures SingleSpaced(SpacesToOne(s))
    decreases |s|
  {
    if s != [] {
      var r := SpacesToOne(s);
      var rest := if IsSpace(s[0]) then s[SpaceRun(s)..] else s[1..];
      var tail := SpacesToOne(rest);
      SpacesToOneIsSingleSpaced(rest);
      var c := if IsSpace(s[0]) then ' ' else s[0];
      assert r == [c] + tail;
      if IsSpace(s[0]) && rest != [] {
        SpacesToOneHead(rest);
      }
      forall i | 0 <= i < |r| ensures IsSpace(r[i]) ==> r[i] == ' ' {
        if i > 0 {
          assert r[i] == tail[i - 1];
        }
      }
      forall i | 0 <= i < |r| - 1 ensures !(IsSpace(r[i]) && IsSpace(r[i + 1])) {
        if i > 0 {
          assert r[i] == tail[i - 1] && r[i + 1] == tail[i];
        } else if IsSpace(s[0]) {
          assert r[1] == tail[0];
        }
      }
    }
  }

  // ---------------------------------------------------- "Next step options"

  const NextStepLabel := "next step options:"

  /** Length of the leading run of characters other than '.'. */
  function NotDotRun(s: string): (n: nat)
    ensures n <= |s|
    ensures forall i :: 0 <= i < n ==> s[i] != '.'
    ensures n == |s| || s[n] == '.'
  {
    if s == [] || s[0] == '.' then 0 else 1 + NotDotRun(s[1..])
  }

  /**
   * Length of the match of `Next step options:\s*[^.]+\.?` (ignoring case) at
   * the start of `s`, or 0. Whitespace is not '.', so `\s*[^.]+` together
   * take the maximal run up to the first period, which must not be empty.
   */
  function NextStepLength(s: string): (n: nat)
    ensures n <= |s|
    ensures n > 0 ==> n > |NextStepLabel| && Lower(s[..|NextStepLabel|]) == NextStepLabel
  {
    var m := |NextStepLabel|;
    if |s| >= m && Lower(s[..m]) == NextStepLabel then
      var d := NotDotRun(s[m..]);
      if d == 0 then 0 else if m + d < |s| then m + d + 1 else m + d
    else 0
  }

  /** `re.sub(r"Next step options:\s*[^.]+\.?", "", s, flags=re.IGNORECASE)`. */
  function RemoveNextStepOptions(s: string): (r: string)
    ensures |r| <= |s|
    decreases |s|
  {
    if s == [] then []
    else
      var n := NextStepLength(s);
      if n > 0 then RemoveNextStepOptions(s[n..]) else [s[0]] + RemoveNextStepOptions(s[1..])
  }

  /** A leading list of options is dropped up to and including its period. */
  lemma NextStepDropped(heading: string, body: string, rest: string)
    requires Lower(heading) == NextStepLabel
    requires body != [] && forall i :: 0 <= i < |body| ==> body[i] != '.'
    ensures RemoveNextStepOptions(heading + body + "." + rest) == RemoveNextStepOptions(rest)
  {
    var s := heading + body + "." + rest;
    var m := |NextStepLabel|;
    assert |heading| == m;
    assert s[..m] == heading;
    assert s[m..] == body + "." + rest;
    NotDotRunOfToken(body, "." + rest);
    assert s[m + |body|] == '.';
    assert s[m + |body| + 1..] == rest;
  }

  lemma {:induction false} NotDotRunOfToken(body: string, rest: string)
    requires forall i :: 0 <= i < |body| ==> body[i] != '.'
    requires rest == [] || rest[0] == '.'
    ensures NotDotRun(body + rest) == |body|
    decreases |body|
  {
    if body != [] {
      assert (body + rest)[1..] == body[1..] + rest;
      NotDotRunOfToken(body[1..], rest);
    } else {
      assert body + rest == rest;
    }
  }

  /** A text without the label, in any case, keeps every character. */
  lemma {:induction false} NextStepAbsent(s: string)
    requires forall i :: 0 <= i < |s| ==> !StartsWith(Lower(s[i..]), NextStepLabel)
    ensures RemoveNextStepOptions(s) == s
    decreases |s|
  {
    if s != [] {
      var m := |NextStepLabel|;
      assert NextStepLength(s) == 0 by {
        if |s| >= m {
          LowerPrefix(s, m);
          assert s[0..] == s;
        }
      }
      forall i | 0 <= i < |s[1..]| ensures !StartsWith(Lower(s[1..][i..]), NextStepLabel) {
        assert s[1..][i..] == s[i + 1..];
      }
      NextStepAbsent(s[1..]);
    }
  }

  /** Lower-casing a prefix is the prefix of the lower-cased text. */
  lemma {:induction false} LowerPrefix(s: string, m: nat)
    requires m <= |s|
    ensures Lower(s[..m]) == Lower(s)[..m]
    decreases m
  {
    if m > 0 {
      assert s[..m][1..] == s[1..][..m - 1];
      LowerPrefix(s[1..], m - 1);
    } else {
      assert s[..m] == [];
    }
  }

  // ------------------------------------------------------- sentence pieces

  predicate IsSentenceEnd(c: char) { c == '.' || c == '!' || c == '?' }

  /** `(?<=[.!?])\s+` can start at `j`: whitespace right after a sentence end. */
  predicate IsBreakAt(s: string, j: int)
  {
    1 <= j < |s| && IsSpace(s[j]) && IsSentenceEnd(s[j - 1])
  }

  /** The first break at or after `k`. */
  function FirstBreak(s: string, k: nat): (r: Option<nat>)
    ensures r.Some? ==> k <= r.value && IsBreakAt(s, r.value)
    ensures forall j :: k <= j && (r.None? || j < r.value) ==> !IsBreakAt(s, j)
    decreases |s| - k
  {
    if k >= |s| then None
    else if IsBreakAt(s, k) then Some(k)
    else FirstBreak(s, k + 1)
  }

  /** `re.split(r"(?<=[.!?])\s+", s)`: the pieces between breaks, each break's whole whitespace run removed. */
  function Pieces(s: string): (ps: seq<string>)
    ensures |ps| >= 1
    decreases |s|
  {
    match FirstBreak(s, 1)
    case None => [s]
    case Some(j) => [s[..j]] + Pieces(s[j + SpaceRun(s[j..])..])
  }

  /** `" ".join(parts[:2]).strip()` when there are more than two pieces. */
  function FirstTwoPieces(s: string): string
  {
    var ps := Pieces(s);
    if |ps| > 2 then Strip(ps[0] + " " + ps[1]) else s
  }

  predicate NoBreak(p: string) { forall j :: 0 <= j < |p| ==> !IsBreakAt(p, j) }

  lemma PiecesOfNoBreak(p: string)
    requires NoBreak(p)
    ensures Pieces(p) == [p]
  {
    assert FirstBreak(p, 1).None?;
  }

  /** The first piece of a text with a break: not empty, closed by a sentence end, with no break inside. */
  lemma FirstPieceShape(s: string)
    requires FirstBreak(s, 1).Some?
    ensures var j := FirstBreak(s, 1).value;
      var rest := s[j + SpaceRun(s[j..])..];
      var p := s[..j];
      Pieces(s) == [p] + Pieces(rest) && ClosedPiece(p)
      && (rest == [] || !IsSpace(rest[0]))
  {
    var j := FirstBreak(s, 1).value;
    var p := s[..j];
    var n := SpaceRun(s[j..]);
    forall i ensures !IsBreakAt(p, i) {
      if IsBreakAt(p, i) {
        assert p[i] == s[i] && p[i - 1] == s[i - 1];
        assert IsBreakAt(s, i);
      }
    }
    var rest := s[j + n..];
    if rest != [] {
      assert rest[0] == s[j..][n];
    }
  }

  /** Two pieces joined by a space split back into the same two pieces. */
  lemma PiecesOfPair(p0: string, p1: string)
    requires ClosedPiece(p0)
    requires p1 != [] && !IsSpace(p1[0]) && NoBreak(p1)
    ensures Pieces(p0 + " " + p1) == [p0, p1]
  {
    var u := p0 + " " + p1;
    var j := |p0|;
    forall i | 1 <= i < j ensures !IsBreakAt(u, i) {
      assert u[i] == p0[i] && u[i - 1] == p0[i - 1];
      assert !IsBreakAt(p0, i);
    }
    assert IsBreakAt(u, j);
    assert FirstBreak(u, 1) == Some(j) by {
      FirstBreakIs(u, 1, j);
    }
    assert u[j..] == " " + p1;
    assert SpaceRun(u[j..]) == 1;
    assert u[j + 1..] == p1;
    assert u[..j] == p0;
    PiecesOfNoBreak(p1);
  }

  /** The first break is the one no earlier index beats. */
  lemma {:induction false} FirstBreakIs(s: string, k: nat, j: nat)
    requires k <= j && IsBreakAt(s, j) && forall i :: k <= i < j ==> !IsBreakAt(s, i)
    ensures FirstBreak(s, k) == Some(j)
    decreases j - k
  {
    if k < j {
      FirstBreakIs(s, k + 1, j);
    }
  }

  /** A piece closed by a sentence end, with no break inside. */
  predicate ClosedPiece(p: string)
  {
    p != [] && IsSentenceEnd(p[|p| - 1]) && NoBreak(p)
  }

  /** With more than two pieces, the first two are closed pieces and the second starts with no whitespace. */
  lemma TwoPiecesShape(s: string)
    requires |Pieces(s)| > 2
    ensures var ps := Pieces(s);
      ClosedPiece(ps[0]) && ClosedPiece(ps[1]) && ps[0][0] == s[0] && !IsSpace(ps[1][0])
  {
    FirstPieceShape(s);
    var j := FirstBreak(s, 1).value;
    var rest := s[j + SpaceRun(s[j..])..];
    assert Pieces(s) == [s[..j]] + Pieces(rest);
    assert s[..j][0] == s[0];
    assert |Pieces(rest)| > 1;
    FirstPieceShape(rest);
    var p1 := Pieces(rest)[0];
    assert p1[0] == rest[0];
  }

  /** A stripped text with more than two pieces is shortened to exactly its first two. */
  lemma KeepsTwoPieces(s: string)
    requires IsStripped(s) && |Pieces(s)| > 2
    ensures Pieces(FirstTwoPieces(s)) == Pieces(s)[..2]
  {
    var ps := Pieces(s);
    TwoPiecesShape(s);
    var p0, p1 := ps[0], ps[1];
    PiecesOfPair(p0, p1);
    var u := p0 + " " + p1;
    assert u[0] == p0[0] && u[|u| - 1] == p1[|p1| - 1];
    StripOfStripped(u);
    assert ps[..2] == [p0, p1];
  }


  // ------------------------------------------------------------ the pipeline

  /** `VoiceHandler._voice_safe_text`. */
  function VoiceSafeText(text: string): (r: string)
    ensures IsBlank(text) ==> r == []
  {
    var spoken := Strip(text);
    StripBlank(text);
    if spoken == [] then []
    else
      var linkless := RemoveUrls(spoken);
      var referenced := ReplaceSupportRefs(linkless);
      var spaced := Strip(SpacesToOne(referenced));
      var spelled := Replace(Replace(spaced, "APPR", "A P P R"), "PNR", "booking reference");
      var trimmed := RemoveNextStepOptions(spelled);
      FirstTwoPieces(Strip(CollapseSpaces(trimmed)))
  }

  /** What is spoken is stripped and holds at most two sentence pieces. */
  lemma VoiceSafeTextShape(text: string)
    ensures IsStripped(VoiceSafeText(text)) && |Pieces(VoiceSafeText(text))| <= 2
  {
    var spoken := Strip(text);
    if spoken != [] {
      var f := Strip(CollapseSpaces(RemoveNextStepOptions(Replace(Replace(
        Strip(SpacesToOne(ReplaceSupportRefs(RemoveUrls(spoken)))), "APPR", "A P P R"), "PNR", "booking reference"))));
      assert VoiceSafeText(text) == FirstTwoPieces(f);
      if |Pieces(f)| > 2 {
        KeepsTwoPieces(f);
        assert IsStripped(FirstTwoPieces(f));
      }
    } else {
      assert VoiceSafeText(text) == [];
      assert Pieces([]) == [[]];
    }
  }

  // -------------------------------------------------------- the spoken reply

  const SayLimit := 420

  /** `s.rsplit(" ", 1)[0]`: everything before the last space, or all of `s` without one. */
  function BeforeLastSpace(s: string): (r: string)
    ensures StartsWith(s, r)
    ensures Contains(s, " ") ==> |r| < |s| && s[|r|] == ' ' && forall j :: |r| < j < |s| ==> s[j] != ' '
    ensures !Contains(s, " ") ==> r == s
  {
    var i := RFind(s, " ", |s|);
    if i < 0 then
      s
    else
      assert forall j :: i < j < |s| ==> s[j] != ' ' by {
        forall j | i < j < |s| ensures s[j] != ' ' {
          assert !OccursAt(s, " ", j);
          assert s[j..j + 1] == [s[j]];
        }
      }
      assert s[i] == s[i..i + 1][0];
      assert Contains(s, " ");
      s[..i]
  }

  /** The `say_text` cap: over 420 characters, cut to 417, back to the last space, then "...". */
  function SayText(spoken: string): (r: string)
    ensures |r| <= SayLimit
    ensures |spoken| <= SayLimit ==> r == spoken
    ensures |spoken| > SayLimit ==>
      EndsWith(r, "...") && r == BeforeLastSpace(spoken[..417]) + "..." && StartsWith(spoken, r[..|r| - 3])
  {
    if |spoken| > SayLimit then
      var head := BeforeLastSpace(spoken[..417]);
      assert spoken[..|head|] == spoken[..417][..|head|];
      ConcatEnds(head, "...");
      assert (head + "...")[..|head|] == head;
      head + "..."
    else spoken
  }

  /** The answer `handle_transcript` returns. */
  datatype VoiceReply = VoiceReply(
    contactId: string, agent: string, state: string, sayText: string, fullText: string,
    nextActions: seq<string>, escalate: bool, transferRecommended: bool,
    citations: Value, officialNextSteps: Value, selfServiceOptions: Value,
    customerPlan: Value, metadata: Dict)

  /** `handle_transcript` once the orchestrator has answered with `response`. */
  function TranscriptReply(contactId: string, response: AgentResponse): (r: VoiceReply)
    ensures r.fullText == response.text
    ensures r.transferRecommended == r.escalate == response.escalate
    ensures |r.sayText| <= SayLimit
    ensures IsBlank(response.text) ==> r.sayText == []
    ensures r.citations == Get(response.metadata, "citations", List([]))
    ensures r.customerPlan == Get(response.metadata, "customer_plan", Dict(map[]))
  {
    var m := response.metadata;
    VoiceReply(
      contactId, response.agent, response.state.Name(),
      SayText(VoiceSafeText(response.text)), response.text,
      response.nextActions, response.escalate, response.escalate,
      Get(m, "citations", List([])), Get(m, "official_next_steps", List([])),
      Get(m, "self_service_options", List([])), Get(m, "customer_plan", Dict(map[])), m)
  }
}
