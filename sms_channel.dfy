/**
 * SMS segmentation (channels/sms_handler.py).
 *
 * A reply is stripped and, when it does not fit one segment, cut repeatedly:
 * at the last ". " inside the limit, else at the last space, else hard at the
 * limit. Each piece and the rest are stripped again, and empty pieces are
 * dropped at the end. `SplitMessage` is the loop; `Split` and `Segments` say
 * what it computes, and the lemmas below state what a caller may rely on.
 */
module SmsChannel {
  import opened Text

  /** The handler's default `segment_size`. */
  const DefaultSegmentSize := 160

  /** Some `pat` starts at an index in `[1, end - |pat|]`, that is `s.rfind(pat, 0, end) > 0`. */
  predicate FoundAfterStart(s: string, pat: string, end: int)
  {
    OccursBetween(s, pat, 1, end)
  }

  /** `c` is the last index >= 1 at which `pat` fits inside `s[:end]`. */
  predicate LastAfterStart(s: string, pat: string, end: int, c: int)
  {
    1 <= c && c + |pat| <= end && OccursAt(s, pat, c)
    && forall j :: c < j && j + |pat| <= end ==> !OccursAt(s, pat, j)
  }

  /** Where a too-long `rem` is cut: the last ". ", else the last space, else the limit. */
  function Cut(rem: string, size: int): (c: int)
    requires 1 <= size < |rem|
    ensures 1 <= c <= size
    ensures FoundAfterStart(rem, ". ", size) ==> LastAfterStart(rem, ". ", size, c)
    ensures !FoundAfterStart(rem, ". ", size) && FoundAfterStart(rem, " ", size) ==>
      LastAfterStart(rem, " ", size, c)
    ensures !FoundAfterStart(rem, ". ", size) && !FoundAfterStart(rem, " ", size) ==> c == size
  {
    var dot := RFind(rem, ". ", size);
    if dot > 0 then dot
    else
      var space := RFind(rem, " ", size);
      if space > 0 then space else size
  }

  /** The pieces the loop appends, starting from the stripped text `rem`. */
  function Segments(rem: string, size: int): seq<string>
    requires size >= 1
    decreases |rem|
  {
    if rem == [] then []
    else if |rem| <= size then [rem]
    else
      var c := Cut(rem, size);
      [Strip(rem[..c])] + Segments(Strip(rem[c..]), size)
  }

  lemma UnfoldSegments(rem: string, size: int)
    requires 1 <= size < |rem|
    ensures Segments(rem, size)
      == [Strip(rem[..Cut(rem, size)])] + Segments(Strip(rem[Cut(rem, size)..]), size)
  {}

  /** `[p for p in parts if p]`. */
  function NonEmpty(parts: seq<string>): (r: seq<string>)
    ensures forall i :: 0 <= i < |r| ==> r[i] != []
    ensures (forall i :: 0 <= i < |parts| ==> parts[i] != []) ==> r == parts
  {
    if parts == [] then []
    else if parts[0] == [] then NonEmpty(parts[1..])
    else [parts[0]] + NonEmpty(parts[1..])
  }

  /** What `split_message(text)` returns for a `segment_size` of `size`. */
  function Split(text: string, size: int): seq<string>
    requires size >= 1
  {
    var t := Strip(text);
    if |t| <= size then [t] else NonEmpty(Segments(t, size))
  }

  /** The cut point the loop chooses: `rfind(". ")`, else `rfind(" ")`, else the limit. */
  method CutPoint(remaining: string, segmentSize: int) returns (cut: int)
    requires 1 <= segmentSize < |remaining|
    ensures cut == Cut(remaining, segmentSize)
  {
    cut := RFind(remaining, ". ", segmentSize);
    if cut <= 0 {
      cut := RFind(remaining, " ", segmentSize);
    }
    if cut <= 0 {
      cut := segmentSize;
    }
  }

  /** Appending the stripped piece before the cut keeps the loop's account of the segments. */
  lemma SegmentsStep(all: seq<string>, acc: seq<string>, rem: string, size: int)
    requires 1 <= size < |rem|
    requires all == acc + Segments(rem, size)
    ensures var c := Cut(rem, size);
      all == (acc + [Strip(rem[..c])]) + Segments(Strip(rem[c..]), size)
  {
    UnfoldSegments(rem, size);
    var c := Cut(rem, size);
    var piece := Strip(rem[..c]);
    var later := Segments(Strip(rem[c..]), size);
    assert acc + ([piece] + later) == (acc + [piece]) + later;
  }

  /** `SMSHandler.split_message`: the segmentation loop. */
  method SplitMessage(text: string, segmentSize: int) returns (parts: seq<string>)
    requires segmentSize >= 1
    ensures parts == Split(text, segmentSize)
  {
    var t := Strip(text);
    if |t| <= segmentSize {
      return [t];
    }
    var acc: seq<string> := [];
    var remaining := t;
    while remaining != []
      invariant Segments(t, segmentSize) == acc + Segments(remaining, segmentSize)
      decreases |remaining|
    {
      if |remaining| <= segmentSize {
        assert Segments(remaining, segmentSize) == [remaining];
        acc := acc + [remaining];
        break;
      }
      var cut := CutPoint(remaining, segmentSize);
      SegmentsStep(Segments(t, segmentSize), acc, remaining, segmentSize);
      acc := acc + [Strip(remaining[..cut])];
      remaining := Strip(remaining[cut..]);
    }
    assert acc == Segments(t, segmentSize);
    parts := NonEmpty(acc);
  }

  // ------------------------------------------------------------- properties

  /** A stripped text that fits is returned whole, so a blank text gives one empty segment. */
  lemma ShortTextIsOneSegment(text: string, size: int)
    requires size >= 1
    ensures |Strip(text)| <= size ==> Split(text, size) == [Strip(text)]
    ensures IsBlank(text) ==> Split(text, size) == [""]
  {
    StripBlank(text);
  }

  /** Every piece is at most `size` long and, from a stripped text, not empty. */
  lemma {:induction false} SegmentsShape(rem: string, size: int)
    requires size >= 1 && IsStripped(rem)
    ensures forall i :: 0 <= i < |Segments(rem, size)| ==>
      0 < |Segments(rem, size)[i]| <= size
    decreases |rem|
  {
    if rem != [] && |rem| > size {
      var c := Cut(rem, size);
      var head := Strip(rem[..c]);
      assert rem[..c][0] == rem[0];
      StripBlank(rem[..c]);
      SegmentsShape(Strip(rem[c..]), size);
    }
  }

  /** Every returned segment fits in `size`. */
  lemma SegmentsFit(text: string, size: int)
    requires size >= 1
    ensures forall i :: 0 <= i < |Split(text, size)| ==> |Split(text, size)[i]| <= size
  {
    SegmentsShape(Strip(text), size);
  }

  /** On the long path no segment is empty, and the final filter drops nothing. */
  lemma LongTextHasNoEmptySegment(text: string, size: int)
    requires size >= 1 && |Strip(text)| > size
    ensures Split(text, size) == Segments(Strip(text), size)
    ensures forall i :: 0 <= i < |Split(text, size)| ==> Split(text, size)[i] != []
  {
    SegmentsShape(Strip(text), size);
  }

  // ------------------------------------------------- non-whitespace characters

  /** The non-whitespace characters of `s`, in order. */
  function NonSpace(s: string): (r: string)
    ensures HasNoSpace(r) && |r| <= |s|
  {
    if s == [] then []
    else if IsSpace(s[0]) then NonSpace(s[1..])
    else [s[0]] + NonSpace(s[1..])
  }

  lemma {:induction false} NonSpaceConcat(a: string, b: string)
    ensures NonSpace(a + b) == NonSpace(a) + NonSpace(b)
    decreases |a|
  {
    if a == [] {
      assert a + b == b;
    } else {
      assert (a + b)[0] == a[0];
      assert (a + b)[1..] == a[1..] + b;
      NonSpaceConcat(a[1..], b);
    }
  }

  lemma {:induction false} NonSpaceBlank(s: string)
    requires IsBlank(s)
    ensures NonSpace(s) == []
    decreases |s|
  {
    if s != [] {
      NonSpaceBlank(s[1..]);
    }
  }

  lemma NonSpaceLStrip(s: string)
    ensures NonSpace(LStrip(s)) == NonSpace(s)
  {
    var l := LStrip(s);
    LStripRemovesSpace(s);
    var front := s[..|s| - |l|];
    assert IsBlank(front) by {
      forall i | 0 <= i < |front| ensures IsSpace(front[i]) {
        assert front[i] == s[i];
      }
    }
    assert s == front + l;
    NonSpaceConcat(front, l);
    NonSpaceBlank(front);
  }

  lemma NonSpaceRStrip(s: string)
    ensures NonSpace(RStrip(s)) == NonSpace(s)
  {
    var r := RStrip(s);
    RStripRemovesSpace(s);
    var back := s[|r|..];
    assert IsBlank(back) by {
      forall i | 0 <= i < |back| ensures IsSpace(back[i]) {
        assert back[i] == s[|r| + i];
      }
    }
    assert s == r + back;
    NonSpaceConcat(r, back);
    NonSpaceBlank(back);
  }

  /** Stripping removes only whitespace. */
  lemma NonSpaceStrip(s: string)
    ensures NonSpace(Strip(s)) == NonSpace(s)
  {
    NonSpaceLStrip(s);
    NonSpaceRStrip(LStrip(s));
  }

  /** Stripping both halves of a text loses no non-whitespace character. */
  lemma StripHalvesKeepText(front: string, back: string)
    ensures NonSpace(front + back) == NonSpace(Strip(front)) + NonSpace(Strip(back))
  {
    NonSpaceStrip(front);
    NonSpaceStrip(back);
    NonSpaceConcat(front, back);
  }

  /** Cutting a text anywhere and stripping both sides loses no non-whitespace character. */
  lemma CutKeepsText(rem: string, c: nat)
    requires c <= |rem|
    ensures NonSpace(rem) == NonSpace(Strip(rem[..c])) + NonSpace(Strip(rem[c..]))
  {
    assert rem == rem[..c] + rem[c..];
    StripHalvesKeepText(rem[..c], rem[c..]);
  }

  /** The concatenated segments of a long text are its first piece followed by the rest's. */
  lemma ConcatSegments(rem: string, size: int)
    requires 1 <= size < |rem|
    ensures var c := Cut(rem, size);
      NonSpace(Concat(Segments(rem, size)))
      == NonSpace(Strip(rem[..c])) + NonSpace(Concat(Segments(Strip(rem[c..]), size)))
  {
    var c := Cut(rem, size);
    var head := Strip(rem[..c]);
    var segs := Segments(Strip(rem[c..]), size);
    UnfoldSegments(rem, size);
    assert ([head] + segs)[1..] == segs;
    NonSpaceConcat(head, Concat(segs));
  }

  lemma {:induction false} SegmentsKeepText(rem: string, size: int)
    requires size >= 1
    ensures NonSpace(Concat(Segments(rem, size))) == NonSpace(rem)
    decreases |rem|
  {
    if rem != [] && |rem| > size {
      var c := Cut(rem, size);
      SegmentsKeepText(Strip(rem[c..]), size);
      ConcatSegments(rem, size);
      CutKeepsText(rem, c);
    } else if rem != [] {
      assert Segments(rem, size) == [rem];
      assert Concat([rem]) == rem + Concat([]);
      assert rem + [] == rem;
    }
  }

  /** Concatenating the segments keeps every non-whitespace character of the input, in order. */
  lemma SplitKeepsText(text: string, size: int)
    requires size >= 1
    ensures NonSpace(Concat(Split(text, size))) == NonSpace(text)
  {
    var t := Strip(text);
    NonSpaceStrip(text);
    if |t| <= size {
      assert Concat([t]) == t + Concat([]);
      assert t + [] == t;
    } else {
      LongTextHasNoEmptySegment(text, size);
      SegmentsKeepText(t, size);
    }
  }

  /** A stripped text opens with its first segment's first character. */
  lemma SegmentsOpen(rem: string, size: int)
    requires size >= 1 && rem != [] && !IsSpace(rem[0])
    ensures |Segments(rem, size)| >= 1 && |Segments(rem, size)[0]| > 0
    ensures Segments(rem, size)[0][0] == rem[0]
  {
    if |rem| > size {
      var c := Cut(rem, size);
      UnfoldSegments(rem, size);
      StripOpen(rem[..c]);
    }
  }

  /** Stripping a text that opens with a non-whitespace character keeps that character first. */
  lemma StripOpen(s: string)
    requires s != [] && !IsSpace(s[0])
    ensures Strip(s) != [] && Strip(s)[0] == s[0]
  {
    assert LStrip(s) == s;
    RStripRemovesSpace(s);
  }

  /** A first cut at ". " leaves the period at the start of the second segment. */
  lemma PeriodOpensNextSegment(text: string, size: int)
    requires size >= 1 && |Strip(text)| > size
    requires FoundAfterStart(Strip(text), ". ", size)
    ensures var r := Split(text, size);
      |r| >= 2 && |r[1]| > 0 && r[1][0] == '.'
  {
    var t := Strip(text);
    LongTextHasNoEmptySegment(text, size);
    var c := Cut(t, size);
    var tail := t[c..];
    assert t[c..c + 2] == ". ";
    assert tail[0] == '.';
    StripOpen(tail);
    SegmentsOpen(Strip(tail), size);
    UnfoldSegments(t, size);
  }
}
