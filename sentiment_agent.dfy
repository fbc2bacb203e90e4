/**
 * Per-turn sentiment scoring with a bounded per-session valence trajectory.
 *
 * Valence is kept in integer hundredths: every keyword hit moves it by 35,
 * it is clamped to [-100, 100], and an exclamation mark with a negative hit
 * subtracts 20 more. The "negative turn" threshold -0.2 becomes -20.
 */
module SentimentAgent {
  import opened Text
  import opened Values

  const TrajectoryLimit: nat := 6
  const NegativeThreshold: int := -20

  function NegativeTerms(): seq<string>
  {
    ["angry", "upset", "terrible", "awful", "ridiculous", "unacceptable", "frustrated", "sue", "lawyer"]
  }

  function PositiveTerms(): seq<string> { ["thanks", "thank you", "great", "helpful"] }

  function LegalTerms(): seq<string> { ["lawyer", "legal", "court", "sue", "cbc", "media"] }

  const Preamble: string := "I’m sorry this has been frustrating. I’ll keep this as quick and clear as possible. "

  /** A term with a space is a substring test; a single word must stand between word boundaries. */
  predicate HasTerm(lower: string, term: string)
  {
    if ' ' in term then Contains(lower, term) else HasWord(lower, term)
  }

  function CountHits(lower: string, terms: seq<string>): (n: nat)
    ensures n <= |terms|
  {
    if terms == [] then 0
    else (if HasTerm(lower, terms[0]) then 1 else 0) + CountHits(lower, terms[1..])
  }

  function Clamp(x: int, lo: int, hi: int): (r: int)
    requires lo <= hi
    ensures lo <= r <= hi
    ensures lo <= x <= hi ==> r == x
  {
    if x < lo then lo else if x > hi then hi else x
  }

  function NegativeHits(text: string): nat { CountHits(Lower(text), NegativeTerms()) }
  function PositiveHits(text: string): nat { CountHits(Lower(text), PositiveTerms()) }

  /** Valence of one message, in hundredths. */
  function Valence(text: string): (v: int)
    ensures -100 <= v <= 100
    ensures NegativeHits(text) == 0 ==> v == Clamp(35 * PositiveHits(text), -100, 100)
    ensures '!' in text && NegativeHits(text) > 0 ==>
      v == Clamp(Clamp(35 * (PositiveHits(text) - NegativeHits(text)), -100, 100) - 20, -100, 100)
  {
    var n := NegativeHits(text);
    var p := PositiveHits(text);
    var base := Clamp(35 * (p - n), -100, 100);
    if '!' in text && n > 0 then Clamp(base - 20, -100, 100) else base
  }

  datatype Arousal = Low | Medium | High
  {
    function Name(): string { match this case Low => "low" case Medium => "medium" case High => "high" }
  }

  datatype Emotion = Neutral | Satisfied | Frustrated | Angry
  {
    function Name(): string
    {
      match this case Neutral => "neutral" case Satisfied => "satisfied" case Frustrated => "frustrated" case Angry => "angry"
    }
  }

  function ArousalOf(text: string): (a: Arousal)
    ensures a == High <==> NegativeHits(text) >= 2 || ('!' in text && NegativeHits(text) > 0)
    ensures a == Low <==> NegativeHits(text) == 0
  {
    var n := NegativeHits(text);
    if n >= 2 || ('!' in text && n > 0) then High else if n > 0 then Medium else Low
  }

  function EmotionOf(text: string): (e: Emotion)
    ensures e == Angry <==> NegativeHits(text) >= 2
    ensures e == Frustrated <==> NegativeHits(text) == 1
    ensures e == Satisfied <==> NegativeHits(text) == 0 && PositiveHits(text) > 0
    ensures e == Neutral <==> NegativeHits(text) == 0 && PositiveHits(text) == 0
  {
    var n := NegativeHits(text);
    if n >= 2 then Angry else if n == 1 then Frustrated else if PositiveHits(text) > 0 then Satisfied else Neutral
  }

  predicate LegalRisk(text: string) { CountHits(Lower(text), LegalTerms()) > 0 }

  /** Length of the run of values below the threshold at the end of the trajectory. */
  function TrailingNegativeRun(traj: seq<int>): (n: nat)
    ensures n <= |traj|
    ensures traj == [] || traj[|traj| - 1] >= NegativeThreshold ==> n == 0
    ensures forall j :: |traj| - n <= j < |traj| ==> traj[j] < NegativeThreshold
    ensures n < |traj| ==> traj[|traj| - 1 - n] >= NegativeThreshold
  {
    if traj == [] || traj[|traj| - 1] >= NegativeThreshold then 0
    else 1 + TrailingNegativeRun(traj[..|traj| - 1])
  }

  /** Appending to a bounded deque: the newest `TrajectoryLimit` values survive. */
  function PushBounded(traj: seq<int>, v: int): (r: seq<int>)
    ensures |r| <= TrajectoryLimit && |r| > 0 && r[|r| - 1] == v
    ensures r == TakeLast(traj + [v], TrajectoryLimit)
  {
    TakeLast(traj + [v], TrajectoryLimit)
  }

  datatype Sentiment = Sentiment(
    valence: int, arousal: Arousal, emotion: Emotion, consecutiveNegativeTurns: nat,
    trajectory: seq<int>, escalateImmediately: bool, deescalationPreamble: string)

  /** The reported analysis of `text` given the session's updated trajectory. */
  function Analysis(text: string, recent: seq<int>): (s: Sentiment)
    ensures s.escalateImmediately <==> LegalRisk(text) || TrailingNegativeRun(recent) >= 3
    ensures s.deescalationPreamble != "" <==> ArousalOf(text) == High && Valence(text) < NegativeThreshold
  {
    var run := TrailingNegativeRun(recent);
    var v := Valence(text);
    var a := ArousalOf(text);
    Sentiment(v, a, EmotionOf(text), run, recent, LegalRisk(text) || run >= 3,
              if a == High && v < NegativeThreshold then Preamble else "")
  }

  /** The analysis as the metadata dictionary attached to responses (valence as a decimal). */
  function ToValue(s: Sentiment): (v: Value)
    ensures v.Dict? && "escalate_immediately" in v.fields && v.fields["escalate_immediately"] == Bool(s.escalateImmediately)
  {
    Dict(map[
      "valence" := Num(s.valence as real / 100.0),
      "arousal" := Str(s.arousal.Name()),
      "emotion" := Str(s.emotion.Name()),
      "consecutive_negative_turns" := Int(s.consecutiveNegativeTurns),
      "trajectory" := List(Hundredths(s.trajectory)),
      "escalate_immediately" := Bool(s.escalateImmediately),
      "deescalation_preamble" := Str(s.deescalationPreamble)])
  }

  function Hundredths(xs: seq<int>): (r: seq<Value>)
    ensures |r| == |xs|
  {
    if xs == [] then [] else [Num(xs[0] as real / 100.0)] + Hundredths(xs[1..])
  }

  class SentimentTracker {
    /** `_trajectories`: session id to its most recent valences, oldest first. */
    var trajectories: map<string, seq<int>>

    ghost predicate Valid()
      reads this
    {
      forall sid :: sid in trajectories ==> |trajectories[sid]| <= TrajectoryLimit
    }

    constructor ()
      ensures Valid() && trajectories == map[]
    {
      trajectories := map[];
    }

    function Trajectory(sessionId: string): seq<int>
      reads this
    {
      if sessionId in trajectories then trajectories[sessionId] else []
    }

    method Analyze(sessionId: string, text: string) returns (s: Sentiment)
      requires Valid()
      modifies this
      ensures Valid()
      ensures trajectories == old(trajectories)[sessionId := PushBounded(old(Trajectory(sessionId)), Valence(text))]
      ensures s == Analysis(text, trajectories[sessionId])
    {
      var valence := Valence(text);
      var recent := Record(sessionId, valence);
      var consecutive := CountTrailingNegatives(recent);
      var legal := LegalRisk(text);
      var arousal := ArousalOf(text);
      var preamble := "";
      if arousal == High && valence < NegativeThreshold {
        preamble := Preamble;
      }
      s := Sentiment(valence, arousal, EmotionOf(text), consecutive, recent, legal || consecutive >= 3, preamble);
      assert trajectories[sessionId] == recent;
    }

    /** Appends one valence to the session's bounded trajectory and returns the new trajectory. */
    method Record(sessionId: string, valence: int) returns (recent: seq<int>)
      requires Valid()
      modifies this
      ensures Valid()
      ensures recent == PushBounded(old(Trajectory(sessionId)), valence)
      ensures trajectories == old(trajectories)[sessionId := recent]
    {
      var previous := Trajectory(sessionId);
      recent := PushBounded(previous, valence);
      assert |recent| <= TrajectoryLimit;
      ghost var before := trajectories;
      trajectories := trajectories[sessionId := recent];
      forall sid | sid in trajectories
        ensures |trajectories[sid]| <= TrajectoryLimit
      {
        if sid != sessionId {
          assert trajectories[sid] == before[sid];
        }
      }
    }
  }

  /** The reverse scan of the trajectory that stops at the first value at or above the threshold. */
  method CountTrailingNegatives(recent: seq<int>) returns (consecutive: nat)
    ensures consecutive == TrailingNegativeRun(recent)
  {
    consecutive := 0;
    var i := |recent|;
    while i > 0
      invariant 0 <= i <= |recent|
      invariant consecutive == |recent| - i
      invariant forall j :: i <= j < |recent| ==> recent[j] < NegativeThreshold
      decreases i
    {
      if recent[i - 1] < NegativeThreshold {
        consecutive := consecutive + 1;
        i := i - 1;
      } else {
        break;
      }
    }
    RunFromBoundary(recent, i);
  }

  /** A maximal negative suffix starting at i is the trailing run. */
  lemma {:induction false} RunFromBoundary(traj: seq<int>, i: nat)
    requires i <= |traj|
    requires forall j :: i <= j < |traj| ==> traj[j] < NegativeThreshold
    requires i == 0 || traj[i - 1] >= NegativeThreshold
    ensures TrailingNegativeRun(traj) == |traj| - i
    decreases |traj|
  {
    if i < |traj| {
      var init := traj[..|traj| - 1];
      assert forall j :: i <= j < |init| ==> init[j] == traj[j];
      assert i == 0 || init[i - 1] == traj[i - 1];
      RunFromBoundary(init, i);
    }
  }

  // ------------------------------------------------------------ properties

  /** The consecutive-negative count never exceeds the trajectory bound. */
  lemma RunAtMostSix(traj: seq<int>)
    requires |traj| <= TrajectoryLimit
    ensures TrailingNegativeRun(traj) <= 6
  {}

  /** "issue" contains "sue" but never counts as the word "sue". */
  lemma IssueIsNotSue()
    ensures !HasTerm("issue", "sue")
  {
    var s := "issue";
    forall i | 0 <= i <= |s| - 3 && OccursAt(s, "sue", i)
      ensures !(WordStart(s, i) && WordEnd(s, i + 3))
    {
      assert IsWordChar(s[1]);
    }
  }

  /** One positive hit, one negative hit and "!" give valence exactly -0.2: no preamble and the run resets. */
  lemma BalancedExclamationResetsRun(text: string, traj: seq<int>)
    requires NegativeHits(text) == 1 && PositiveHits(text) == 1 && '!' in text
    ensures Valence(text) == -20
    ensures Analysis(text, PushBounded(traj, Valence(text))).deescalationPreamble == ""
    ensures Analysis(text, PushBounded(traj, Valence(text))).consecutiveNegativeTurns == 0
  {}

  /** Two negative hits are always "high" arousal and, without positives or "!", valence -0.7. */
  lemma TwoNegativesAreHigh(text: string)
    requires NegativeHits(text) == 2 && PositiveHits(text) == 0 && '!' !in text
    ensures ArousalOf(text) == High && Valence(text) == -70 && Analysis(text, [-70]).deescalationPreamble == Preamble
  {}

  /** Three negative turns in a row escalate, whatever the text. */
  lemma ThreeNegativeTurnsEscalate(text: string, recent: seq<int>)
    requires |recent| >= 3
    requires recent[|recent| - 1] < NegativeThreshold && recent[|recent| - 2] < NegativeThreshold
    requires recent[|recent| - 3] < NegativeThreshold
    ensures Analysis(text, recent).escalateImmediately
  {
    var n := TrailingNegativeRun(recent);
  }
}
