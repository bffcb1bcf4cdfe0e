/**
 * The static schedule of the simulated extraction run: seven stages, each
 * with the delay (milliseconds after the run starts) at which its timer
 * fires, the progress percentage it sets, the log message it writes and an
 * optional log type.
 */
module Stages {
  import opened Text
  import opened Options

  /** The `type` of a log entry. */
  datatype LogType = Info | Success | Final

  datatype Stage = Stage(msg: string, delay: nat, prog: nat, kind: Option<LogType>)

  const StageCount: nat := 7

  /** The log type a stage's entry gets: its own, or `info` when it has none. */
  function EffectiveType(st: Stage): LogType {
    st.kind.GetOr(Info)
  }

  const DetectedPrefix: string := "Detected "
  const DetectedSuffix: string := " records for processing..."

  /** The schedule of a run over `count` records; only the second message
      depends on the run, through the number of records it embeds. */
  function Schedule(count: nat): (steps: seq<Stage>)
    ensures |steps| == StageCount
    ensures steps[1].msg == DetectedPrefix + NatToString(count) + DetectedSuffix
    ensures steps[StageCount - 1].kind == Some(Final) && steps[StageCount - 1].prog == 100
  {
    [ Stage("Initializing Node.js automation engine...", 500, 10, None),
      Stage(DetectedPrefix + NatToString(count) + DetectedSuffix, 1000, 25, None),
      Stage("Analyzing document structure with AI/OCR...", 1500, 40, None),
      Stage("Extracting line items and financial data...", 2000, 60, Some(Success)),
      Stage("Cross-checking with CRM records...", 2500, 80, None),
      Stage("Validation successful. Mapping results...", 3000, 95, Some(Success)),
      Stage("Process completed. High-fidelity data ready.", 3500, 100, Some(Final)) ]
  }

  /** The progress shown once the first `fired` stages of `steps` have fired. */
  function ProgressAfter(steps: seq<Stage>, fired: nat): nat
    requires fired <= |steps|
  {
    if fired == 0 then 0 else steps[fired - 1].prog
  }

  /** Stage i fires 500 (i + 1) ms after the start, so delays strictly
      increase from 500 to 3500 and the timers fire in index order. */
  lemma ScheduleDelays(count: nat)
    ensures |Schedule(count)| == StageCount
    ensures forall i :: 0 <= i < StageCount ==> Schedule(count)[i].delay == 500 * (i + 1)
    ensures forall i, j :: 0 <= i < StageCount && 0 <= j < StageCount ==>
              (Schedule(count)[i].delay < Schedule(count)[j].delay <==> i < j)
  {
    var s := Schedule(count);
    forall i | 0 <= i < StageCount ensures s[i].delay == 500 * (i + 1) {
      if i == 0 {} else if i == 1 {} else if i == 2 {} else if i == 3 {}
      else if i == 4 {} else if i == 5 {} else {}
    }
  }

  /** Progress never decreases along the schedule, stays within 0..100, and
      the last stage brings it to 100. */
  lemma ScheduleProgress(count: nat)
    ensures |Schedule(count)| == StageCount
    ensures forall i, j :: 0 <= i <= j < StageCount ==> Schedule(count)[i].prog <= Schedule(count)[j].prog
    ensures forall i :: 0 <= i < StageCount ==> 0 < Schedule(count)[i].prog <= 100
    ensures Schedule(count)[StageCount - 1].prog == 100
  {
    var s := Schedule(count);
    forall i, j | 0 <= i <= j < StageCount ensures s[i].prog <= s[j].prog {
      assert s[0].prog <= s[1].prog <= s[2].prog <= s[3].prog <= s[4].prog <= s[5].prog <= s[6].prog;
      if i == 0 {} else if i == 1 {} else if i == 2 {} else if i == 3 {}
      else if i == 4 {} else if i == 5 {} else {}
    }
    forall i | 0 <= i < StageCount ensures 0 < s[i].prog <= 100 {
      if i == 0 {} else if i == 1 {} else if i == 2 {} else if i == 3 {}
      else if i == 4 {} else if i == 5 {} else {}
    }
  }

  /** Exactly the last stage is the `final` one, whether one looks at the
      declared type or at the type its log entry gets. */
  lemma ScheduleFinal(count: nat)
    ensures |Schedule(count)| == StageCount
    ensures forall i :: 0 <= i < StageCount ==>
              (Schedule(count)[i].kind == Some(Final) <==> i == StageCount - 1)
    ensures forall i :: 0 <= i < StageCount ==>
              (EffectiveType(Schedule(count)[i]) == Final <==> i == StageCount - 1)
  {
    var s := Schedule(count);
    forall i | 0 <= i < StageCount
      ensures s[i].kind == Some(Final) <==> i == StageCount - 1
      ensures EffectiveType(s[i]) == Final <==> i == StageCount - 1
    {
      if i == 0 {} else if i == 1 {} else if i == 2 {} else if i == 3 {}
      else if i == 4 {} else if i == 5 {} else {}
    }
  }

  /** The progress after k fired stages grows with k, ends at 100 once all
      seven have fired, and is below 100 before. */
  lemma ProgressAfterMonotone(count: nat, k: nat, m: nat)
    requires k <= m <= StageCount
    ensures ProgressAfter(Schedule(count), k) <= ProgressAfter(Schedule(count), m)
    ensures ProgressAfter(Schedule(count), StageCount) == 100
    ensures k < StageCount ==> ProgressAfter(Schedule(count), k) < 100
  {
    ScheduleProgress(count);
    var s := Schedule(count);
    if k < StageCount {
      if k == 0 {} else if k == 1 {} else if k == 2 {} else if k == 3 {}
      else if k == 4 {} else if k == 5 {} else {}
    }
  }

  /** The second message names the number of records of the run in decimal,
      and that number can be read back from it. */
  lemma DetectedMessage(count: nat)
    ensures exists digits :: IsDigits(digits) && ParseDigits(digits) == count
              && Schedule(count)[1].msg == DetectedPrefix + digits + DetectedSuffix
  {
    ParseNatToString(count);
    var digits := NatToString(count);
    assert Schedule(count)[1].msg == DetectedPrefix + digits + DetectedSuffix;
  }

  /** Two runs' schedules differ at most in that second message. */
  lemma ScheduleOnlyCountDiffers(m: nat, n: nat)
    ensures |Schedule(m)| == |Schedule(n)|
    ensures forall i :: 0 <= i < StageCount && i != 1 ==> Schedule(m)[i] == Schedule(n)[i]
    ensures Schedule(m)[1].delay == Schedule(n)[1].delay && Schedule(m)[1].prog == Schedule(n)[1].prog
    ensures Schedule(m)[1].kind == Schedule(n)[1].kind
    ensures Schedule(m)[1] == Schedule(n)[1] <==> m == n
  {
    if Schedule(m)[1] == Schedule(n)[1] {
      var a, b := NatToString(m), NatToString(n);
      assert DetectedPrefix + a + DetectedSuffix == DetectedPrefix + b + DetectedSuffix;
      assert a == (DetectedPrefix + a + DetectedSuffix)[9..9 + |a|];
      assert |a| == |b|;
      assert b == (DetectedPrefix + b + DetectedSuffix)[9..9 + |b|];
      NatToStringInjective(m, n);
    }
  }
}
