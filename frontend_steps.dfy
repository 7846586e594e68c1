/** The three-step progress indicator: which state each pipeline step shows
    for the transcription's current status string. */
module StepIndicator {
  import opened Wrappers
  import opened FrontendApi

  datatype StepId = TranscriptionStep | ExtractionStep | DiagnosisStep

  datatype Step = Step(id: StepId, title: string, started: string, finished: string, error: string)

  const Steps: seq<Step> := [
    Step(TranscriptionStep, "Transcription",
         MapValue(TranscriptionStarted), MapValue(TranscriptionFinished), MapValue(TranscriptionError)),
    Step(ExtractionStep, "Information Extraction",
         MapValue(InformationExtractionStarted), MapValue(InformationExtractionFinished), MapValue(InformationExtractionError)),
    Step(DiagnosisStep, "Diagnosis Generation",
         MapValue(DiagnosisStarted), MapValue(DiagnosisFinished), MapValue(DiagnosisError))]

  /** The order of the non-error statuses. */
  const StepOrder: seq<string> := [
    MapValue(TranscriptionStarted), MapValue(TranscriptionFinished),
    MapValue(InformationExtractionStarted), MapValue(InformationExtractionFinished),
    MapValue(DiagnosisStarted), MapValue(DiagnosisFinished)]

  /** `Array.prototype.indexOf`: the first position of `x`, or -1. */
  function IndexOf(xs: seq<string>, x: string): (r: int)
    ensures -1 <= r < |xs|
    ensures r == -1 <==> x !in xs
    ensures r >= 0 ==> xs[r] == x && x !in xs[..r]
  {
    if xs == [] then -1
    else if xs[0] == x then 0
    else
      var i := IndexOf(xs[1..], x);
      assert xs[1..][..(if i < 0 then 0 else i)] == xs[1..(if i < 0 then 1 else i + 1)];
      if i == -1 then -1 else i + 1
  }

  datatype StepStatus = Pending | Errored | Completed | InProgress

  /** The position in `StepOrder` a step counts as finished at, chosen by
      the step's id. */
  function FinishedIndex(id: StepId): int {
    match id
    case TranscriptionStep => IndexOf(StepOrder, MapValue(TranscriptionFinished))
    case ExtractionStep => IndexOf(StepOrder, MapValue(InformationExtractionFinished))
    case DiagnosisStep => IndexOf(StepOrder, MapValue(DiagnosisFinished))
  }

  /** `getStepStatus`. A missing or empty status leaves the step pending. */
  function GetStepStatus(status: Option<string>, step: Step): (r: StepStatus)
    ensures status.None? ==> r == Pending
  {
    if status.None? || status.value == "" then Pending
    else
      var s := status.value;
      if s == step.error then Errored
      else if s == step.finished then Completed
      else if s == step.started then InProgress
      else
        var current := IndexOf(StepOrder, s);
        if current == -1 then Pending
        else if current > FinishedIndex(step.id) then Completed
        else Pending
  }

  /** The keys behind `StepOrder`, position by position. */
  const OrderKeys: seq<StatusKey> := [
    TranscriptionStarted, TranscriptionFinished,
    InformationExtractionStarted, InformationExtractionFinished,
    DiagnosisStarted, DiagnosisFinished]

  lemma {:induction false} IndexOfDistinct(xs: seq<string>, k: nat)
    requires k < |xs| && forall i, j :: 0 <= i < j < |xs| ==> xs[i] != xs[j]
    ensures IndexOf(xs, xs[k]) == k
  {
  }

  lemma OrderFromKeys()
    ensures |StepOrder| == |OrderKeys| == 6
    ensures forall i :: 0 <= i < 6 ==> StepOrder[i] == MapValue(OrderKeys[i])
  {
  }

  /** No status appears twice in the order. */
  lemma OrderDistinct()
    ensures |StepOrder| == 6
    ensures forall i, j :: 0 <= i < j < 6 ==> StepOrder[i] != StepOrder[j]
  {
    OrderFromKeys();
    forall i, j | 0 <= i < j < 6 ensures StepOrder[i] != StepOrder[j] {
      ValueOfKey(OrderKeys[i]);
    }
  }

  lemma FinishedIndices()
    ensures FinishedIndex(TranscriptionStep) == 1
    ensures FinishedIndex(ExtractionStep) == 3
    ensures FinishedIndex(DiagnosisStep) == 5
  {
    OrderDistinct();
    IndexOfDistinct(StepOrder, 1);
    IndexOfDistinct(StepOrder, 3);
    IndexOfDistinct(StepOrder, 5);
  }

  /** The error status of a step is not in the order at all. */
  lemma ErrorOffOrder(i: nat)
    requires i < 3
    ensures Steps[i].error !in StepOrder
  {
    OrderFromKeys();
    var e := if i == 0 then TranscriptionError else if i == 1 then InformationExtractionError else DiagnosisError;
    assert Steps[i].error == MapValue(e);
    forall j | 0 <= j < 6 ensures StepOrder[j] != Steps[i].error {
      ValueOfKey(OrderKeys[j]);
    }
  }

  /** Step `i` starts at position 2i of the order and finishes at 2i+1,
      which is also the position its id looks up; its error status is not in
      the order at all. */
  lemma {:induction false} StepPositions(i: nat)
    requires i < 3
    ensures Steps[i].started == StepOrder[2 * i] && Steps[i].finished == StepOrder[2 * i + 1]
    ensures FinishedIndex(Steps[i].id) == 2 * i + 1
    ensures Steps[i].error !in StepOrder
  {
    FinishedIndices();
    ErrorOffOrder(i);
    if i == 0 {
      assert Steps[0].finished == StepOrder[1];
    } else if i == 1 {
      assert Steps[1].finished == StepOrder[3];
    } else {
      assert Steps[2].finished == StepOrder[5];
    }
  }

  /** In a sequence without repeats, two positions hold equal elements
      only when they are the same position. */
  lemma DistinctPositions(xs: seq<string>, a: nat, b: nat)
    requires a < |xs| && b < |xs| && forall i, j :: 0 <= i < j < |xs| ==> xs[i] != xs[j]
    ensures xs[a] == xs[b] <==> a == b
  {
  }

  /** The position rule for one step: a status at position `k` of the order,
      for the step that starts at `2p` and finishes at `2p+1`. */
  lemma PositionRule(step: Step, s: string, k: nat, p: nat)
    requires s != "" && s != step.error && IndexOf(StepOrder, s) == k
    requires FinishedIndex(step.id) == 2 * p + 1
    requires (s == step.started <==> k == 2 * p) && (s == step.finished <==> k == 2 * p + 1)
    ensures var r := GetStepStatus(Some(s), step);
      && (r == Completed <==> k > 2 * p)
      && (r == InProgress <==> k == 2 * p)
      && (r == Pending <==> k < 2 * p)
  {
  }

  /** The facts `PositionRule` needs, for step `i` and position `k`. */
  lemma PositionFacts(i: nat, k: nat)
    requires i < 3 && k < |StepOrder|
    ensures StepOrder[k] != "" && StepOrder[k] != Steps[i].error
    ensures IndexOf(StepOrder, StepOrder[k]) == k
    ensures FinishedIndex(Steps[i].id) == 2 * i + 1
    ensures StepOrder[k] == Steps[i].started <==> k == 2 * i
    ensures StepOrder[k] == Steps[i].finished <==> k == 2 * i + 1
  {
    OrderDistinct();
    IndexOfDistinct(StepOrder, k);
    DistinctPositions(StepOrder, k, 2 * i);
    DistinctPositions(StepOrder, k, 2 * i + 1);
    StepPositions(i);
  }

  /** For a status in the order, at position k, step i is completed exactly
      when k is past its start (k > 2i), in progress when k is its start, and
      pending before it. */
  lemma {:induction false} StepStateByPosition(i: nat, k: nat)
    requires i < 3 && k < |StepOrder|
    ensures var r := GetStepStatus(Some(StepOrder[k]), Steps[i]);
      && (r == Completed <==> k > 2 * i)
      && (r == InProgress <==> k == 2 * i)
      && (r == Pending <==> k < 2 * i)
  {
    PositionFacts(i, k);
    PositionRule(Steps[i], StepOrder[k], k, i);
  }

  /** Any other status (an error status, or one the client does not know)
      marks the step it belongs to as errored and leaves every other step
      pending, even the ones already finished. */
  lemma {:induction false} OffOrderStatus(s: string, i: nat)
    requires i < 3 && s != "" && s !in StepOrder
    ensures GetStepStatus(Some(s), Steps[i]) == (if s == Steps[i].error then Errored else Pending)
  {
    StepPositions(i);
  }

  /** The diagnosis step shows completed only for "diagnosis_finished". */
  lemma DiagnosisCompletedOnlyWhenFinished(status: Option<string>)
    ensures GetStepStatus(status, Steps[2]) == Completed <==> status == Some(MapValue(DiagnosisFinished))
  {
    if status.Some? && status.value != "" && status.value in StepOrder {
      var k := IndexOf(StepOrder, status.value);
      StepStateByPosition(2, k);
    } else if status.Some? && status.value != "" {
      OffOrderStatus(status.value, 2);
    }
  }

  /** At most one step is errored or in progress for any status. */
  lemma {:induction false} AtMostOneActive(status: Option<string>, i: nat, j: nat)
    requires i < j < 3
    ensures !(GetStepStatus(status, Steps[i]) in {Errored, InProgress} && GetStepStatus(status, Steps[j]) in {Errored, InProgress})
  {
    if status.Some? && status.value != "" {
      var s := status.value;
      if s in StepOrder {
        var k := IndexOf(StepOrder, s);
        StepStateByPosition(i, k);
        StepStateByPosition(j, k);
      } else {
        OffOrderStatus(s, i);
        OffOrderStatus(s, j);
        ErrorsDistinct(i, j);
      }
    }
  }

  /** The three steps have three different error statuses. */
  lemma ErrorsDistinct(i: nat, j: nat)
    requires i < j < 3
    ensures Steps[i].error != Steps[j].error
  {
    var e := if i == 0 then TranscriptionError else InformationExtractionError;
    var f := if j == 1 then InformationExtractionError else DiagnosisError;
    assert Steps[i].error == MapValue(e);
    assert Steps[j].error == MapValue(f);
    ValueOfKey(e);
  }
}
