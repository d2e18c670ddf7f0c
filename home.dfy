/**
 * The home page's older upload flow: a three-step machine over `step`
 * (0 start, 1 front image, 2 back image), the status `message`, the
 * `result` aggregate and the `isUploading` flag.
 */
module HomePage {
  import opened Api

  const StartMessage: string := "Click 'Start a Return' to begin the process."
  const FrontPrompt: string := "Please upload the front view image of the product."
  const BackPrompt: string := "Front image has been saved. Now upload the back view image of the product."
  const DoneMessage: string := "Return analysis completed."

  /** The `comparison_type` sent from a step: "front" exactly at step 1, "back" at every other step. */
  function ComparisonTag(step: int): (t: string)
    ensures t == "front" || t == "back"
    ensures t == "front" <==> step == 1
    ensures t == (if step == 1 then Front else Back).Tag()
  {
    if step == 1 then "front" else "back"
  }

  /** The page's visible state, as one value. */
  datatype HomeState = HomeState(step: int, message: string, result: Option<ResultAggregate>, isUploading: bool)

  /**
   * The state once an upload with the given outcome has settled. A failure
   * (thrown or non-200) only stops the progress bar. A 200 final body
   * records its aggregate, reports completion and goes back to step 0; a 200
   * intermediate body moves to (or stays at) step 2 and keeps the result.
   */
  function Settle(s: HomeState, outcome: HttpOutcome): (r: HomeState)
    ensures !r.isUploading
    ensures (outcome.Threw? || outcome.code != 200) ==> r == s.(isUploading := false)
    ensures outcome.Status? && outcome.code == 200 && IsFinal(outcome.body) ==>
      && r.step == 0 && r.message == DoneMessage
      && r.result == Some(Aggregate(outcome.body))
      && r.result.value.condition == outcome.body.overallCondition.value
    ensures outcome.Status? && outcome.code == 200 && !IsFinal(outcome.body) ==>
      r.step == 2 && r.message == BackPrompt && r.result == s.result
    ensures r.step == s.step || r.step == 0 || r.step == 2
  {
    match outcome
    case Threw => s.(isUploading := false)
    case Status(code, body) =>
      if code != 200 then s.(isUploading := false)
      else if IsFinal(body) then HomeState(0, DoneMessage, Some(Aggregate(body)), false)
      else s.(step := 2, message := BackPrompt, isUploading := false)
  }

  /** An intermediate answer at step 2 leaves the page at step 2: the flow never moves past the back image without a final body. */
  lemma IntermediateKeepsBackStep(s: HomeState, body: Body)
    requires s.step == 2 && !IsFinal(body)
    ensures Settle(s, Status(200, body)).step == 2
    ensures Settle(s, Status(200, body)).result == s.result
  {
  }

  /** Any run of failed uploads keeps the step, the message and the result; only the progress bar stops. */
  lemma {:induction false} FailuresOnlyStopProgress(s: HomeState, outcomes: seq<HttpOutcome>)
    requires forall i :: 0 <= i < |outcomes| ==> outcomes[i].Threw? || outcomes[i].code != 200
    ensures SettleAll(s, outcomes) == (if outcomes == [] then s else s.(isUploading := false))
    decreases |outcomes|
  {
    if outcomes != [] {
      FailuresOnlyStopProgress(Settle(s, outcomes[0]), outcomes[1..]);
    }
  }

  /** Settles a sequence of upload outcomes in order. */
  function SettleAll(s: HomeState, outcomes: seq<HttpOutcome>): HomeState
    decreases |outcomes|
  {
    if outcomes == [] then s else SettleAll(Settle(s, outcomes[0]), outcomes[1..])
  }

  /** The `Home` component's state and handlers. */
  class Home {
    var step: int
    var message: string
    var result: Option<ResultAggregate>
    var isUploading: bool

    function State(): HomeState
      reads this
    {
      HomeState(step, message, result, isUploading)
    }

    constructor ()
      ensures step == 0 && message == StartMessage && result == None && !isUploading
    {
      step := 0;
      message := StartMessage;
      result := None;
      isUploading := false;
    }

    /** `handleStartClick`: the front-image step with no result and no upload in progress. */
    method HandleStartClick()
      modifies this
      ensures step == 1 && message == FrontPrompt && result == None && !isUploading
    {
      step := 1;
      message := FrontPrompt;
      result := None;
      isUploading := false;
    }

    /** The request `handleFileChange` sends for a picked file: the file tagged by the current step. */
    function PendingRequest(selected: Option<File>): (req: Option<Request>)
      reads this
      ensures req.None? <==> selected.None?
      ensures req.Some? ==> req.value.hasFile && req.value.comparisonType == Some(ComparisonTag(step))
    {
      if selected.None? then None else Some(Request(true, Some(ComparisonTag(step))))
    }

    /**
     * `handleFileChange`, given the picked file and the outcome of the POST:
     * without a file nothing is sent and nothing changes; otherwise the page
     * settles on the outcome.
     */
    method HandleFileChange(selected: Option<File>, outcome: HttpOutcome) returns (sent: Option<Request>)
      modifies this
      ensures sent == old(PendingRequest(selected))
      ensures sent.None? ==> State() == old(State())
      ensures sent.Some? ==> State() == Settle(old(State()), outcome)
    {
      if selected.None? {
        return None;
      }
      sent := Some(Request(true, Some(ComparisonTag(step))));
      isUploading := true;
      match outcome {
        case Threw =>
          isUploading := false;
        case Status(code, body) =>
          isUploading := false;
          if code == 200 {
            if IsFinal(body) {
              result := Some(Aggregate(body));
              message := DoneMessage;
              step := 0;
            } else {
              step := 2;
              message := BackPrompt;
            }
          }
      }
    }
  }
}
