/**
 * The client/server two-phase protocol end to end: how a server response
 * reaches the client (status and JSON body through axios), and complete
 * return sessions driven through the page components against the server's
 * comparison store.
 */
module Protocol {
  import opened Api
  import opened Text
  import opened ComparisonServer
  import opened ReturnWorkflow
  import opened HomePage

  /**
   * The JSON body of a response as the client reads it. Only the combined
   * response carries `overall_condition` (always a non-empty label); the
   * server never sends `highlighted_image`.
   */
  function ToBody(resp: Response): (b: Body)
    ensures IsFinal(b) <==> resp.Final?
    ensures b.highlightedImage == None
    ensures resp.Final? ==>
      Aggregate(b) == ResultAggregate(resp.overallCondition.Label(), Some(resp.overallSimilarity),
                                      Some(resp.overallSsi), Some(resp.front), Some(resp.back))
  {
    match resp
    case Final(_, similarity, ssi, condition, front, back) =>
      Body(Some(condition.Label()), Some(similarity), Some(ssi), Some(front), Some(back), None)
    case _ => Body(None, None, None, None, None, None)
  }

  /**
   * What an awaited `axios.post` gives for a response: with the default
   * status validation a 2xx status resolves with the body, and every other
   * status is thrown. The endpoint's 400 and 500 answers therefore reach
   * both pages as thrown errors, never as a resolved non-200 status.
   */
  function Deliver(resp: Response): (o: HttpOutcome)
    ensures o.Status? <==> resp.StatusCode() == 200
    ensures o.Status? ==> o == Status(200, ToBody(resp))
  {
    var code := resp.StatusCode();
    if 200 <= code < 300 then Status(code, ToBody(resp)) else Threw
  }

  /**
   * A whole return on the home page against a fresh server: start, upload
   * the front image, upload the back image. The tags sent follow the step,
   * the page ends back at step 0 holding the aggregate of the combined
   * response, and the server's slots end empty.
   */
  method HomeReturn(a: Metrics, b: Metrics, frontFile: File, backFile: File)
    returns (tags: seq<string>, steps: seq<int>, result: Option<ResultAggregate>, message: string, slots: Slots)
    ensures tags == ["front", "back"]
    ensures steps == [1, 2, 0]
    ensures result == Some(Aggregate(ToBody(Combine(a, b))))
    ensures result.value.condition == Classify((a.similarity + b.similarity) / 2.0, (a.ssi + b.ssi) / 2.0).Label()
    ensures message == DoneMessage
    ensures slots == Empty
  {
    var store := new ComparisonStore();
    var page := new Home();
    page.HandleStartClick();
    steps := [page.step];

    var req1 := page.PendingRequest(Some(frontFile));
    var resp1 := store.UploadUser(req1.value, Measured(a));
    var sent1 := page.HandleFileChange(Some(frontFile), Deliver(resp1));
    steps := steps + [page.step];

    var req2 := page.PendingRequest(Some(backFile));
    var resp2 := store.UploadUser(req2.value, Measured(b));
    var sent2 := page.HandleFileChange(Some(backFile), Deliver(resp2));
    steps := steps + [page.step];

    tags := [sent1.value.comparisonType.value, sent2.value.comparisonType.value];
    result := page.result;
    message := page.message;
    slots := store.Contents();
  }

  /**
   * A whole return on the return page against a fresh server: choose an
   * item, upload the front then the back image, fill in the four reference
   * fields, review, and start a new return. The steps run 0 to 5 and back
   * to 0, the result shown is the combined response's aggregate, the
   * reviewed images are both `undefined` because the server sends none, and
   * the new return drops the result while the server's slots are already
   * empty.
   */
  method FileUploadReturn(a: Metrics, b: Metrics, frontFile: File, backFile: File,
                          frontUri: string, backUri: string, order: string, customer: string, third: string, fourth: string)
    returns (steps: seq<nat>, reviewed: Option<ResultAggregate>, images: Images,
             restarted: Option<ResultAggregate>, slots: Slots)
    requires !IsBlank(order) && !IsBlank(customer) && !IsBlank(third) && !IsBlank(fourth)
    ensures steps == [0, 1, 2, 3, 4, 5, 0]
    ensures reviewed == Some(Aggregate(ToBody(Combine(a, b))))
    ensures images == Images(None, None)
    ensures restarted == None
    ensures slots == Empty
  {
    var store := new ComparisonStore();
    var page := new FileUpload();
    // step 0: the item is chosen
    page.AdvanceStep();
    var toReview := UploadPhase(page, store, a, b, frontFile, backFile, frontUri, backUri);
    reviewed := page.result;

    // step 3: the reference fields
    FillInReferences(page, order, customer, third, fourth);
    var atReview := page.activeStep;

    // step 4: image review
    images := page.images;
    page.AdvanceStep();
    var atResult := page.activeStep;

    // step 5: result, then a new return
    page.HandleNewReturn();
    restarted := page.result;
    slots := store.Contents();
    steps := [0] + toReview + [atReview, atResult, page.activeStep];
  }

  /**
   * Steps 1 and 2 from a fresh page against an empty store: upload the
   * front and then the back image. The page reaches the reference form
   * (step 3) holding the combined response's aggregate, both images are
   * `undefined`, and the store is empty again.
   */
  method UploadPhase(page: FileUpload, store: ComparisonStore, a: Metrics, b: Metrics,
                     frontFile: File, backFile: File, frontUri: string, backUri: string)
    returns (steps: seq<nat>)
    requires page.activeStep == 1 && page.images == Images(Some(""), Some(""))
    requires store.Valid() && store.Contents() == Empty
    modifies page`activeStep, page`result, page`images, store
    ensures steps == [1, 2, 3] && page.activeStep == 3
    ensures page.result == Some(Aggregate(ToBody(Combine(a, b))))
    ensures page.images == Images(None, None)
    ensures store.Valid() && store.Contents() == Empty
  {
    FrontImageTurn(page, store, a, frontFile, frontUri);
    var atBack := page.activeStep;
    BackImageTurn(page, store, b, backFile, backUri);
    steps := [1, atBack, page.activeStep];
  }

  /**
   * Step 3 with four non-blank entries: typing them in and submitting
   * accepts the form, which is cleared, and moves the page on by one step.
   */
  method FillInReferences(page: FileUpload, order: string, customer: string, third: string, fourth: string)
    requires page.Valid()
    requires !IsBlank(order) && !IsBlank(customer) && !IsBlank(third) && !IsBlank(fourth)
    modifies page`formData, page`errors, page`activeStep
    ensures page.Valid()
    ensures page.activeStep == old(page.activeStep) + 1
    ensures page.formData == EmptyForm && page.errors == map[]
  {
    page.HandleChange(Input1, order);
    page.HandleChange(Input2, customer);
    page.HandleChange(Input3, third);
    page.HandleChange(Input4, fourth);
    forall f: Field ensures !IsBlank(page.formData[f]) {
      OneOfFour(f);
    }
    page.HandleSubmit();
  }

  /**
   * The step-1 uploader against a store holding nothing: the server keeps
   * the front entry and answers with an intermediate body, so the page moves
   * to step 2, keeps its result and sets the front image to the absent
   * `highlighted_image`.
   */
  method FrontImageTurn(page: FileUpload, store: ComparisonStore, a: Metrics, file: File, uri: string)
    requires store.Valid() && store.Contents() == Empty
    modifies page`activeStep, page`result, page`images, store
    ensures store.Valid() && store.Contents() == Slots(Some(a), None)
    ensures page.activeStep == old(page.activeStep) + 1 && page.result == old(page.result)
    ensures page.images == old(page.images).(front := None)
  {
    var front := new Uploader.ForFront(page);
    front.HandleFileChange(Some(file), uri);
    var resp := store.UploadUser(front.PendingRequest().value, Measured(a));
    var sent := front.HandleSubmit(Deliver(resp));
  }

  /**
   * The step-2 uploader against a store holding a front entry: the server
   * combines both entries and empties its slots, so the page moves to step
   * 3 with the aggregate of the combined response as its result and sets
   * the back image to the absent `highlighted_image`.
   */
  method BackImageTurn(page: FileUpload, store: ComparisonStore, b: Metrics, file: File, uri: string)
    requires store.Valid() && store.Contents().front.Some? && store.Contents().back.None?
    modifies page`activeStep, page`result, page`images, store
    ensures store.Valid() && store.Contents() == Empty
    ensures page.activeStep == old(page.activeStep) + 1
    ensures page.result == Some(Aggregate(ToBody(Combine(old(store.Contents()).front.value, b))))
    ensures page.images == old(page.images).(back := None)
  {
    var back := new Uploader.ForBack(page);
    back.HandleFileChange(Some(file), uri);
    var resp := store.UploadUser(back.PendingRequest().value, Measured(b));
    var sent := back.HandleSubmit(Deliver(resp));
  }

  /**
   * A front upload whose measurement fails on the server is thrown on the
   * client: the uploader drops its file and preview and the page stays at
   * step 1 with nothing stored; picking the file again and resubmitting
   * moves the page to step 2 with the front slot filled.
   */
  method FrontUploadRetry(error: string, a: Metrics, frontFile: File, frontUri: string)
    returns (failedStep: nat, fileAfterFailure: Option<File>, previewAfterFailure: Option<string>,
             slotsAfterFailure: Slots, retriedStep: nat, slots: Slots)
    ensures failedStep == 1 && fileAfterFailure == None && previewAfterFailure == None
    ensures slotsAfterFailure == Empty
    ensures retriedStep == 2
    ensures slots == Slots(Some(a), None)
  {
    var store := new ComparisonStore();
    var page := new FileUpload();
    page.AdvanceStep();

    var front := new Uploader.ForFront(page);
    front.HandleFileChange(Some(frontFile), frontUri);
    var failed := store.UploadUser(front.PendingRequest().value, Raised(error));
    var sent1 := front.HandleSubmit(Deliver(failed));
    failedStep := page.activeStep;
    fileAfterFailure := front.file;
    previewAfterFailure := front.preview;
    slotsAfterFailure := store.Contents();

    front.HandleFileChange(Some(frontFile), frontUri);
    var resp := store.UploadUser(front.PendingRequest().value, Measured(a));
    var sent2 := front.HandleSubmit(Deliver(resp));
    retriedStep := page.activeStep;
    slots := store.Contents();
  }
}
