/**
 * The comparison service's `/upload_user` endpoint: request validation, the
 * two-slot store of per-image results shared by successive requests, and the
 * threshold decision list that turns the combined metrics into a verdict.
 * Similarity and SSI measurements come from image processing and are inputs.
 */
module ComparisonServer {
  import opened Api

  /** The verdicts `classify_condition` can return. */
  datatype Condition = NonFunctional | Damaged | ExcellentCondition | BrandNew | Different {
    /** The label carried in `overall_condition`; never empty, so a client sees it as truthy. */
    function Label(): (s: string)
      ensures s != ""
      ensures s == "Non-Functional" <==> NonFunctional?
    {
      match this
      case NonFunctional => "Non-Functional"
      case Damaged => "Damaged"
      case ExcellentCondition => "Excellent Condition"
      case BrandNew => "Brand New"
      case Different => "Different"
    }
  }

  /**
   * `classify_condition`: the decision list, stated as the region of the
   * (similarity, ssi) plane each verdict covers once earlier branches have
   * taken their share.
   */
  function Classify(similarity: real, ssi: real): (c: Condition)
    ensures c == NonFunctional <==> similarity < 0.4 || ssi < 0.5
    ensures c == Damaged <==> similarity > 0.85 && ssi > 0.7
    ensures c == ExcellentCondition <==>
      similarity > 0.75 && ssi > 0.6 && !(similarity > 0.85 && ssi > 0.7)
    ensures c == BrandNew <==>
      similarity > 0.6 && ssi > 0.5 && !(similarity > 0.75 && ssi > 0.6)
    ensures c == Different <==>
      0.4 <= similarity && 0.5 <= ssi && (similarity <= 0.6 || ssi == 0.5)
  {
    if similarity < 0.4 || ssi < 0.5 then NonFunctional
    else if similarity > 0.85 && ssi > 0.7 then Damaged
    else if similarity > 0.75 && ssi > 0.6 then ExcellentCondition
    else if similarity > 0.6 && ssi > 0.5 then BrandNew
    else Different
  }

  /** The `comparison_results` dictionary: one optional entry per comparison type. */
  datatype Slots = Slots(front: Option<Metrics>, back: Option<Metrics>)

  const Empty := Slots(None, None)

  function Slot(s: Slots, side: Side): Option<Metrics>
  {
    if side == Front then s.front else s.back
  }

  /** What measuring the uploaded image gave: rounded metrics, or an exception raised while saving or measuring it. */
  datatype Measurement = Measured(metrics: Metrics) | Raised(error: string)

  /** The endpoint's JSON responses. */
  datatype Response =
    | BadRequest(error: string)
    | ServerError(error: string)
    | Partial(message: string, similarity: real, ssi: real)
    | Final(message: string, overallSimilarity: real, overallSsi: real,
            overallCondition: Condition, front: Metrics, back: Metrics)
  {
    function StatusCode(): (code: int)
      ensures code == 200 <==> Partial? || Final?
      ensures BadRequest? ==> code == 400
      ensures ServerError? ==> code == 500
    {
      match this
      case BadRequest(_) => 400
      case ServerError(_) => 500
      case _ => 200
    }
  }

  const MissingMessage := "File or comparison type missing."
  const InvalidTypeMessage := "Invalid comparison type."
  const CombinedMessage := "Comparison successful."

  /** `"{comparison_type.capitalize()} image processed."`: the tag with its first letter upper-cased, then the suffix. */
  function ProcessedMessage(side: Side): (m: string)
    ensures |m| == |side.Tag()| + |" image processed."|
    ensures m[0] as int == side.Tag()[0] as int - 32
    ensures m[1..|side.Tag()|] == side.Tag()[1..]
    ensures m[|side.Tag()|..] == " image processed."
  {
    if side == Front then "Front image processed." else "Back image processed."
  }

  /** The comparison type a well-formed request names, if it names one of the two. */
  function RequestedSide(req: Request): (side: Option<Side>)
    ensures side.Some? <==>
      req.hasFile && (req.comparisonType == Some("front") || req.comparisonType == Some("back"))
    ensures side.Some? ==> req.comparisonType == Some(side.value.Tag())
  {
    if !req.hasFile || req.comparisonType.None? then None
    else if req.comparisonType.value == "front" then Some(Front)
    else if req.comparisonType.value == "back" then Some(Back)
    else None
  }

  /** The combined response built from both stored entries; the averages are exact. */
  function Combine(f: Metrics, b: Metrics): (r: Response)
    ensures r.Final? && r.front == f && r.back == b
    ensures r.overallCondition == Classify(r.overallSimilarity, r.overallSsi)
    ensures r.overallSimilarity * 2.0 == f.similarity + b.similarity
    ensures r.overallSsi * 2.0 == f.ssi + b.ssi
  {
    var avgSimilarity := (f.similarity + b.similarity) / 2.0;
    var avgSsi := (f.ssi + b.ssi) / 2.0;
    Final(CombinedMessage, avgSimilarity, avgSsi, Classify(avgSimilarity, avgSsi), f, b)
  }

  /** Stores `m` in the slot of `side`, overwriting it. */
  function Store(s: Slots, side: Side, m: Metrics): (r: Slots)
    ensures Slot(r, side) == Some(m)
    ensures Slot(r, if side == Front then Back else Front) == Slot(s, if side == Front then Back else Front)
  {
    if side == Front then s.(front := Some(m)) else s.(back := Some(m))
  }

  /**
   * One call of `upload_user` against the slots `s`: the new slots and the
   * response.
   */
  function Upload(s: Slots, req: Request, m: Measurement): (r: (Slots, Response))
    // malformed requests are refused with 400 and touch nothing
    ensures (!req.hasFile || req.comparisonType.None?) ==> r == (s, BadRequest(MissingMessage))
    ensures RequestedSide(req).None? && req.hasFile && req.comparisonType.Some? ==>
      r == (s, BadRequest(InvalidTypeMessage))
    // every failure leaves the slots as they were
    ensures r.1.StatusCode() != 200 ==> r.0 == s
    ensures r.1.ServerError? <==> RequestedSide(req).Some? && m.Raised?
    // a valid request whose image was measured is always answered 200
    ensures RequestedSide(req).Some? && m.Measured? ==> r.1.Partial? || r.1.Final?
    ensures RequestedSide(req).Some? && m.Measured? ==>
      var side := RequestedSide(req).value;
      var stored := Store(s, side, m.metrics);
      // final exactly when the other slot was already filled
      && (r.1.Final? <==> stored.front.Some? && stored.back.Some?)
      && (r.1.Final? ==> r.0 == Empty && r.1 == Combine(stored.front.value, stored.back.value))
      && (r.1.Partial? ==> r.0 == stored && r.1 == Partial(ProcessedMessage(side), m.metrics.similarity, m.metrics.ssi))
  {
    match RequestedSide(req)
    case None =>
      if !req.hasFile || req.comparisonType.None? then (s, BadRequest(MissingMessage))
      else (s, BadRequest(InvalidTypeMessage))
    case Some(side) =>
      match m
      case Raised(e) => (s, ServerError(e))
      case Measured(x) =>
        var stored := Store(s, side, x);
        if stored.front.Some? && stored.back.Some? then
          (Empty, Combine(stored.front.value, stored.back.value))
        else
          (stored, Partial(ProcessedMessage(side), x.similarity, x.ssi))
  }

  /** The global `comparison_results` dictionary, written in place by each request. */
  class ComparisonStore {
    var results: map<string, Option<Metrics>>

    ghost predicate Valid()
      reads this
    {
      results.Keys == {"front", "back"}
    }

    /** The dictionary's two entries as a value. */
    function Contents(): (s: Slots)
      reads this
      requires Valid()
    {
      Slots(results["front"], results["back"])
    }

    constructor ()
      ensures Valid() && Contents() == Empty
    {
      results := map["front" := None, "back" := None];
    }

    method UploadUser(req: Request, m: Measurement) returns (resp: Response)
      requires Valid()
      modifies this
      ensures Valid()
      ensures (Contents(), resp) == Upload(old(Contents()), req, m)
    {
      if !req.hasFile || req.comparisonType.None? {
        return BadRequest(MissingMessage);
      }
      var comparisonType := req.comparisonType.value;
      if comparisonType != "front" && comparisonType != "back" {
        return BadRequest(InvalidTypeMessage);
      }
      if m.Raised? {
        return ServerError(m.error);
      }
      results := results[comparisonType := Some(m.metrics)];
      if results["front"].Some? && results["back"].Some? {
        resp := Combine(results["front"].value, results["back"].value);
        results := map["front" := None, "back" := None];
        return;
      }
      var side := if comparisonType == "front" then Front else Back;
      resp := Partial(ProcessedMessage(side), m.metrics.similarity, m.metrics.ssi);
    }
  }

  /** One request of a sequential stream, with the measurement its image would give. */
  datatype Call = Call(req: Request, m: Measurement)

  /** A valid upload of `side` whose image was measured, so that it fills that slot. */
  predicate Fills(c: Call, side: Side)
  {
    RequestedSide(c.req) == Some(side) && c.m.Measured?
  }

  /** Feeds `calls` to the endpoint one after another: the final slots and the responses in order. */
  function Run(s: Slots, calls: seq<Call>): (r: (Slots, seq<Response>))
    ensures |r.1| == |calls|
    decreases |calls|
  {
    if calls == [] then (s, [])
    else
      var first := Upload(s, calls[0].req, calls[0].m);
      var rest := Run(first.0, calls[1..]);
      (rest.0, [first.1] + rest.1)
  }

  function CountFinal(responses: seq<Response>): nat
  {
    if responses == [] then 0 else (if responses[0].Final? then 1 else 0) + CountFinal(responses[1..])
  }

  function CountFills(calls: seq<Call>, side: Side): nat
  {
    if calls == [] then 0 else (if Fills(calls[0], side) then 1 else 0) + CountFills(calls[1..], side)
  }

  function Filled(o: Option<Metrics>): nat
  {
    if o.Some? then 1 else 0
  }

  /** From the empty store, a front and a back upload in either order give one partial then one final response, and the store ends empty. */
  lemma {:induction false} BothSidesCompleteSession(first: Side, a: Metrics, b: Metrics)
    ensures
      var second := if first == Front then Back else Front;
      var calls := [Call(Request(true, Some(first.Tag())), Measured(a)),
                    Call(Request(true, Some(second.Tag())), Measured(b))];
      var r := Run(Empty, calls);
      && r.0 == Empty
      && r.1[0] == Partial(ProcessedMessage(first), a.similarity, a.ssi)
      && r.1[1] == (if first == Front then Combine(a, b) else Combine(b, a))
  {
    var second := if first == Front then Back else Front;
    var c0 := Call(Request(true, Some(first.Tag())), Measured(a));
    var c1 := Call(Request(true, Some(second.Tag())), Measured(b));
    var s1 := Upload(Empty, c0.req, c0.m);
    assert s1.0 == Store(Empty, first, a);
    var s2 := Upload(s1.0, c1.req, c1.m);
    assert s2.0 == Empty;
    assert [c0, c1][1..] == [c1];
    assert [c1][1..] == [];
    assert Run(s2.0, []) == (s2.0, []);
    assert Run(s1.0, [c1]) == (s2.0, [s2.1] + []);
    var calls := [c0, c1];
    assert calls[0] == c0 && calls[1..] == [c1];
    assert Run(Empty, calls) == (Run(s1.0, calls[1..]).0, [s1.1] + Run(s1.0, calls[1..]).1);
  }

  /**
   * While no call fills the other slot, no response is final and the other
   * slot stays empty: repeated uploads of one type never complete a session.
   */
  lemma {:induction false} OneSidedUploadsNeverFinal(s: Slots, calls: seq<Call>, side: Side)
    requires Slot(s, if side == Front then Back else Front).None?
    requires forall i :: 0 <= i < |calls| ==> !Fills(calls[i], if side == Front then Back else Front)
    ensures CountFinal(Run(s, calls).1) == 0
    ensures Slot(Run(s, calls).0, if side == Front then Back else Front).None?
    decreases |calls|
  {
    if calls != [] {
      var next := Upload(s, calls[0].req, calls[0].m).0;
      assert !Fills(calls[0], if side == Front then Back else Front);
      OneSidedUploadsNeverFinal(next, calls[1..], side);
    }
  }

  /**
   * Every final response consumes one stored upload of each side: over any
   * stream, the final responses plus an entry still pending in a slot never
   * outnumber the uploads that filled that slot (plus one already there).
   */
  lemma {:induction false} FinalsConsumeBothSides(s: Slots, calls: seq<Call>, side: Side)
    ensures CountFinal(Run(s, calls).1) + Filled(Slot(Run(s, calls).0, side))
         <= Filled(Slot(s, side)) + CountFills(calls, side)
    decreases |calls|
  {
    if calls != [] {
      var first := Upload(s, calls[0].req, calls[0].m);
      FinalsConsumeBothSides(first.0, calls[1..], side);
      assert (if first.1.Final? then 1 else 0) + Filled(Slot(first.0, side))
          <= Filled(Slot(s, side)) + (if Fills(calls[0], side) then 1 else 0);
    }
  }

  /** From the empty store, a stream has at most as many final responses as it has front uploads, and as back uploads. */
  lemma FinalsBoundedByUploads(calls: seq<Call>)
    ensures CountFinal(Run(Empty, calls).1) <= CountFills(calls, Front)
    ensures CountFinal(Run(Empty, calls).1) <= CountFills(calls, Back)
  {
    FinalsConsumeBothSides(Empty, calls, Front);
    FinalsConsumeBothSides(Empty, calls, Back);
  }
}
