/**
 * Values exchanged between the return-workflow client and the image
 * comparison service: the multipart request, the JSON body the client reads,
 * the outcome of the HTTP call as the client sees it, and the result
 * aggregate the client builds from a final response.
 */
module Api {

  datatype Option<+T> = None | Some(value: T)

  /** Per-image metrics as stored by the server: `{similarity, ssi}`. */
  datatype Metrics = Metrics(similarity: real, ssi: real)

  /** The two comparison types the protocol knows. */
  datatype Side = Front | Back {
    /** The `comparison_type` tag sent on the wire. */
    function Tag(): (t: string)
      ensures t == "front" || t == "back"
      ensures (t == "front") == Front?
    {
      if Front? then "front" else "back"
    }
  }

  /** A locally selected file; its bytes are opaque to the model. */
  datatype File = File(name: string)

  /**
   * A `POST /upload_user` request: whether a `file` part is present and the
   * `comparison_type` form field, if any.
   */
  datatype Request = Request(hasFile: bool, comparisonType: Option<string>)

  /**
   * The fields of a JSON response body that the client reads; an absent
   * (undefined) field is `None`.
   */
  datatype Body = Body(
    overallCondition: Option<string>,
    overallSimilarity: Option<real>,
    overallSsi: Option<real>,
    front: Option<Metrics>,
    back: Option<Metrics>,
    highlightedImage: Option<string>)

  /** What an awaited axios POST gives the client: it threw, or it resolved with a status and a body. */
  datatype HttpOutcome = Threw | Status(code: int, body: Body)

  /** The client's `result` object. */
  datatype ResultAggregate = ResultAggregate(
    condition: string,
    combinedSimilarity: Option<real>,
    combinedSsi: Option<real>,
    front: Option<Metrics>,
    back: Option<Metrics>)

  /**
   * The client treats a body as final exactly when `overall_condition` is
   * truthy, i.e. present and not the empty string.
   */
  predicate IsFinal(body: Body)
    ensures body.overallCondition.None? ==> !IsFinal(body)
    ensures body.overallCondition == Some("") ==> !IsFinal(body)
    ensures IsFinal(body) ==> |body.overallCondition.value| > 0
  {
    body.overallCondition.Some? && body.overallCondition.value != ""
  }

  /** Builds the result aggregate from a final body by direct field mapping. */
  function Aggregate(body: Body): (r: ResultAggregate)
    requires IsFinal(body)
    ensures r.condition != "" && Some(r.condition) == body.overallCondition
    ensures r.combinedSimilarity == body.overallSimilarity && r.combinedSsi == body.overallSsi
    ensures r.front == body.front && r.back == body.back
  {
    ResultAggregate(body.overallCondition.value, body.overallSimilarity, body.overallSsi, body.front, body.back)
  }
}
