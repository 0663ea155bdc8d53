/** The HTTP layer: the orchestrator's reply passed through, or its failure
    classified as overload (503) or internal error (500); and the health check. */
module Api {
  import opened Wrappers
  import opened Text
  import opened Records
  import opened Retrieval

  /** The POST body; `image` is accepted and never used. */
  datatype QuestionRequest = QuestionRequest(question: string, image: Option<string>)

  /** What the endpoint sends: the reply body, or an `HTTPException` status and detail. */
  datatype Response = Ok(body: Answer) | HttpError(status: int, detail: string)

  datatype Health = Health(status: string, message: string)

  const OverloadedDetail := "OpenAI rate limit exceeded or quota insufficient."

  const InternalErrorPrefix := "Internal server error: "

  /** `health_check`: the fixed liveness reply. */
  function HealthCheck(): (h: Health)
    ensures h.status == "ok" && h.message == "TDS Virtual TA is running"
  {
    Health("ok", "TDS Virtual TA is running")
  }

  /** The exception handler of `answer_question`, or the pass-through on success. */
  function ToResponse(outcome: Result<Answer, string>): (r: Response)
    ensures outcome.Success? ==> r == Ok(outcome.value)
    ensures outcome.Failure? ==> r.HttpError? && (r.status == 503 || r.status == 500)
  {
    match outcome
    case Success(a) => Ok(a)
    case Failure(e) =>
      var detail := Lower(e);
      if Contains(detail, "rate limit") || Contains(detail, "quota") then HttpError(503, OverloadedDetail)
      else HttpError(500, InternalErrorPrefix + e)
  }

  /** A failure is an overload exactly when "rate limit" or "quota" occurs at some
      offset of its lowercased message; otherwise the status is 500 and the detail
      is the fixed prefix followed by the message as raised, not lowercased. */
  lemma FailureClassification(e: string)
    ensures var r := ToResponse(Failure(e));
      (r.status == 503 <==>
         (exists i :: OccursAt(Lower(e), "rate limit", i)) || (exists i :: OccursAt(Lower(e), "quota", i)))
      && (r.status == 503 ==> r.detail == OverloadedDetail)
      && (r.status != 503 ==> r.status == 500)
      && (r.status == 500 ==> r.detail == InternalErrorPrefix + e)
  {
    ContainsAt(Lower(e), "rate limit");
    ContainsAt(Lower(e), "quota");
    assert ToResponse(Failure(e)).status == 503 <==>
      Contains(Lower(e), "rate limit") || Contains(Lower(e), "quota");
  }

  /** A marker, "rate limit" or "quota", in any case anywhere in the message gives
      the overload reply. */
  lemma MarkerIsOverload(a: string, marker: string, b: string, needle: string)
    requires needle == "rate limit" || needle == "quota"
    requires Lower(marker) == needle
    ensures ToResponse(Failure(a + marker + b)) == HttpError(503, OverloadedDetail)
  {
    LowerConcat(a + marker, b);
    LowerConcat(a, marker);
    ContainsInside(Lower(a), needle, Lower(b));
  }

  /** `answer_question`: only the question is passed on, with the default `top_k`. */
  method AnswerQuestion(service: QaService, req: QuestionRequest) returns (r: Response)
    requires service.Valid()
    modifies service
    ensures service.Valid()
    ensures r == ToResponse(service.Outcome(req.question, DefaultTopK))
    ensures IsOverride(req.question) ==> service.docs == old(service.docs) && service.index == old(service.index)
    ensures old(service.index).Some? ==> service.docs == old(service.docs) && service.index == old(service.index)
    ensures !IsOverride(req.question) ==> service.index.Some?
  {
    var outcome := service.GetAnswerAndLinks(req.question, DefaultTopK);
    r := ToResponse(outcome);
  }
}
