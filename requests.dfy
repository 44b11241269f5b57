/** Request and response payloads of backend/src/models/requests.rs. */
module Requests {
  import opened Wrappers
  import opened TicketModel

  /** `AddEmailRequest`. */
  datatype AddEmailRequest = AddEmailRequest(emailId: Uuid)

  /** `CreateTicketResponse`: the saved ticket, the ids that were linked and,
      for each id that was not, the id with the error text. */
  datatype CreateTicketResponse = CreateTicketResponse(
    ticketId: Uuid,
    linkedEmails: seq<string>,
    failedEmails: seq<(string, string)>)

  /** `CreateTicketRequest`. */
  datatype CreateTicketRequest = CreateTicketRequest(
    emailIds: seq<Uuid>,
    subject: string,
    description: string,
    ticketType: Option<TicketType>,
    confidenceScore: Option<real>,
    identifiedThreats: Option<seq<string>>,
    extractedIndicators: Option<seq<string>>,
    analysisSummary: Option<string>)

  const REQ_SUBJECT_EMPTY := "Subject cannot be empty"
  const REQ_DESCRIPTION_EMPTY := "Description cannot be empty"
  const REQ_NO_EMAILS := "At least one email ID must be provided"
  const REQ_SCORE_RANGE := "Confidence score must be between 0 and 1"

  /** `(0.0..=1.0).contains(&score)`: both bounds inclusive. */
  predicate ScoreInRange(score: real) {
    0.0 <= score <= 1.0
  }

  /** Whether an optional score passes: an absent score always does. */
  predicate ScoreAcceptable(score: Option<real>) {
    score.None? || ScoreInRange(score.value)
  }

  /** `CreateTicketRequest::validate`: Ok exactly when the subject, the
      description and the list of email ids are non-empty and the score, if
      present, lies in [0, 1]; every failure is a validation error. */
  function ValidateRequest(req: CreateTicketRequest): (r: Result<(), TicketError>)
    ensures r.Ok? <==>
              req.subject != "" && req.description != "" && req.emailIds != [] &&
              (req.confidenceScore.Some? ==> 0.0 <= req.confidenceScore.value <= 1.0)
    ensures r.Err? ==> r.error.Validation?
  {
    if req.subject == "" then Err(Validation(REQ_SUBJECT_EMPTY))
    else if req.description == "" then Err(Validation(REQ_DESCRIPTION_EMPTY))
    else if req.emailIds == [] then Err(Validation(REQ_NO_EMAILS))
    else if !ScoreAcceptable(req.confidenceScore) then Err(Validation(REQ_SCORE_RANGE))
    else Ok(())
  }

  /** The checks apply in the order subject, description, email ids, score;
      the message is that of the first check that fails. */
  lemma ValidateRequestFirstFailure(req: CreateTicketRequest)
    ensures req.subject == "" ==> ValidateRequest(req) == Err(Validation(REQ_SUBJECT_EMPTY))
    ensures req.subject != "" && req.description == "" ==>
              ValidateRequest(req) == Err(Validation(REQ_DESCRIPTION_EMPTY))
    ensures req.subject != "" && req.description != "" && req.emailIds == [] ==>
              ValidateRequest(req) == Err(Validation(REQ_NO_EMAILS))
    ensures req.subject != "" && req.description != "" && req.emailIds != [] &&
            req.confidenceScore.Some? && !ScoreInRange(req.confidenceScore.value) ==>
              ValidateRequest(req) == Err(Validation(REQ_SCORE_RANGE))
  {
  }

  /** The score bounds are inclusive and an absent score never fails: only
      the score decides, once the other three checks pass. */
  lemma ScoreBoundsInclusive(req: CreateTicketRequest)
    requires req.subject != "" && req.description != "" && req.emailIds != []
    ensures req.confidenceScore == Some(0.0) ==> ValidateRequest(req).Ok?
    ensures req.confidenceScore == Some(1.0) ==> ValidateRequest(req).Ok?
    ensures req.confidenceScore == None ==> ValidateRequest(req).Ok?
  {
  }

  /** A request that validates names at least one email. */
  lemma ValidRequestHasEmails(req: CreateTicketRequest)
    requires ValidateRequest(req).Ok?
    ensures |req.emailIds| > 0
  {
  }
}
