/** The ticket handlers of backend/src/routes/ticket.rs.  The relational
    store is a map of tickets and a set of `email_tickets` rows; a
    transaction is a staged copy of both that is committed or discarded.
    As in Postgres, a statement that fails aborts the transaction, and its
    commit then discards it.  Every outcome of a storage call is an input. */
module TicketRoutes {
  import opened Wrappers
  import opened Http
  import opened TicketModel
  import opened Requests

  /** The bodies the ticket handlers answer with. */
  datatype Body =
    | NoBody
    | Text(text: string)
    | CreatedBody(created: CreateTicketResponse)
    | TicketJson(ticket: TicketData)
    | EmailIds(ids: seq<string>)

  /** A row of `email_tickets`: (email id, ticket id). */
  type LinkRow = (Uuid, Uuid)

  /** The relational state the handlers read and write. */
  datatype StoreState = StoreState(tickets: map<Uuid, TicketData>, links: set<LinkRow>)

  /** The outcomes of the storage calls `create_ticket` makes, in order:
      getting a client, opening the transaction, saving the ticket, linking
      each requested email, committing.  `linkResults[i]` is what the i-th
      link would answer in a transaction that has not been aborted;
      `InTransaction` says what it answers inside this one. */
  datatype CreateEnv = CreateEnv(
    poolOk: bool,
    beginOk: bool,
    saveError: Option<TicketError>,
    linkResults: seq<Result<(), TicketError>>,
    commitOk: bool)

  datatype CreateOutcome = CreateOutcome(response: Response<Body>, state: StoreState)

  const DB_CONNECTION_ERROR := "Database connection error"
  const TRANSACTION_ERROR := "Transaction error"
  const NO_EMAIL_LINKED := "No valid emails could be linked to the ticket"
  const COMMIT_FAILED := "Failed to commit transaction"
  const TICKET_NOT_FOUND := "Ticket not found"
  /** The text of the error tokio-postgres reports for every statement sent
      to an aborted transaction (SQLSTATE 25P02). */
  const TRANSACTION_ABORTED :=
    "db error: ERROR: current transaction is aborted, commands ignored until end of transaction block"

  /** The ticket `create_ticket` builds: no IP address, type `Other` when the
      request names none, status `Open`, the request's other fields. */
  function RequestTicket(req: CreateTicketRequest, id: Uuid, now: ClockReadings): (t: TicketData)
    ensures t.ipAddress == None && t.status == Open && t.id == id
    ensures t.ticketType == (if req.ticketType.Some? then req.ticketType.value else Other)
    ensures t.subject == req.subject && t.description == req.description
    ensures t.confidenceScore == req.confidenceScore
  {
    NewTicket(req.ticketType.GetOr(Other), "", req.subject, req.description, None,
              req.confidenceScore, req.identifiedThreats, req.extractedIndicators,
              req.analysisSummary, id, now)
  }

  /** The ids whose link succeeded, in input order. */
  function Linked(ids: seq<Uuid>, results: seq<Result<(), TicketError>>): seq<string>
    requires |results| == |ids|
    decreases |ids|
  {
    if ids == [] then []
    else
      var n := |ids| - 1;
      Linked(ids[..n], results[..n]) + (if results[n].Ok? then [ids[n]] else [])
  }

  /** The ids whose link failed, in input order, each with its error text. */
  function Failed(ids: seq<Uuid>, results: seq<Result<(), TicketError>>): seq<(string, string)>
    requires |results| == |ids|
    decreases |ids|
  {
    if ids == [] then []
    else
      var n := |ids| - 1;
      Failed(ids[..n], results[..n]) +
      (if results[n].Err? then [(ids[n], ErrorText(results[n].error))] else [])
  }

  /** The ids of a list of failures. */
  function FailedIds(failed: seq<(string, string)>): seq<string>
    decreases |failed|
  {
    if failed == [] then []
    else FailedIds(failed[..|failed| - 1]) + [failed[|failed| - 1].0]
  }

  /** A link error that comes from a failed SQL statement (a
      `tokio_postgres::Error` turned into `TicketError::Database`): Postgres
      then aborts the whole transaction. */
  predicate AbortsTransaction(r: Result<(), TicketError>) {
    r.Err? && r.error.Database?
  }

  /** Whether one of the first `k` link statements aborted the transaction. */
  predicate AbortedBefore(results: seq<Result<(), TicketError>>, k: nat)
    requires k <= |results|
  {
    exists j :: 0 <= j < k && AbortsTransaction(results[j])
  }

  /** What the link statements answer inside one Postgres transaction, given
      what each would answer on its own: after the first statement that
      fails, every later one fails with the aborted-transaction error. */
  function InTransaction(results: seq<Result<(), TicketError>>): (answered: seq<Result<(), TicketError>>)
    ensures |answered| == |results|
  {
    seq(|results|, i requires 0 <= i < |results| =>
      if AbortedBefore(results, i) then Err(Database(TRANSACTION_ABORTED)) else results[i])
  }

  /** The `email_tickets` rows that link `emails` to `ticketId`. */
  function LinkRows(emails: seq<Uuid>, ticketId: Uuid): set<LinkRow> {
    set e | e in emails :: (e, ticketId)
  }

  /** What `create_ticket` does to the store and answers, given the store
      before the call and the outcomes of its storage calls. */
  function CreateTicketSpec(
    before: StoreState, req: CreateTicketRequest, id: Uuid, now: ClockReadings, env: CreateEnv)
    : CreateOutcome
    requires |env.linkResults| == |req.emailIds|
  {
    var validation := ValidateRequest(req);
    if validation.Err? then
      CreateOutcome(Response(BadRequest400, Text(ErrorText(validation.error))), before)
    else
      var ticket := RequestTicket(req, id, now);
      if req.emailIds == [] then
        // the standalone save, outside any transaction
        (match env.saveError
         case Some(e) => CreateOutcome(Response(InternalError500, Text(ErrorText(e))), before)
         case None =>
           CreateOutcome(Response(Created201, CreatedBody(CreateTicketResponse(id, [], []))),
                         before.(tickets := before.tickets[id := ticket])))
      else if !env.poolOk then
        CreateOutcome(Response(InternalError500, Text(DB_CONNECTION_ERROR)), before)
      else if !env.beginOk then
        CreateOutcome(Response(InternalError500, Text(TRANSACTION_ERROR)), before)
      else if env.saveError.Some? then
        CreateOutcome(Response(InternalError500, Text(ErrorText(env.saveError.value))), before)
      else
        var answered := InTransaction(env.linkResults);
        var linked := Linked(req.emailIds, answered);
        var failed := Failed(req.emailIds, answered);
        if linked == [] && |req.emailIds| > 0 then
          CreateOutcome(Response(BadRequest400, Text(NO_EMAIL_LINKED)), before)
        else if !env.commitOk then
          CreateOutcome(Response(InternalError500, Text(COMMIT_FAILED)), before)
        else
          var body := CreatedBody(CreateTicketResponse(id, linked, failed));
          var response := Response(if failed == [] then Created201 else Ok200, body);
          if AbortedBefore(env.linkResults, |env.linkResults|) then
            // COMMIT of an aborted transaction rolls it back and reports no error
            CreateOutcome(response, before)
          else
            CreateOutcome(response, StoreState(before.tickets[id := ticket],
                                               before.links + LinkRows(linked, id)))
  }

  /** The link loop of `create_ticket` inside its transaction: every
      requested id goes, in order, to the linked list or, with its error
      text, to the failed list; the successful links are added to the staged
      rows.  `aborted` is the transaction's state after the loop: once a
      statement has failed, Postgres answers every later one with the
      aborted-transaction error. */
  method LinkEmails(
    ticketId: Uuid, emailIds: seq<Uuid>, results: seq<Result<(), TicketError>>,
    staged: set<LinkRow>)
    returns (linked: seq<string>, failed: seq<(string, string)>, stagedAfter: set<LinkRow>,
             aborted: bool)
    requires |results| == |emailIds|
    ensures linked == Linked(emailIds, InTransaction(results))
    ensures failed == Failed(emailIds, InTransaction(results))
    ensures stagedAfter == staged + LinkRows(linked, ticketId)
    ensures aborted == AbortedBefore(results, |results|)
  {
    ghost var answered := InTransaction(results);
    linked, failed, stagedAfter, aborted := [], [], staged, false;
    for i := 0 to |emailIds|
      invariant linked == Linked(emailIds[..i], answered[..i])
      invariant failed == Failed(emailIds[..i], answered[..i])
      invariant stagedAfter == staged + LinkRows(linked, ticketId)
      invariant aborted == AbortedBefore(results, i)
    {
      assert emailIds[..i + 1][..i] == emailIds[..i];
      assert answered[..i + 1][..i] == answered[..i];
      var answer := if aborted then Err(Database(TRANSACTION_ABORTED)) else results[i];
      assert answer == answered[i];
      AbortedStep(results, i);
      match answer
      case Ok(_) =>
        linked := linked + [emailIds[i]];
        stagedAfter := stagedAfter + {(emailIds[i], ticketId)};
      case Err(e) =>
        failed := failed + [(emailIds[i], ErrorText(e))];
      aborted := aborted || AbortsTransaction(answer);
    }
    assert emailIds[..|emailIds|] == emailIds;
    assert answered[..|answered|] == answered;
  }

  /** The transaction is aborted after statement `i` exactly when it was
      before it or statement `i` failed on its own. */
  lemma AbortedStep(results: seq<Result<(), TicketError>>, i: nat)
    requires i < |results|
    ensures AbortedBefore(results, i + 1) <==> AbortedBefore(results, i) || AbortsTransaction(results[i])
  {
    if AbortedBefore(results, i + 1) && !AbortsTransaction(results[i]) {
      var j :| 0 <= j < i + 1 && AbortsTransaction(results[j]);
      assert j < i;
    }
  }

  /** Every requested id is accounted for: linked ids and failed ids together
      are the requested ids, as a multiset. */
  lemma {:induction false} LinkPartition(ids: seq<Uuid>, results: seq<Result<(), TicketError>>)
    requires |results| == |ids|
    ensures multiset(Linked(ids, results)) + multiset(FailedIds(Failed(ids, results))) == multiset(ids)
    decreases |ids|
  {
    if ids != [] {
      var n := |ids| - 1;
      LinkPartition(ids[..n], results[..n]);
      LinkStep(ids, results);
      MultisetOfPrefix(ids);
    }
  }

  /** One step of the partition: the last id joins exactly one side. */
  lemma LinkStep(ids: seq<Uuid>, results: seq<Result<(), TicketError>>)
    requires |results| == |ids| > 0
    ensures var n := |ids| - 1;
            multiset(Linked(ids, results)) + multiset(FailedIds(Failed(ids, results))) ==
            multiset(Linked(ids[..n], results[..n])) +
            multiset(FailedIds(Failed(ids[..n], results[..n]))) + multiset{ids[n]}
  {
    var n := |ids| - 1;
    var l := Linked(ids[..n], results[..n]);
    var f := Failed(ids[..n], results[..n]);
    LastLink(ids, results);
    if results[n].Ok? {
      MultisetSnoc(l, FailedIds(f), ids[n]);
    } else {
      var pair := (ids[n], ErrorText(results[n].error));
      FailedIdsSnoc(f, pair);
      MultisetSnoc(FailedIds(f), l, ids[n]);
    }
  }

  /** How the last result extends the two lists. */
  lemma LastLink(ids: seq<Uuid>, results: seq<Result<(), TicketError>>)
    requires |results| == |ids| > 0
    ensures var n := |ids| - 1;
            var l := Linked(ids[..n], results[..n]);
            var f := Failed(ids[..n], results[..n]);
            if results[n].Ok? then Linked(ids, results) == l + [ids[n]] && Failed(ids, results) == f
            else Linked(ids, results) == l && Failed(ids, results) == f + [(ids[n], ErrorText(results[n].error))]
  {
  }

  lemma MultisetSnoc(s: seq<string>, t: seq<string>, x: string)
    ensures multiset(s + [x]) + multiset(t) == multiset(s) + multiset(t) + multiset{x}
  {
  }

  /** `multiset` of a prefix plus the last element. */
  lemma MultisetOfPrefix(ids: seq<Uuid>)
    requires ids != []
    ensures multiset(ids) == multiset(ids[..|ids| - 1]) + multiset{ids[|ids| - 1]}
  {
    assert ids == ids[..|ids| - 1] + [ids[|ids| - 1]];
  }

  /** The linked and failed counts add up to `email_count`. */
  lemma {:induction false} LinkCounts(ids: seq<Uuid>, results: seq<Result<(), TicketError>>)
    requires |results| == |ids|
    ensures |Linked(ids, results)| + |Failed(ids, results)| == |ids|
    decreases |ids|
  {
    if ids != [] {
      var n := |ids| - 1;
      LinkCounts(ids[..n], results[..n]);
    }
  }

  lemma FailedIdsSnoc(f: seq<(string, string)>, pair: (string, string))
    ensures FailedIds(f + [pair]) == FailedIds(f) + [pair.0]
  {
    assert (f + [pair])[..|f|] == f;
  }

  /** An id goes to the linked list when its link succeeded and to the
      failed list when it did not. */
  lemma {:induction false} LinkMembership(
    ids: seq<Uuid>, results: seq<Result<(), TicketError>>, i: nat)
    requires |results| == |ids| && i < |ids|
    ensures results[i].Ok? ==> ids[i] in Linked(ids, results)
    ensures results[i].Err? ==> (ids[i], ErrorText(results[i].error)) in Failed(ids, results)
    decreases |ids|
  {
    var n := |ids| - 1;
    if i < n {
      LinkMembership(ids[..n], results[..n], i);
    }
  }

  /** Conversely, whatever the two lists hold comes from a position of the
      request whose link had that outcome. */
  lemma {:induction false} LinkOrigin(ids: seq<Uuid>, results: seq<Result<(), TicketError>>)
    requires |results| == |ids|
    ensures forall x :: x in Linked(ids, results) ==>
              exists i :: 0 <= i < |ids| && ids[i] == x && results[i].Ok?
    ensures forall p :: p in Failed(ids, results) ==>
              exists i :: 0 <= i < |ids| && ids[i] == p.0 && results[i].Err? &&
                          ErrorText(results[i].error) == p.1
    decreases |ids|
  {
    if ids != [] {
      var n := |ids| - 1;
      LinkOrigin(ids[..n], results[..n]);
      LastLink(ids, results);
      forall x | x in Linked(ids, results)
        ensures exists i :: 0 <= i < |ids| && ids[i] == x && results[i].Ok?
      {
        if x in Linked(ids[..n], results[..n]) {
          var i :| 0 <= i < n && ids[..n][i] == x && results[..n][i].Ok?;
          assert ids[i] == x && results[i].Ok?;
        } else {
          assert ids[n] == x && results[n].Ok?;
        }
      }
      forall p | p in Failed(ids, results)
        ensures exists i :: 0 <= i < |ids| && ids[i] == p.0 && results[i].Err? &&
                            ErrorText(results[i].error) == p.1
      {
        if p in Failed(ids[..n], results[..n]) {
          var i :| 0 <= i < n && ids[..n][i] == p.0 && results[..n][i].Err? &&
                   ErrorText(results[..n][i].error) == p.1;
          assert ids[i] == p.0 && results[i] == results[..n][i];
        } else {
          assert ids[n] == p.0 && results[n].Err? && ErrorText(results[n].error) == p.1;
        }
      }
    }
  }

  /** An id is linked exactly when the link of one of its occurrences
      succeeded, and it is listed as failed with an error text exactly when
      the link of one of its occurrences failed with that error. */
  lemma LinkMembershipIff(
    ids: seq<Uuid>, results: seq<Result<(), TicketError>>, x: Uuid, e: string)
    requires |results| == |ids|
    ensures x in Linked(ids, results) <==>
              exists i :: 0 <= i < |ids| && ids[i] == x && results[i].Ok?
    ensures (x, e) in Failed(ids, results) <==>
              exists i :: 0 <= i < |ids| && ids[i] == x && results[i].Err? &&
                          ErrorText(results[i].error) == e
  {
    LinkOrigin(ids, results);
    if i :| 0 <= i < |ids| && ids[i] == x && results[i].Ok? {
      LinkMembership(ids, results, i);
    }
    if i :| 0 <= i < |ids| && ids[i] == x && results[i].Err? && ErrorText(results[i].error) == e {
      LinkMembership(ids, results, i);
    }
  }

  /** Nothing is linked exactly when every link failed. */
  lemma {:induction false} NothingLinkedIffAllFailed(
    ids: seq<Uuid>, results: seq<Result<(), TicketError>>)
    requires |results| == |ids|
    ensures Linked(ids, results) == [] <==> forall i :: 0 <= i < |ids| ==> results[i].Err?
    ensures Failed(ids, results) == [] <==> forall i :: 0 <= i < |ids| ==> results[i].Ok?
    decreases |ids|
  {
    if ids != [] {
      var n := |ids| - 1;
      NothingLinkedIffAllFailed(ids[..n], results[..n]);
      forall i | 0 <= i < n ensures results[..n][i] == results[i] { }
    }
  }

  /** An invalid request is answered 400 before any storage call: the store
      is untouched whatever the storage calls would have done. */
  lemma CreateRejectsInvalidRequest(
    before: StoreState, req: CreateTicketRequest, id: Uuid, now: ClockReadings, env: CreateEnv)
    requires |env.linkResults| == |req.emailIds|
    requires ValidateRequest(req).Err?
    ensures CreateTicketSpec(before, req, id, now, env) ==
            CreateOutcome(Response(BadRequest400, Text(ErrorText(ValidateRequest(req).error))), before)
  {
  }

  /** Every answer other than 200 or 201 leaves the store as it was: each
      failure after the transaction opened rolls it back. */
  lemma CreateFailureLeavesStore(
    before: StoreState, req: CreateTicketRequest, id: Uuid, now: ClockReadings, env: CreateEnv)
    requires |env.linkResults| == |req.emailIds|
    ensures var out := CreateTicketSpec(before, req, id, now, env);
            !IsSuccess(out.response.status) ==> out.state == before
  {
  }

  /** A failed save inside the transaction answers 500 and leaves the store
      unchanged, whatever the links would have done (none is attempted). */
  lemma CreateSaveFailureRollsBack(
    before: StoreState, req: CreateTicketRequest, id: Uuid, now: ClockReadings, env: CreateEnv,
    otherLinks: seq<Result<(), TicketError>>)
    requires |env.linkResults| == |req.emailIds| == |otherLinks|
    requires ValidateRequest(req).Ok? && env.poolOk && env.beginOk && env.saveError.Some?
    ensures CreateTicketSpec(before, req, id, now, env) ==
            CreateOutcome(Response(InternalError500, Text(ErrorText(env.saveError.value))), before)
    ensures CreateTicketSpec(before, req, id, now, env) ==
            CreateTicketSpec(before, req, id, now, env.(linkResults := otherLinks))
  {
    ValidRequestHasEmails(req);
  }

  /** When every link fails the transaction is rolled back and the request
      is answered 400. */
  lemma CreateNothingLinkedRollsBack(
    before: StoreState, req: CreateTicketRequest, id: Uuid, now: ClockReadings, env: CreateEnv)
    requires |env.linkResults| == |req.emailIds|
    requires ValidateRequest(req).Ok? && env.poolOk && env.beginOk && env.saveError.None?
    requires forall i :: 0 <= i < |env.linkResults| ==> env.linkResults[i].Err?
    ensures CreateTicketSpec(before, req, id, now, env) ==
            CreateOutcome(Response(BadRequest400, Text(NO_EMAIL_LINKED)), before)
  {
    ValidRequestHasEmails(req);
    var answered := InTransaction(env.linkResults);
    forall i | 0 <= i < |answered| ensures answered[i].Err? { }
    NothingLinkedIffAllFailed(req.emailIds, answered);
  }

  /** A success reports the saved ticket's id with both lists and is 201
      exactly when no link failed (200 otherwise).  It stores the ticket and
      exactly the successful links when no link aborted the transaction, and
      nothing at all when one did. */
  lemma CreateSuccessCommits(
    before: StoreState, req: CreateTicketRequest, id: Uuid, now: ClockReadings, env: CreateEnv)
    requires |env.linkResults| == |req.emailIds|
    requires IsSuccess(CreateTicketSpec(before, req, id, now, env).response.status)
    ensures var out := CreateTicketSpec(before, req, id, now, env);
            var answered := InTransaction(env.linkResults);
            var linked := Linked(req.emailIds, answered);
            var failed := Failed(req.emailIds, answered);
            && linked != []
            && out.response.body == CreatedBody(CreateTicketResponse(id, linked, failed))
            && (out.response.status == Created201 <==> failed == [])
            && (out.response.status == Ok200 <==> failed != [])
            && (!AbortedBefore(env.linkResults, |env.linkResults|) ==>
                  && out.state.tickets == before.tickets[id := RequestTicket(req, id, now)]
                  && out.state.links == before.links + LinkRows(linked, id))
            && (AbortedBefore(env.linkResults, |env.linkResults|) ==> out.state == before)
  {
    ValidRequestHasEmails(req);
  }

  /** Once a link fails with a database error, no later e-mail is linked:
      Postgres answers every later statement with an error. */
  lemma AbortStopsLinking(ids: seq<Uuid>, results: seq<Result<(), TicketError>>, k: nat)
    requires |results| == |ids| && k < |ids| && AbortsTransaction(results[k])
    ensures Linked(ids, InTransaction(results)) == Linked(ids[..k], InTransaction(results)[..k])
  {
    var answered := InTransaction(results);
    forall j | k <= j < |answered| ensures answered[j].Err? {
      if j > k {
        assert AbortsTransaction(results[k]);
        assert AbortedBefore(results, j);
      }
    }
    LinkedUnchangedAfter(ids, answered, k, |ids|);
    assert ids[..|ids|] == ids;
    assert answered[..|answered|] == answered;
  }

  /** Positions `k` to `n` that all failed add nothing to the linked list. */
  lemma {:induction false} LinkedUnchangedAfter(
    ids: seq<Uuid>, answered: seq<Result<(), TicketError>>, k: nat, n: nat)
    requires |answered| == |ids| && k < n <= |ids|
    requires forall j :: k <= j < n ==> answered[j].Err?
    ensures Linked(ids[..n], answered[..n]) == Linked(ids[..k], answered[..k])
    decreases n
  {
    var m := n - 1;
    assert ids[..n][..m] == ids[..m];
    assert answered[..n][..m] == answered[..m];
    assert answered[..n][m].Err?;
    if m > k {
      LinkedUnchangedAfter(ids, answered, k, m);
    }
  }

  /** What the links after the first database error would have answered on
      their own makes no difference to `create_ticket`. */
  lemma LinksAfterAbortIrrelevant(
    before: StoreState, req: CreateTicketRequest, id: Uuid, now: ClockReadings, env: CreateEnv,
    k: nat, otherLinks: seq<Result<(), TicketError>>)
    requires |env.linkResults| == |req.emailIds| == |otherLinks|
    requires k < |otherLinks| && AbortsTransaction(env.linkResults[k])
    requires env.linkResults[..k + 1] == otherLinks[..k + 1]
    ensures CreateTicketSpec(before, req, id, now, env) ==
            CreateTicketSpec(before, req, id, now, env.(linkResults := otherLinks))
  {
    var results := env.linkResults;
    forall i | 0 <= i <= |results| ensures AbortedBefore(results, i) == AbortedBefore(otherLinks, i) {
      if i > k {
        assert AbortsTransaction(results[k]) && AbortsTransaction(otherLinks[k]);
      } else {
        forall j | 0 <= j < i ensures results[j] == otherLinks[j] {
          assert results[..k + 1][j] == otherLinks[..k + 1][j];
        }
      }
    }
    forall i | 0 <= i < |results| ensures InTransaction(results)[i] == InTransaction(otherLinks)[i] {
      if i > k {
        assert AbortsTransaction(results[k]);
      } else {
        assert results[..k + 1][i] == otherLinks[..k + 1][i];
      }
    }
    assert InTransaction(results) == InTransaction(otherLinks);
  }

  /** A link that fails with a database error aborts the transaction, and
      the commit that follows is a rollback: nothing is stored, and a
      success answer can only be the 200 that reports a failed link. */
  lemma CreateAbortedStoresNothing(
    before: StoreState, req: CreateTicketRequest, id: Uuid, now: ClockReadings, env: CreateEnv,
    k: nat)
    requires |env.linkResults| == |req.emailIds|
    requires k < |env.linkResults| && AbortsTransaction(env.linkResults[k])
    ensures var out := CreateTicketSpec(before, req, id, now, env);
            && out.state == before
            && (IsSuccess(out.response.status) ==> out.response.status == Ok200)
  {
    var answered := InTransaction(env.linkResults);
    assert AbortedBefore(env.linkResults, |env.linkResults|);
    assert answered[k].Err?;
    LinkMembership(req.emailIds, answered, k);
  }

  /** A request that answers 200 and stores nothing: the first e-mail links,
      the second link fails with a database error, which aborts the
      transaction, and the commit call returns without an error. */
  lemma PartialSuccessIsNotStored(before: StoreState, id: Uuid, now: ClockReadings)
    ensures var req := CreateTicketRequest(["e1", "e2"], "s", "d", None, None, None, None, None);
            var env := CreateEnv(true, true, None, [Ok(()), Err(Database("fk"))], true);
            var out := CreateTicketSpec(before, req, id, now, env);
            && out.response.status == Ok200
            && out.response.body ==
               CreatedBody(CreateTicketResponse(id, ["e1"], [("e2", "Database error: fk")]))
            && out.state == before
  {
    var results: seq<Result<(), TicketError>> := [Ok(()), Err(Database("fk"))];
    assert !AbortedBefore(results, 1);
    assert AbortedBefore(results, 2) by { assert AbortsTransaction(results[1]); }
    assert InTransaction(results) == results;
    var ids := ["e1", "e2"];
    assert ids[..1] == ["e1"] && results[..1] == [Ok(())];
    assert Linked(ids, results) == ["e1"];
    assert ids[..1][..0] == [] && results[..1][..0] == [];
    assert Failed(ids[..1], results[..1]) == [];
    assert ErrorText(Database("fk")) == "Database error: fk";
    assert Failed(ids, results) == [("e2", "Database error: fk")];
    assert ValidateRequest(CreateTicketRequest(ids, "s", "d", None, None, None, None, None)).Ok?;
  }

  /** The transactional store `create_ticket` works on. */
  class TicketStore {
    var tickets: map<Uuid, TicketData>
    var links: set<LinkRow>

    function State(): StoreState
      reads this
    {
      StoreState(tickets, links)
    }

    constructor ()
      ensures State() == StoreState(map[], {})
    {
      tickets := map[];
      links := {};
    }

    /** `create_ticket`: validate, save the ticket inside a transaction,
        link each email, roll back when nothing linked, otherwise commit. */
    method CreateTicket(req: CreateTicketRequest, id: Uuid, now: ClockReadings, env: CreateEnv)
      returns (resp: Response<Body>)
      requires |env.linkResults| == |req.emailIds|
      modifies this
      ensures CreateOutcome(resp, State()) == CreateTicketSpec(old(State()), req, id, now, env)
    {
      var validation := ValidateRequest(req);
      if validation.Err? {
        return Response(BadRequest400, Text(ErrorText(validation.error)));
      }
      var ticket := RequestTicket(req, id, now);
      if req.emailIds == [] {
        // the standalone save cannot be reached once validation has passed
        assert false;
      }
      if !env.poolOk {
        return Response(InternalError500, Text(DB_CONNECTION_ERROR));
      }
      if !env.beginOk {
        return Response(InternalError500, Text(TRANSACTION_ERROR));
      }
      // the transaction works on staged copies
      var stagedTickets := tickets;
      var stagedLinks := links;
      if env.saveError.Some? {
        // rollback: the staged copies are discarded
        return Response(InternalError500, Text(ErrorText(env.saveError.value)));
      }
      stagedTickets := stagedTickets[id := ticket];
      var linked, failed, aborted;
      linked, failed, stagedLinks, aborted := LinkEmails(id, req.emailIds, env.linkResults, stagedLinks);
      if linked == [] && |req.emailIds| > 0 {
        return Response(BadRequest400, Text(NO_EMAIL_LINKED));
      }
      if !env.commitOk {
        return Response(InternalError500, Text(COMMIT_FAILED));
      }
      if !aborted {
        tickets, links := stagedTickets, stagedLinks;
      }
      // otherwise the COMMIT rolled the aborted transaction back without an error
      var body := CreatedBody(CreateTicketResponse(id, linked, failed));
      if failed == [] {
        resp := Response(Created201, body);
      } else {
        resp := Response(Ok200, body);
      }
    }
  }

  /** `Ticket::find_by_id` against the store: a failed query, or the ticket
      if there is one. */
  function FindTicket(tickets: map<Uuid, TicketData>, id: Uuid, lookupError: Option<TicketError>)
    : (r: Result<Option<TicketData>, TicketError>)
    ensures r.Ok? <==> lookupError.None?
    ensures r.Ok? ==> (r.value.Some? <==> id in tickets)
    ensures r.Ok? && id in tickets ==> r.value == Some(tickets[id])
  {
    match lookupError
    case Some(e) => Err(e)
    case None => if id in tickets then Ok(Some(tickets[id])) else Ok(None)
  }

  /** The shared shape of `add_email_to_ticket` and
      `remove_email_from_ticket`: look the ticket up, then map the
      association call's outcome to a response. */
  function EmailChangeResponse(
    tickets: map<Uuid, TicketData>, id: Uuid, lookupError: Option<TicketError>,
    change: Result<(), TicketError>): Response<Body>
  {
    match FindTicket(tickets, id, lookupError)
    case Ok(Some(_)) =>
      (match change
       case Ok(_) => Response(Ok200, NoBody)
       case Err(Validation(msg)) => Response(BadRequest400, Text(msg))
       case Err(e) => Response(InternalError500, Text(ErrorText(e))))
    case Ok(None) => Response(NotFound404, Text(TICKET_NOT_FOUND))
    case Err(e) => Response(InternalError500, Text(ErrorText(e)))
  }

  /** `add_email_to_ticket`; `add` is the outcome of `Ticket::add_email`. */
  function AddEmailToTicket(
    tickets: map<Uuid, TicketData>, id: Uuid, lookupError: Option<TicketError>,
    add: Result<(), TicketError>): Response<Body>
  {
    EmailChangeResponse(tickets, id, lookupError, add)
  }

  /** `remove_email_from_ticket`; `remove` is the outcome of
      `Ticket::remove_email`. */
  function RemoveEmailFromTicket(
    tickets: map<Uuid, TicketData>, id: Uuid, lookupError: Option<TicketError>,
    remove: Result<(), TicketError>): Response<Body>
  {
    EmailChangeResponse(tickets, id, lookupError, remove)
  }

  /** Adding or removing an email: a missing ticket is 404 whatever the
      association call would return (it is not made), a validation error
      400, any other error 500, success 200. */
  lemma EmailChangeOutcomes(
    tickets: map<Uuid, TicketData>, id: Uuid, lookupError: Option<TicketError>,
    change: Result<(), TicketError>, other: Result<(), TicketError>)
    ensures lookupError.Some? ==>
              AddEmailToTicket(tickets, id, lookupError, change).status == InternalError500 &&
              RemoveEmailFromTicket(tickets, id, lookupError, change).status == InternalError500
    ensures lookupError.None? && id !in tickets ==>
              AddEmailToTicket(tickets, id, lookupError, change) == Response(NotFound404, Text(TICKET_NOT_FOUND)) &&
              AddEmailToTicket(tickets, id, lookupError, change) == AddEmailToTicket(tickets, id, lookupError, other) &&
              RemoveEmailFromTicket(tickets, id, lookupError, change) == RemoveEmailFromTicket(tickets, id, lookupError, other)
    ensures lookupError.None? && id in tickets ==>
              var add := AddEmailToTicket(tickets, id, lookupError, change);
              var rem := RemoveEmailFromTicket(tickets, id, lookupError, change);
              && (change.Ok? ==> add.status == Ok200 && rem.status == Ok200)
              && (change.Err? && change.error.Validation? ==>
                    add == Response(BadRequest400, Text(change.error.message)) && rem == add)
              && (change.Err? && !change.error.Validation? ==>
                    add.status == InternalError500 && rem.status == InternalError500)
  {
  }

  /** `get_ticket_emails`; `emails` is the outcome of `Ticket::get_emails`. */
  function GetTicketEmails(
    tickets: map<Uuid, TicketData>, id: Uuid, lookupError: Option<TicketError>,
    emails: Result<seq<Uuid>, TicketError>): (r: Response<Body>)
    ensures lookupError.None? && id !in tickets ==> r == Response(NotFound404, Text(TICKET_NOT_FOUND))
    ensures r.status == Ok200 <==> lookupError.None? && id in tickets && emails.Ok?
    ensures r.status == Ok200 ==> r.body == EmailIds(emails.value)
  {
    match FindTicket(tickets, id, lookupError)
    case Ok(Some(_)) =>
      (match emails
       case Ok(ids) => Response(Ok200, EmailIds(ids))
       case Err(e) => Response(InternalError500, Text(ErrorText(e))))
    case Ok(None) => Response(NotFound404, Text(TICKET_NOT_FOUND))
    case Err(e) => Response(InternalError500, Text(ErrorText(e)))
  }

  /** `get_ticket`: 200 with the stored ticket, 404 when there is none, 500
      when the lookup fails. */
  function GetTicket(tickets: map<Uuid, TicketData>, id: Uuid, lookupError: Option<TicketError>)
    : (r: Response<Body>)
    ensures r.status == Ok200 <==> lookupError.None? && id in tickets
    ensures r.status == Ok200 ==> r.body == TicketJson(tickets[id])
    ensures r.status == NotFound404 <==> lookupError.None? && id !in tickets
    ensures lookupError.Some? ==> r == Response(InternalError500, Text(ErrorText(lookupError.value)))
  {
    match FindTicket(tickets, id, lookupError)
    case Ok(Some(t)) => Response(Ok200, TicketJson(t))
    case Ok(None) => Response(NotFound404, Text(TICKET_NOT_FOUND))
    case Err(e) => Response(InternalError500, Text(ErrorText(e)))
  }

  datatype StatusUpdateOutcome = StatusUpdateOutcome(
    response: Response<Body>, tickets: map<Uuid, TicketData>)

  /** `update_ticket_status`: the body text goes through the fallback parser;
      `update` is the outcome of the `UPDATE ... RETURNING updated_at`. */
  function UpdateTicketStatus(
    tickets: map<Uuid, TicketData>, id: Uuid, statusText: string,
    lookupError: Option<TicketError>, update: Result<Timestamp, TicketError>)
    : StatusUpdateOutcome
  {
    var newStatus := StatusFromString(statusText);
    match FindTicket(tickets, id, lookupError)
    case Ok(Some(t)) =>
      (match update
       case Ok(at) =>
         StatusUpdateOutcome(Response(Ok200, NoBody),
                             tickets[id := WithStatus(t, newStatus, at)])
       case Err(e) =>
         StatusUpdateOutcome(Response(InternalError500, Text(ErrorText(e))), tickets))
    case Ok(None) => StatusUpdateOutcome(Response(NotFound404, Text(TICKET_NOT_FOUND)), tickets)
    case Err(e) => StatusUpdateOutcome(Response(InternalError500, Text(ErrorText(e))), tickets)
  }

  /** A status update changes exactly the status and timestamp of the named
      ticket and answers 200; an unrecognised status text sets `Open`; a
      missing ticket is 404 and any failure 500, both leaving the store
      unchanged (there is no 400 path). */
  lemma UpdateTicketStatusOutcomes(
    tickets: map<Uuid, TicketData>, id: Uuid, statusText: string,
    lookupError: Option<TicketError>, update: Result<Timestamp, TicketError>)
    ensures var out := UpdateTicketStatus(tickets, id, statusText, lookupError, update);
            && (out.response.status == Ok200 <==> lookupError.None? && id in tickets && update.Ok?)
            && (out.response.status == Ok200 ==>
                  out.tickets == tickets[id := WithStatus(tickets[id], StatusFromString(statusText),
                                                          update.value)])
            && (out.response.status != Ok200 ==> out.tickets == tickets)
            && (lookupError.None? && id !in tickets ==> out.response.status == NotFound404)
            && out.response.status != BadRequest400
    ensures statusText != "InProgress" && statusText != "Closed" && statusText != "Resolved" &&
            lookupError.None? && id in tickets && update.Ok? ==>
              UpdateTicketStatus(tickets, id, statusText, lookupError, update).tickets[id].status == Open
  {
  }
}
