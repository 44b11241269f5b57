# Abuse-Helper backend core in Dafny

The Rust backend of Abuse-Helper receives abuse reports and turns them into
tickets. A ticket links one or more e-mails and is classified by a language
model's threat analysis. The system also authenticates the people who handle
tickets with JSON Web Tokens and a token blacklist, migrates its Postgres
schema, and mirrors tickets into an Elasticsearch index.

This project models the decision logic of that core and proves properties
of it. It covers:

- the ticket entity and its text codecs;
- request validation and the ticket handlers, including the transactional `create_ticket`;
- parsing of the model's reply;
- JWT issuing, bearer-header authentication, the blacklist, the role middleware, and the login, refresh and logout handlers;
- the customer lookup handler;
- the migration runner and the pool configuration;
- the Elasticsearch document and index operations.

Modules, one per source file:

| module | file | models |
|---|---|---|
| `Wrappers`, `Http` | wrappers.dfy | `Option`/`Result`, HTTP statuses and responses |
| `TicketModel` | ticket_model.dfy | backend/src/models/ticket.rs |
| `Requests` | requests.dfy | backend/src/models/requests.rs |
| `LlmThreatAnalysis`, `LlmParser` | llm.dfy | backend/src/llm/threat_analysis.rs, backend/src/llm/parser.rs |
| `TicketRoutes` | ticket_routes.dfy | backend/src/routes/ticket.rs |
| `AuthCore` | auth.dfy | backend/src/auth.rs |
| `Middleware` | auth_middleware.dfy | backend/src/middleware/auth.rs |
| `AuthRoutes` | auth_routes.dfy | backend/src/routes/auth.rs |
| `CustomerRoutes` | customer_routes.dfy | backend/src/routes/customer.rs |
| `Postgres` | postgres.dfy | backend/src/postgres.rs |
| `SearchIndex` | es.dfy | backend/src/models/es.rs |

Anything outside the program is a parameter of the model:

- the database, Elasticsearch, the clock, random UUIDs, bcrypt, JWT signing and verification, and JSON syntax;
- each is either an oracle function (`verify`, `encode`, `lookup`, `json`, `decode`, `merge`) or a datatype holding the outcome of the call (a `Transport` status, a `MigrationEnv`, a `CreateEnv`, an error `Option`).

State that the source changes in place is modelled by classes:

- a `Ticket` object;
- the ticket store with its ticket/e-mail link table;
- the token blacklist;
- the request whose extensions receive the claims;
- the migrations table;
- the Elasticsearch cluster.

Each state-changing method is proved equal to a specification function of the old state. The properties are proved about those functions.

## Model

| member | source | states |
|---|---|---|
| TicketModel.TypeRoundTrip | backend/src/models/ticket.rs:29-76 | parsing the printed name of a ticket type gives the type back |
| TicketModel.TypeToStringInjective | backend/src/models/ticket.rs:29-52 | distinct ticket types print differently |
| TicketModel.TypeFromStringFallback | backend/src/models/ticket.rs:54-76 | a text that names no variant parses as `Other` |
| TicketModel.StatusRoundTrip | backend/src/models/ticket.rs:86-107 | parsing the printed name of a status gives the status back |
| TicketModel.StatusFromStringFallback | backend/src/models/ticket.rs:98-107 | a text other than "InProgress", "Closed" or "Resolved" parses as `Open` |
| TicketModel.DefaultStatus | backend/src/models/ticket.rs:109-113 | the default status is `Open` |
| TicketModel.NewTicket | backend/src/models/ticket.rs:185-211 | a new ticket is in the default status, takes `created_at` and `updated_at` from the two clock readings in that order, and carries every argument unchanged |
| TicketModel.Validate | backend/src/models/ticket.rs:301-314 | validation succeeds iff subject, description and e-mail id are all non-empty; every failure is a validation error |
| TicketModel.ValidateReportsFirstFailure | backend/src/models/ticket.rs:301-314 | the checks run in the order subject, description, e-mail id, and the first one that fails gives the message |
| TicketModel.SaveRow | backend/src/models/ticket.rs:214-253 | `save` stores the type and the status as their printed names |
| TicketModel.FromRow | backend/src/models/ticket.rs:132-150 | a stored type or status is either the value whose name was stored or the fallback (`Other`, `Open`) |
| TicketModel.SaveThenReadRoundTrip | backend/src/models/ticket.rs:132-150 | a saved ticket reads back from its row unchanged |
| TicketModel.UnknownStoredStatusReadsOpen | backend/src/models/ticket.rs:98-107 | a row with an unrecognised status reads back as `Open` |
| TicketModel.Ticket.FromData | backend/src/models/ticket.rs:116-130 | the object's fields hold the given record |
| TicketModel.WithStatus | backend/src/models/ticket.rs:264-272 | a status change sets the status and `updated_at` and keeps every other field |
| TicketModel.Ticket.UpdateStatus | backend/src/models/ticket.rs:256-274 | on success only the status and `updated_at` change; a failed update returns its error and leaves the object as it was |
| Requests.ValidateRequest | backend/src/models/requests.rs:32-56 | a request is accepted iff its subject and description are non-empty, it has an e-mail id, and any confidence score is in [0, 1] |
| Requests.ValidateRequestFirstFailure | backend/src/models/requests.rs:32-56 | the four checks run in source order and the first failing one gives the message |
| Requests.ScoreBoundsInclusive | backend/src/models/requests.rs:48-54 | once the other checks pass, the scores 0 and 1 are both accepted, and so is an absent score |
| Requests.ValidRequestHasEmails | backend/src/models/requests.rs:43-47 | an accepted request names at least one e-mail |
| LlmThreatAnalysis.DefaultError | backend/src/llm/threat_analysis.rs:14-22 | the fallback analysis is of type `Other`, with confidence 0, no threats, no indicators, and the message as its summary |
| LlmThreatAnalysis.DefaultErrorInjective | backend/src/llm/threat_analysis.rs:14-22 | distinct messages give distinct fallbacks |
| LlmParser.TrimStartEmptyIffBlank | backend/src/llm/parser.rs:29 | trimming the front leaves nothing iff every character is whitespace |
| LlmParser.TrimEmptyIffBlank | backend/src/llm/parser.rs:29 | `trim()` is empty iff the reply is blank |
| LlmParser.TrimEndBlank | backend/src/llm/parser.rs:29 | trimming the end leaves nothing only for a blank text |
| LlmParser.VariantNamed | backend/src/llm/threat_analysis.rs:6 | the variant found has the given name; no variant is found only when none has that name |
| LlmParser.ThreatTypeFromJsonSpec | backend/src/llm/threat_analysis.rs:6 | the derived decoder accepts a string iff it is the exact name of a ticket type, and then agrees with `From<String>` |
| LlmParser.ParseLlmResponse | backend/src/llm/parser.rs:27-49 | parsing never returns an error |
| LlmParser.BlankResponseGivesNoResponseDefault | backend/src/llm/parser.rs:28-34 | a blank reply gives the "no response from model" fallback, whatever the JSON decoder would say |
| LlmParser.UndecodableGivesParseFailed | backend/src/llm/parser.rs:42-47 | a non-blank reply that does not decode gives the "Failed to parse" fallback |
| LlmParser.DecodedPassesThrough | backend/src/llm/parser.rs:37-41 | a decoded non-blank reply is returned exactly as decoded |
| LlmParser.UnknownThreatTypeGivesParseFailed | backend/src/llm/parser.rs:37-47 | a well-formed JSON reply whose `threat_type` names no variant is a parse failure |
| LlmParser.FallbacksAreWellFormed | backend/src/llm/parser.rs:27-49 | both fallbacks have a confidence in [0, 1] |
| LlmParser.DecodedScoreNotClamped | backend/src/llm/parser.rs:37-41 | for every decodable non-blank reply the result carries the reply's confidence unchanged, so it is outside [0, 1] exactly when the reply's is |
| TicketRoutes.RequestTicket | backend/src/routes/ticket.rs:22-31 | the ticket built from a request is `Open`, has no IP address, and defaults a missing type to `Other` |
| TicketRoutes.LinkEmails | backend/src/routes/ticket.rs:79-94 | the linking loop returns, in order, the ids whose insert succeeded inside the transaction and the failed ids with their error texts, the link rows it wrote, and whether a database error aborted the transaction |
| TicketRoutes.LinkPartition | backend/src/routes/ticket.rs:84-94 | every requested id ends up either linked or failed: the two lists together are a permutation of the request |
| TicketRoutes.LinkCounts | backend/src/routes/ticket.rs:84-94 | the linked and the failed counts add up to the number of ids |
| TicketRoutes.LinkMembership | backend/src/routes/ticket.rs:84-94 | an id whose link succeeded is in the linked list, and an id whose link failed is in the failed list with its error text |
| TicketRoutes.LinkOrigin | backend/src/routes/ticket.rs:84-94 | every linked id comes from a position whose link succeeded, and every failure from a position whose link failed with that error |
| TicketRoutes.LinkMembershipIff | backend/src/routes/ticket.rs:84-94 | an id is linked iff the link of one of its occurrences succeeded, and it is listed as failed with an error iff the link of one of its occurrences failed with that error |
| TicketRoutes.NothingLinkedIffAllFailed | backend/src/routes/ticket.rs:96-100 | nothing is linked iff every insert failed |
| TicketRoutes.CreateRejectsInvalidRequest | backend/src/routes/ticket.rs:15-19 | an invalid request is answered 400 with the validation text, and the store is unchanged |
| TicketRoutes.CreateFailureLeavesStore | backend/src/routes/ticket.rs:51-67 | a pool or transaction failure is 500 and changes nothing |
| TicketRoutes.CreateSaveFailureRollsBack | backend/src/routes/ticket.rs:69-77 | a failed save is 500 with the error text and is rolled back |
| TicketRoutes.CreateNothingLinkedRollsBack | backend/src/routes/ticket.rs:96-100 | when no e-mail links, the ticket is rolled back and the answer is 400 |
| TicketRoutes.CreateSuccessCommits | backend/src/routes/ticket.rs:102-123 | a success is 201 when every link succeeded and 200 otherwise, with the ticket id and the loop's linked and failed lists; the commit stores the ticket and exactly its link rows when no link aborted the transaction, and nothing when one did |
| TicketRoutes.AbortStopsLinking | backend/src/routes/ticket.rs:84-94 | once a link fails with a database error, no later e-mail of the request is linked |
| TicketRoutes.LinksAfterAbortIrrelevant | backend/src/routes/ticket.rs:84-123 | what the links after the first database error would have answered on their own does not change the handler's answer or the store |
| TicketRoutes.CreateAbortedStoresNothing | backend/src/routes/ticket.rs:84-123 | a link that fails with a database error leaves the store as it was, and any success answer is then the 200 of a partial link |
| TicketRoutes.PartialSuccessIsNotStored | backend/src/routes/ticket.rs:84-123 | with one e-mail linked and the next failing with a database error, the handler answers 200 listing the linked e-mail, yet neither the ticket nor any link is stored |
| TicketRoutes.TicketStore.CreateTicket | backend/src/routes/ticket.rs:9-124 | the handler's response and new store equal the specification of `create_ticket` applied to the old store |
| TicketRoutes.FindTicket | backend/src/models/ticket.rs:289-298 | a lookup fails iff the query fails, and otherwise finds the ticket iff it is stored |
| TicketRoutes.EmailChangeOutcomes | backend/src/routes/ticket.rs:128-194 | adding or removing an e-mail: a missing ticket is 404 whatever the association call would return, a validation error is 400, any other error 500, success 200 |
| TicketRoutes.GetTicketEmails | backend/src/routes/ticket.rs:198-222 | 200 with the e-mail ids iff the ticket exists and the query succeeds; 404 for a missing ticket |
| TicketRoutes.GetTicket | backend/src/routes/ticket.rs:273-287 | 200 with the stored ticket iff it exists, 404 iff it is missing, 500 with the error text when the lookup fails |
| TicketRoutes.UpdateTicketStatusOutcomes | backend/src/routes/ticket.rs:241-269 | the update changes only the named ticket's status and timestamp; an unknown status text sets `Open`; 404 and 500 leave the store unchanged; there is no 400 answer |
| AuthCore.ToUsize | backend/src/auth.rs:40 | `as usize` reduces modulo 2^64 and keeps a non-negative timestamp below 2^64 as it is |
| AuthCore.JwtClaims | backend/src/auth.rs:30-42 | the signed claims carry the subject, the role, the token type, and an expiry of issue time plus the type's lifetime |
| AuthCore.TokenLifetimes | backend/src/auth.rs:31-34 | access tokens expire one hour after issue and refresh tokens seven days after |
| AuthCore.HeaderToStr | backend/src/auth.rs:105-107 | a header value is text iff every octet is visible ASCII or a tab, and the text is those octets |
| AuthCore.ExtractBearer | backend/src/auth.rs:110-117 | a token is extracted iff the text starts with "Bearer ", and it is the rest of the text |
| AuthCore.BearerRoundTrip | backend/src/auth.rs:110-117 | extracting from "Bearer " plus a token gives the token |
| AuthCore.BearerIsCaseSensitive | backend/src/auth.rs:110-114 | a lower-case "bearer " scheme is refused |
| AuthCore.BearerToken | backend/src/auth.rs:100-117 | a missing header is refused as "No authorization header"; a non-text or non-Bearer header as "Invalid authorization header" |
| AuthCore.CheckAuth | backend/src/auth.rs:96-151 | authentication succeeds iff the header gives a bearer token that is not blacklisted and verifies as an access token, and then returns the verified claims |
| AuthCore.BlacklistedRejectedBeforeVerify | backend/src/auth.rs:119-124 | a blacklisted token is refused as invalidated whatever the verifier says |
| AuthCore.RefreshTokenNeverAuthenticates | backend/src/auth.rs:129-133 | a verified refresh token is refused as "Invalid token type" |
| AuthCore.VerificationFailureMessages | backend/src/auth.rs:136-141 | an expired token is reported as expired and any other verification failure as "Invalid token" |
| AuthCore.MissingHeaderRejected | backend/src/auth.rs:143-150 | a request without the header is refused as "No authorization header" |
| AuthCore.AuthorizationRule | backend/src/auth.rs:165-168 | a caller is authorised iff the role matches or the caller is an admin |
| AuthCore.Lookup | backend/src/auth.rs:201-219 | the blacklist query answers whether the token is stored, and a database failure is an internal error |
| AuthCore.Blacklist.Invalidate | backend/src/auth.rs:181-199 | a successful invalidation adds the token to the blacklist; a database failure is an internal error and changes nothing |
| AuthCore.Blacklist.IsBlacklisted | backend/src/auth.rs:201-219 | the lookup agrees with the blacklist's contents |
| Middleware.Decide | backend/src/middleware/auth.rs:63-92 | an authentication error is passed on; an authenticated caller is forwarded iff it meets the role requirement, and refused as "Insufficient permissions" otherwise |
| Middleware.NoRoleForwardsAuthenticated | backend/src/middleware/auth.rs:63-92 | with no role requirement every authenticated request is forwarded |
| Middleware.ForwardedRequestsAreAuthorized | backend/src/middleware/auth.rs:63-92 | a forwarded request carries a non-blacklisted, verified access token whose role meets the requirement |
| Middleware.ServiceRequest.constructor | backend/src/middleware/auth.rs:63-66 | a request starts with its header and no claims |
| Middleware.AuthMiddleware.Call | backend/src/middleware/auth.rs:63-92 | a refused request is answered with its error, the inner service does not run, and the request is unchanged; a forwarded one has the claims stored, and then the inner service runs |
| Middleware.Auth.constructor | backend/src/middleware/auth.rs:114-116 | a new builder has no role requirement |
| Middleware.Auth.Role | backend/src/middleware/auth.rs:122-125 | `role` sets the requirement |
| Middleware.Auth.NewTransform | backend/src/middleware/auth.rs:150-155 | the middleware copies the builder's requirement |
| Middleware.ConfiguredRoleIsEnforced | backend/src/middleware/auth.rs:111-155 | a middleware built with `role(r)` refuses, with 403, an authenticated non-admin of another role |
| AuthRoutes.Login | backend/src/routes/auth.rs:10-30 | login succeeds iff the user is found, the password matches and both tokens are signed; the only answers are 200, 401 and 500 |
| AuthRoutes.LoginFailuresIndistinguishable | backend/src/routes/auth.rs:11-18 | an unknown e-mail and a wrong password get the same 401 answer, and no token is signed |
| AuthRoutes.LoginIssuesBothTokens | backend/src/routes/auth.rs:20-27 | a successful login returns an access and a refresh token signed over the user's id and role |
| AuthRoutes.LoginSigningFailureIs500 | backend/src/routes/auth.rs:23-29 | once the password matches, a signing failure of either token is 500 |
| AuthRoutes.RefreshAccess | backend/src/routes/auth.rs:33-47 | an unverified token is 401 "Invalid refresh token"; a non-refresh token is 400; success iff a verified refresh token yields a new access token |
| AuthRoutes.RefreshKeepsSubjectAndRole | backend/src/routes/auth.rs:39-41 | the new access token is signed over the refresh token's subject and role, expiring an hour after issue |
| AuthRoutes.LogoutToken | backend/src/routes/auth.rs:51-54 | logout finds a token under exactly the header rules of `check_auth` |
| AuthRoutes.Logout | backend/src/routes/auth.rs:50-63 | without a bearer token it is 400 and changes nothing; otherwise the token is blacklisted (200), or on a database failure it is 500 and changes nothing |
| AuthRoutes.LoggedOutTokenRejected | backend/src/routes/auth.rs:50-63 | after a successful logout the same header no longer authenticates |
| CustomerRoutes.SelectLookup | backend/src/routes/customer.rs:111-150 | an e-mail wins over an IP, and an IP over an id; no key selects no query |
| CustomerRoutes.Find | backend/src/routes/customer.rs:111-150 | 200 with the customer iff the pool is available, a key is given and its query succeeds; every failure is 500 |
| CustomerRoutes.EmailTakesPriority | backend/src/routes/customer.rs:111-150 | with an e-mail given, the IP and the id play no part |
| CustomerRoutes.IpBeforeId | backend/src/routes/customer.rs:111-150 | without an e-mail, an IP makes the id irrelevant |
| CustomerRoutes.PoolFailureBeforeLookup | backend/src/routes/customer.rs:111-150 | a pool failure is answered before any query is made |
| CustomerRoutes.NoKeyNoLookup | backend/src/routes/customer.rs:111-150 | with no key the request is refused without a query |
| CustomerRoutes.FailedLookupIsNotFound | backend/src/routes/customer.rs:111-150 | any failed query is reported as "customer not found" |
| Postgres.ScriptNamesDistinct | backend/src/postgres.rs:24-69 | the eleven migration names are distinct |
| Postgres.RunOnlyAdds | backend/src/postgres.rs:149-173 | a run only appends to the execution log and never unrecords a name |
| Postgres.RunOnlyPending | backend/src/postgres.rs:150-168 | a script runs only if its name was not recorded, and a name is recorded only after its script ran in the same call |
| Postgres.RunOnceEach | backend/src/postgres.rs:150-173 | within one call no migration runs twice |
| Postgres.SuccessfulRun | backend/src/postgres.rs:133-176 | when every statement succeeds, exactly the pending migrations run, in order, and every name ends up recorded |
| Postgres.RecordedRunIsNoOp | backend/src/postgres.rs:150-173 | with every name recorded, a run executes and records nothing |
| Postgres.MigrationsIdempotent | backend/src/postgres.rs:133-176 | a second run after a successful one executes nothing |
| Postgres.RunSplits | backend/src/postgres.rs:150-173 | the loop is sequential: a failing prefix ends the run, and a succeeding prefix hands its database to the rest |
| Postgres.RecordFailureLeavesScriptUnrecorded | backend/src/postgres.rs:162-167 | a script whose name could not be recorded has run but stays unrecorded |
| Postgres.MigrationDb.RunMigrations | backend/src/postgres.rs:133-176 | the method's result and new database equal the specification of `run_migrations` applied to the old database |
| Postgres.CreateConfig | backend/src/postgres.rs:81-102 | each configuration field is set from its variable when that variable is present, and is left at the default otherwise |
| Postgres.ConfigFieldsIndependent | backend/src/postgres.rs:81-102 | each field depends only on its own variable |
| SearchIndex.AsU64 | backend/src/models/es.rs:97-99 | only an integer in u64 range reads as a number |
| SearchIndex.Put | backend/src/models/es.rs:56-77 | storing puts the document at its id, keeps every index, and leaves every other document unchanged |
| SearchIndex.Remove | backend/src/models/es.rs:111-127 | removing deletes exactly the document at its id |
| SearchIndex.MappingFor | backend/src/models/es.rs:166-224 | only "emails" and "tickets" have a mapping |
| SearchIndex.SearchCluster.IndexDocument | backend/src/models/es.rs:56-77 | the new indices equal the specification of `index_document` applied to the old ones |
| SearchIndex.SearchCluster.UpdateDocument | backend/src/models/es.rs:129-153 | the new indices equal the specification of `update_document` applied to the old ones |
| SearchIndex.SearchCluster.DeleteDocument | backend/src/models/es.rs:111-127 | the new indices equal the specification of `delete_document` applied to the old ones |
| SearchIndex.SearchCluster.DeleteIndex | backend/src/models/es.rs:237-253 | the new indices equal the specification of `delete_index` applied to the old ones |
| SearchIndex.SearchCluster.EnsureIndex | backend/src/models/es.rs:155-235 | the new indices equal the specification of `ensure_index`, whose presence test is the probe's 2xx status, applied to the old ones |
| SearchIndex.IndexThenGet | backend/src/models/es.rs:56-77 | after a successful index the document is at its id and nothing else changed; a failure changes nothing |
| SearchIndex.UpdateIsUpsert | backend/src/models/es.rs:129-153 | an update stores the given document when the id is absent and the merge when it is present |
| SearchIndex.UpdateFailureKeepsIndices | backend/src/models/es.rs:129-153 | a failed update reports its status and changes nothing |
| SearchIndex.DeleteDocumentOutcomes | backend/src/models/es.rs:111-127 | a 2xx removes the document, a 404 is a no-op success, and any other status is an error that changes nothing |
| SearchIndex.DeleteDocumentIdempotent | backend/src/models/es.rs:111-127 | after a delete the document is absent, and a second delete is a no-op success |
| SearchIndex.DeleteIndexOutcomes | backend/src/models/es.rs:237-253 | a 2xx removes the index, a 404 is a no-op success, and any other status is an error that changes nothing |
| SearchIndex.TruthfulProbe | backend/src/models/es.rs:156-163 | a probe answered as a cluster answers it counts as present iff the index is held |
| SearchIndex.EnsureIndexIdempotent | backend/src/models/es.rs:155-165 | after a 2xx probe `ensure_index` succeeds and changes nothing; with truthful probes a second call after a successful one is a no-op |
| SearchIndex.EnsureIndexTruthfulProbe | backend/src/models/es.rs:155-235 | with a truthful probe, a held index is left alone and an absent known one is created with its mapping when the cluster accepts |
| SearchIndex.EnsureIndexProbeStatusDecides | backend/src/models/es.rs:156-231 | a non-2xx probe of a held index counts as absence: an unknown name is refused as invalid, and a known one goes on to a create whose transport failure is the result |
| SearchIndex.EnsureIndexKnownNames | backend/src/models/es.rs:165-224 | after a non-2xx probe, a name other than "emails" or "tickets" is refused as invalid input without a create request |
| SearchIndex.EnsureIndexIgnoresCreateStatus | backend/src/models/es.rs:226-234 | a refused create still reports success, and the index stays absent |
| SearchIndex.DecodeSourcesBound | backend/src/models/es.rs:101-106 | a search keeps at most one result per raw hit |
| SearchIndex.DecodeSourcesAppend | backend/src/models/es.rs:101-106 | decoding respects concatenation, so kept results stay in hit order |
| SearchIndex.DecodeSourcesAllKept | backend/src/models/es.rs:101-106 | when every source decodes, every hit is kept |
| SearchIndex.Search | backend/src/models/es.rs:79-109 | 404 is `NotFound`; a failed send and a body that is not JSON are `Elastic` errors; a search succeeds iff the request was sent, the status is not 404 and the body is JSON, and then it returns at most one result per raw hit |
| SearchIndex.SearchWithoutHitsIsEmpty | backend/src/models/es.rs:96-106 | a body without `hits` reads as zero results, not an error |
| SearchIndex.SearchTotal | backend/src/models/es.rs:97-99 | `total` is the integer at hits.total.value when there is one and 0 otherwise |

## Left out

- Input and output are not modelled: the HTTP server, its routing and JSON encoding, the connection pool, logging and `println!`. The handlers are functions from the outcomes of their calls to a response.
- JWT signing and verification, bcrypt, Keycloak (`exchange_keycloak_token`), the Ollama client and analyser, SMTP, WHOIS and the other models are foreign calls. They are oracle parameters or are not part of this model.
- Concurrency is not modelled; each handler is one atomic step on the store. The isolation of the Postgres transaction is therefore not modelled, and a rollback is the store left as it was.
- TicketRoutes.CreateTicketSpec: `add_email_with_client` is not part of this model, so each link's outcome on its own is an input. Only a `Database` error is taken to come from a failed SQL statement and so to abort the transaction; a `Validation` error is taken to be raised before any statement. The aborted-transaction text is the one tokio-postgres formats for SQLSTATE 25P02.
- `f64` confidence scores are reals, so NaN and rounding are not modelled.
- `list_tickets`, `search_tickets`, `Ticket::list_all` and the customer `list` handler only pass query results through; they are not part of this model.
- `Ticket::new` takes nine arguments in models/ticket.rs, but routes/ticket.rs calls it with eight, omitting the e-mail id. The model follows the definition and passes an empty e-mail id and no IP address at that call.
- `create_jwt` takes a `&Uuid` subject, but the handlers pass a `String`. The model's subject is a string.
- `find` reads `form.uuid` and calls `Customer::find_by_uuid`, while `LookUpForm` declares `id` and the customer model defines `find_by_id`. The model's third key is the integer `id`, and the three queries are one oracle.
- `Claims` and `TokenType` are imported from a module that does not define them. The model defines them with the fields and variants that auth.rs uses.
- AuthCore.CreateJwt and AuthRoutes.Login: the two `Utc::now()` readings of a login are one `now` parameter, so both tokens are issued at the same instant.
- AuthCore.Lookup: a pool failure and a query failure are both one `dbError`, whose text is an opaque string after the "Database error: " prefix.
- AuthCore.Blacklist.Invalidate: the blacklist is a set, so a repeated invalidation of the same token is a no-op. The database's unique-key error on that insert is not modelled.
- AuthRoutes.RefreshAccess does not consult the blacklist, as in the source, so a logged-out refresh token still refreshes.
- Postgres.MigrationDb.RunMigrations: a failing `batch_execute` is a script that did not run at all. A partly executed batch is not modelled, and neither is the panic when no pool client is available.
- SearchIndex.SearchCluster.EnsureIndex: the create request's status is not checked, as in the source. The index settings and mappings are labels (`EmailsMapping`, `TicketsMapping`), not their JSON. A create the cluster accepts for an index it already holds leaves that index as it was; what a real cluster answers then is not modelled.
- SearchIndex: `ESClient::new` and the `Env` and `Url` error variants (client construction) are not modelled. Error texts made from a `StatusCode` are kept as the status number, not its formatted text.
- SearchIndex.Search: the query body is not interpreted. The cluster's answer is the `SearchResponse` parameter.
