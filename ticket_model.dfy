/** The ticket domain values of backend/src/models/ticket.rs: the two
    enumerations and their string codecs, the ticket record, its
    constructor, its validation, the row mapping and the in-place status
    update. */
module TicketModel {
  import opened Wrappers

  /** A UUID in its canonical text form. */
  type Uuid = string

  /** A point in time; the clock itself is a parameter wherever it is read. */
  type Timestamp = int

  /** Kinds of security incident. */
  datatype TicketType =
    | Malware
    | Phishing
    | Scam
    | Spam
    | DDoS
    | Botnet
    | DataBreach
    | IdentityTheft
    | Ransomware
    | CyberStalking
    | IntellectualPropertyTheft
    | Harassment
    | UnauthorizedAccess
    | CopyrightViolation
    | BruteForce
    | C2
    | Other

  /** `ToString for TicketType`: every variant prints as its own name. */
  function TypeToString(t: TicketType): string {
    match t
    case Malware => "Malware"
    case Phishing => "Phishing"
    case Scam => "Scam"
    case Spam => "Spam"
    case DDoS => "DDoS"
    case Botnet => "Botnet"
    case DataBreach => "DataBreach"
    case IdentityTheft => "IdentityTheft"
    case Ransomware => "Ransomware"
    case CyberStalking => "CyberStalking"
    case IntellectualPropertyTheft => "IntellectualPropertyTheft"
    case Harassment => "Harassment"
    case UnauthorizedAccess => "UnauthorizedAccess"
    case CopyrightViolation => "CopyrightViolation"
    case BruteForce => "BruteForce"
    case C2 => "C2"
    case Other => "Other"
  }

  /** `From<String> for TicketType`: total, with `Other` as the catch-all.
      Whatever it returns other than `Other` prints back as the input. */
  function TypeFromString(s: string): (t: TicketType)
    ensures t == Other || TypeToString(t) == s
  {
    if s == "Malware" then Malware
    else if s == "Phishing" then Phishing
    else if s == "Scam" then Scam
    else if s == "Spam" then Spam
    else if s == "DDoS" then DDoS
    else if s == "Botnet" then Botnet
    else if s == "DataBreach" then DataBreach
    else if s == "IdentityTheft" then IdentityTheft
    else if s == "Ransomware" then Ransomware
    else if s == "CyberStalking" then CyberStalking
    else if s == "IntellectualPropertyTheft" then IntellectualPropertyTheft
    else if s == "Harassment" then Harassment
    else if s == "UnauthorizedAccess" then UnauthorizedAccess
    else if s == "CopyrightViolation" then CopyrightViolation
    else if s == "BruteForce" then BruteForce
    else if s == "C2" then C2
    else Other
  }

  /** Parsing a printed type gives the type back. */
  lemma TypeRoundTrip(t: TicketType)
    ensures TypeFromString(TypeToString(t)) == t
  {
    match t
    case Malware =>
    case Phishing =>
    case Scam =>
    case Spam =>
    case DDoS =>
    case Botnet =>
    case DataBreach =>
    case IdentityTheft =>
    case Ransomware =>
    case CyberStalking =>
    case IntellectualPropertyTheft =>
    case Harassment =>
    case UnauthorizedAccess =>
    case CopyrightViolation =>
    case BruteForce =>
    case C2 =>
    case Other =>
  }

  /** Printing is injective over the seventeen variants. */
  lemma TypeToStringInjective(a: TicketType, b: TicketType)
    ensures TypeToString(a) == TypeToString(b) ==> a == b
  {
    TypeRoundTrip(a);
    TypeRoundTrip(b);
  }

  /** The parser falls back to `Other` exactly on the strings that are not the
      name of one of the sixteen other variants. */
  lemma TypeFromStringFallback(s: string)
    ensures TypeFromString(s) == Other <==>
            forall t: TicketType :: t != Other ==> TypeToString(t) != s
  {
    if TypeFromString(s) == Other {
      forall t: TicketType | t != Other
        ensures TypeToString(t) != s
      {
        TypeRoundTrip(t);
      }
    }
  }

  /** Lifecycle status of a ticket. */
  datatype TicketStatus = Open | InProgress | Closed | Resolved

  /** `ToString for TicketStatus`. */
  function StatusToString(s: TicketStatus): string {
    match s
    case Open => "Open"
    case InProgress => "InProgress"
    case Closed => "Closed"
    case Resolved => "Resolved"
  }

  /** `From<String> for TicketStatus`: total, with `Open` as the catch-all,
      so the string "Open" itself parses through the fallback. */
  function StatusFromString(s: string): (r: TicketStatus)
    ensures r == Open || StatusToString(r) == s
  {
    if s == "InProgress" then InProgress
    else if s == "Closed" then Closed
    else if s == "Resolved" then Resolved
    else Open
  }

  /** `Default for TicketStatus`. */
  function DefaultStatus(): (s: TicketStatus)
    ensures StatusToString(s) == "Open"
  {
    Open
  }

  /** Parsing a printed status gives the status back. */
  lemma StatusRoundTrip(s: TicketStatus)
    ensures StatusFromString(StatusToString(s)) == s
  {
    match s
    case Open =>
    case InProgress =>
    case Closed =>
    case Resolved =>
  }

  /** Every string other than the three non-default names, case variants
      such as "closed" included, reads as `Open`. */
  lemma StatusFromStringFallback(s: string)
    requires s != "InProgress" && s != "Closed" && s != "Resolved"
    ensures StatusFromString(s) == Open
  {
  }

  /** The ticket record (the `Ticket` struct as a value). */
  datatype TicketData = TicketData(
    id: Uuid,
    ticketType: TicketType,
    status: TicketStatus,
    ipAddress: Option<string>,
    emailId: string,
    subject: string,
    description: string,
    confidenceScore: Option<real>,
    identifiedThreats: Option<seq<string>>,
    extractedIndicators: Option<seq<string>>,
    analysisSummary: Option<string>,
    createdAt: Timestamp,
    updatedAt: Timestamp)

  /** `TicketError`. */
  datatype TicketError =
    | Database(message: string)
    | Pool(message: string)
    | Validation(message: string)

  /** The `Display` text of a `TicketError` (its `#[error]` formats). */
  function ErrorText(e: TicketError): string {
    match e
    case Database(m) => "Database error: " + m
    case Pool(m) => "Pool error: " + m
    case Validation(m) => "Validation error: " + m
  }

  /** The two readings of `Utc::now()` that `Ticket::new` takes, in order:
      one for `created_at`, one for `updated_at`.  Nothing relates them. */
  datatype ClockReadings = ClockReadings(created: Timestamp, updated: Timestamp)

  /** `Ticket::new`: a fresh ticket in the default status whose other fields
      are the arguments unchanged.  The random UUID and the two clock
      readings are parameters. */
  function NewTicket(
    ticketType: TicketType,
    emailId: string,
    subject: string,
    description: string,
    ipAddress: Option<string>,
    confidenceScore: Option<real>,
    identifiedThreats: Option<seq<string>>,
    extractedIndicators: Option<seq<string>>,
    analysisSummary: Option<string>,
    id: Uuid,
    now: ClockReadings): (t: TicketData)
    ensures t.status == DefaultStatus()
    ensures t.id == id && t.ticketType == ticketType && t.emailId == emailId
    ensures t.subject == subject && t.description == description && t.ipAddress == ipAddress
    ensures t.confidenceScore == confidenceScore && t.identifiedThreats == identifiedThreats
    ensures t.extractedIndicators == extractedIndicators && t.analysisSummary == analysisSummary
    ensures t.createdAt == now.created && t.updatedAt == now.updated
  {
    TicketData(id, ticketType, Open, ipAddress, emailId, subject, description,
               confidenceScore, identifiedThreats, extractedIndicators, analysisSummary,
               now.created, now.updated)
  }

  const SUBJECT_EMPTY := "Subject cannot be empty"
  const DESCRIPTION_EMPTY := "Description cannot be empty"
  const EMAIL_ID_EMPTY := "Email ID cannot be empty"

  /** `Ticket::validate`: succeeds exactly when subject, description and
      email id are all non-empty; every failure is a validation error. */
  function Validate(t: TicketData): (r: Result<(), TicketError>)
    ensures r.Ok? <==> t.subject != "" && t.description != "" && t.emailId != ""
    ensures r.Err? ==> r.error.Validation?
  {
    if t.subject == "" then Err(Validation(SUBJECT_EMPTY))
    else if t.description == "" then Err(Validation(DESCRIPTION_EMPTY))
    else if t.emailId == "" then Err(Validation(EMAIL_ID_EMPTY))
    else Ok(())
  }

  /** The checks run in the order subject, description, email id, and the
      message returned is that of the first one that fails. */
  lemma ValidateReportsFirstFailure(t: TicketData)
    ensures t.subject == "" ==> Validate(t) == Err(Validation(SUBJECT_EMPTY))
    ensures t.subject != "" && t.description == "" ==>
              Validate(t) == Err(Validation(DESCRIPTION_EMPTY))
    ensures t.subject != "" && t.description != "" && t.emailId == "" ==>
              Validate(t) == Err(Validation(EMAIL_ID_EMPTY))
  {
  }

  /** A row of the `tickets` table: the enumerations are stored as text. */
  datatype TicketRow = TicketRow(
    id: Uuid,
    ticketType: string,
    status: string,
    ipAddress: Option<string>,
    emailId: string,
    subject: string,
    description: string,
    confidenceScore: Option<real>,
    identifiedThreats: Option<seq<string>>,
    extractedIndicators: Option<seq<string>>,
    analysisSummary: Option<string>,
    createdAt: Timestamp,
    updatedAt: Timestamp)

  /** The row `save` writes: the enumerations go through their printers. */
  function SaveRow(t: TicketData): (row: TicketRow)
    ensures row.ticketType == TypeToString(t.ticketType) && row.status == StatusToString(t.status)
  {
    TicketRow(t.id, TypeToString(t.ticketType), StatusToString(t.status), t.ipAddress,
              t.emailId, t.subject, t.description, t.confidenceScore, t.identifiedThreats,
              t.extractedIndicators, t.analysisSummary, t.createdAt, t.updatedAt)
  }

  /** `From<Row> for Ticket`: the stored texts go through the total parsers. */
  function FromRow(row: TicketRow): (t: TicketData)
    ensures t.ticketType == Other || TypeToString(t.ticketType) == row.ticketType
    ensures t.status == Open || StatusToString(t.status) == row.status
  {
    TicketData(row.id, TypeFromString(row.ticketType), StatusFromString(row.status),
               row.ipAddress, row.emailId, row.subject, row.description, row.confidenceScore,
               row.identifiedThreats, row.extractedIndicators, row.analysisSummary,
               row.createdAt, row.updatedAt)
  }

  /** A saved ticket reads back unchanged. */
  lemma SaveThenReadRoundTrip(t: TicketData)
    ensures FromRow(SaveRow(t)) == t
  {
    TypeRoundTrip(t.ticketType);
    StatusRoundTrip(t.status);
  }

  /** An unrecognised stored status reads back as `Open`. */
  lemma UnknownStoredStatusReadsOpen(row: TicketRow)
    requires row.status != "InProgress" && row.status != "Closed" && row.status != "Resolved"
    ensures FromRow(row).status == Open
  {
    StatusFromStringFallback(row.status);
  }

  /** The record after a status change: the new status and the time the
      store returned, every other field as it was. */
  function WithStatus(t: TicketData, newStatus: TicketStatus, at: Timestamp): (u: TicketData)
    ensures u.status == newStatus && u.updatedAt == at
    ensures u.(status := t.status, updatedAt := t.updatedAt) == t
  {
    t.(status := newStatus, updatedAt := at)
  }

  /** A ticket held in memory, whose status update assigns its fields. */
  class Ticket {
    var id: Uuid
    var ticketType: TicketType
    var status: TicketStatus
    var ipAddress: Option<string>
    var emailId: string
    var subject: string
    var description: string
    var confidenceScore: Option<real>
    var identifiedThreats: Option<seq<string>>
    var extractedIndicators: Option<seq<string>>
    var analysisSummary: Option<string>
    var createdAt: Timestamp
    var updatedAt: Timestamp

    /** The record the fields currently hold. */
    function Snapshot(): TicketData
      reads this
    {
      TicketData(id, ticketType, status, ipAddress, emailId, subject, description,
                 confidenceScore, identifiedThreats, extractedIndicators, analysisSummary,
                 createdAt, updatedAt)
    }

    /** A ticket object holding the record `d`. */
    constructor FromData(d: TicketData)
      ensures Snapshot() == d
    {
      id := d.id;
      ticketType := d.ticketType;
      status := d.status;
      ipAddress := d.ipAddress;
      emailId := d.emailId;
      subject := d.subject;
      description := d.description;
      confidenceScore := d.confidenceScore;
      identifiedThreats := d.identifiedThreats;
      extractedIndicators := d.extractedIndicators;
      analysisSummary := d.analysisSummary;
      createdAt := d.createdAt;
      updatedAt := d.updatedAt;
    }

    /** `update_status`: `store` is the outcome of the `UPDATE ... RETURNING
        updated_at` (a pool or query failure, or the new timestamp).  On
        success the status and the timestamp change and nothing else; on
        failure the object is untouched, because the assignments follow the
        fallible call. */
    method UpdateStatus(newStatus: TicketStatus, store: Result<Timestamp, TicketError>)
      returns (r: Result<(), TicketError>)
      modifies this
      ensures store.Ok? ==>
                r == Ok(()) &&
                Snapshot() == WithStatus(old(Snapshot()), newStatus, store.value)
      ensures store.Err? ==> r == Err(store.error) && Snapshot() == old(Snapshot())
    {
      if store.Err? {
        return Err(store.error);
      }
      status := newStatus;
      updatedAt := store.value;
      r := Ok(());
    }
  }
}
