/** The structured threat assessment of backend/src/llm/threat_analysis.rs. */
module LlmThreatAnalysis {
  import opened TicketModel

  /** `ThreatAnalysis`: what the classifier says about one message. */
  datatype ThreatAnalysis = ThreatAnalysis(
    threatType: TicketType,
    confidenceScore: real,
    identifiedThreats: seq<string>,
    extractedIndicators: seq<string>,
    summary: string)

  /** The confidence range [0, 1]: the range the analyser's prompt asks the
      model for, and the one `CreateTicketRequest::validate` enforces on a
      ticket's score.  Parsing does not enforce it. */
  predicate WellFormed(a: ThreatAnalysis) {
    0.0 <= a.confidenceScore <= 1.0
  }

  /** `ThreatAnalysis::default_error`: the fallback assessment, of type
      `Other`, with confidence 0 (so within [0, 1]), no threats, no
      indicators, and the given message verbatim as its summary. */
  function DefaultError(message: string): (a: ThreatAnalysis)
    ensures WellFormed(a) && a.confidenceScore == 0.0
    ensures a.threatType == Other
    ensures a.identifiedThreats == [] && a.extractedIndicators == []
    ensures a.summary == message
  {
    ThreatAnalysis(Other, 0.0, [], [], message)
  }

  /** Distinct messages give distinct fallbacks: the summary is the message. */
  lemma DefaultErrorInjective(m1: string, m2: string)
    ensures DefaultError(m1) == DefaultError(m2) ==> m1 == m2
  {
  }
}

/** `parse_llm_response` of backend/src/llm/parser.rs.  JSON syntax is an
    abstract partial decoder into `JsonReply`; the typing of the
    `threat_type` field by the derived `Deserialize` of `TicketType` is
    modelled exactly. */
module LlmParser {
  import opened Wrappers
  import opened TicketModel
  import opened LlmThreatAnalysis

  /** `char::is_whitespace`: the Unicode White_Space property. */
  predicate IsWhitespace(c: char) {
    var n := c as int;
    (9 <= n <= 13) || n == 0x20 || n == 0x85 || n == 0xA0 || n == 0x1680 ||
    (0x2000 <= n <= 0x200A) || n == 0x2028 || n == 0x2029 || n == 0x202F ||
    n == 0x205F || n == 0x3000
  }

  /** No character of `s` is anything but whitespace. */
  predicate AllWhitespace(s: string) {
    forall i :: 0 <= i < |s| ==> IsWhitespace(s[i])
  }

  /** `str::trim_start`: drops leading whitespace; the result is a suffix of
      the input that is empty or starts with a non-whitespace character. */
  function TrimStart(s: string): (r: string)
    ensures |r| <= |s| && r == s[|s| - |r|..]
    ensures r == [] || !IsWhitespace(r[0])
  {
    if s != [] && IsWhitespace(s[0]) then TrimStart(s[1..]) else s
  }

  /** `str::trim_end`: drops trailing whitespace; the result is a prefix of
      the input that is empty or ends with a non-whitespace character. */
  function TrimEnd(s: string): (r: string)
    ensures |r| <= |s| && r == s[..|r|]
    ensures r == [] || !IsWhitespace(r[|r| - 1])
  {
    if s != [] && IsWhitespace(s[|s| - 1]) then TrimEnd(s[..|s| - 1]) else s
  }

  /** `str::trim`. */
  function Trim(s: string): string {
    TrimEnd(TrimStart(s))
  }

  /** A non-empty string is blank exactly when its head and its tail are. */
  lemma AllWhitespaceCons(s: string)
    requires s != []
    ensures AllWhitespace(s) <==> IsWhitespace(s[0]) && AllWhitespace(s[1..])
  {
    if IsWhitespace(s[0]) && AllWhitespace(s[1..]) {
      forall i | 0 <= i < |s| ensures IsWhitespace(s[i]) {
        if i > 0 { assert s[i] == s[1..][i - 1]; }
      }
    }
  }

  /** `trim_start` leaves nothing exactly when the text is blank. */
  lemma {:induction false} TrimStartEmptyIffBlank(s: string)
    ensures TrimStart(s) == [] <==> AllWhitespace(s)
  {
    if s != [] {
      AllWhitespaceCons(s);
      if IsWhitespace(s[0]) {
        TrimStartEmptyIffBlank(s[1..]);
      }
    }
  }

  /** A response is blank after trimming exactly when every character is
      whitespace. */
  lemma TrimEmptyIffBlank(s: string)
    ensures Trim(s) == [] <==> AllWhitespace(s)
  {
    TrimStartEmptyIffBlank(s);
    var t := TrimStart(s);
    if t != [] {
      assert TrimEnd(t) != [] by {
        var r := TrimEnd(t);
        if r == [] {
          TrimEndBlank(t);
        }
      }
    }
  }

  /** When trimming the end leaves nothing, the input was all whitespace. */
  lemma {:induction false} TrimEndBlank(s: string)
    requires TrimEnd(s) == []
    ensures AllWhitespace(s)
  {
    if s != [] {
      assert IsWhitespace(s[|s| - 1]);
      var p := s[..|s| - 1];
      TrimEndBlank(p);
      forall i | 0 <= i < |s| ensures IsWhitespace(s[i]) {
        if i < |s| - 1 { assert s[i] == p[i]; }
      }
    }
  }

  const NO_RESPONSE := "Analysis failed - no response from model"
  const PARSE_FAILED := "Failed to parse analysis response"

  /** A JSON object with the five fields of `ThreatAnalysis`, in the shape
      JSON syntax gives them, before `threat_type` is typed. */
  datatype JsonReply = JsonReply(
    threatType: string,
    confidenceScore: real,
    identifiedThreats: seq<string>,
    extractedIndicators: seq<string>,
    summary: string)

  /** The variant table of the derived `Deserialize` for `TicketType`. */
  const TYPE_VARIANTS: seq<TicketType> :=
    [Malware, Phishing, Scam, Spam, DDoS, Botnet, DataBreach, IdentityTheft, Ransomware,
     CyberStalking, IntellectualPropertyTheft, Harassment, UnauthorizedAccess,
     CopyrightViolation, BruteForce, C2, Other]

  lemma AllVariantsListed(t: TicketType)
    ensures t in TYPE_VARIANTS
  {
  }

  /** The first variant of `vs` whose name is `s`. */
  function VariantNamed(s: string, vs: seq<TicketType>): (r: Option<TicketType>)
    ensures r.Some? ==> r.value in vs && TypeToString(r.value) == s
    ensures r.None? ==> forall t :: t in vs ==> TypeToString(t) != s
  {
    if vs == [] then None
    else if TypeToString(vs[0]) == s then Some(vs[0])
    else VariantNamed(s, vs[1..])
  }

  /** The derived `Deserialize` for `TicketType`: strict, it accepts only
      the exact name of a variant. */
  function ThreatTypeFromJson(s: string): Option<TicketType> {
    VariantNamed(s, TYPE_VARIANTS)
  }

  /** The strict decoder accepts a string exactly when it is a variant's
      name, and then agrees with the fallback parser `From<String>`. */
  lemma ThreatTypeFromJsonSpec(s: string, t: TicketType)
    ensures ThreatTypeFromJson(s) == Some(t) <==> TypeToString(t) == s
    ensures ThreatTypeFromJson(s) == Some(t) ==> TypeFromString(s) == t
  {
    AllVariantsListed(t);
    TypeRoundTrip(t);
    if ThreatTypeFromJson(s).Some? {
      TypeToStringInjective(t, ThreatTypeFromJson(s).value);
    }
  }

  /** `serde_json::from_str::<ThreatAnalysis>`: the JSON syntax step is
      `json`; the `threat_type` field must then name a variant exactly. */
  function DecodeThreatAnalysis(json: string -> Option<JsonReply>, response: string)
    : Option<ThreatAnalysis>
  {
    match json(response)
    case None => None
    case Some(reply) =>
      match ThreatTypeFromJson(reply.threatType)
      case None => None
      case Some(t) =>
        Some(ThreatAnalysis(t, reply.confidenceScore, reply.identifiedThreats,
                            reply.extractedIndicators, reply.summary))
  }

  /** `parse_llm_response`: it never returns an error. */
  function ParseLlmResponse(response: string, json: string -> Option<JsonReply>)
    : (r: Result<ThreatAnalysis, string>)
    ensures r.Ok?
  {
    if Trim(response) == "" then Ok(DefaultError(NO_RESPONSE))
    else
      match DecodeThreatAnalysis(json, response)
      case None => Ok(DefaultError(PARSE_FAILED))
      case Some(analysis) => Ok(analysis)
  }

  /** A blank response gives the "no response" fallback whatever the
      decoder would say: the decoder is not consulted. */
  lemma BlankResponseGivesNoResponseDefault(response: string, json: string -> Option<JsonReply>)
    requires AllWhitespace(response)
    ensures ParseLlmResponse(response, json) == Ok(DefaultError(NO_RESPONSE))
  {
    TrimEmptyIffBlank(response);
  }

  /** A non-blank response the JSON step rejects gives the "parse failed"
      fallback. */
  lemma UndecodableGivesParseFailed(response: string, json: string -> Option<JsonReply>)
    requires !AllWhitespace(response) && json(response).None?
    ensures ParseLlmResponse(response, json) == Ok(DefaultError(PARSE_FAILED))
  {
    TrimEmptyIffBlank(response);
  }

  /** A non-blank response that decodes is returned exactly as decoded. */
  lemma DecodedPassesThrough(response: string, json: string -> Option<JsonReply>, a: ThreatAnalysis)
    requires !AllWhitespace(response) && DecodeThreatAnalysis(json, response) == Some(a)
    ensures ParseLlmResponse(response, json) == Ok(a)
  {
    TrimEmptyIffBlank(response);
  }

  /** A reply whose `threat_type` is not the exact name of a variant (say
      "MALWARE") fails to decode, so it gives the "parse failed" fallback
      rather than the `Other` that `From<String>` would give. */
  lemma UnknownThreatTypeGivesParseFailed(
    response: string, json: string -> Option<JsonReply>, reply: JsonReply)
    requires !AllWhitespace(response) && json(response) == Some(reply)
    requires forall t: TicketType :: TypeToString(t) != reply.threatType
    ensures ParseLlmResponse(response, json) == Ok(DefaultError(PARSE_FAILED))
  {
    TrimEmptyIffBlank(response);
    if ThreatTypeFromJson(reply.threatType).Some? {
      ThreatTypeFromJsonSpec(reply.threatType, ThreatTypeFromJson(reply.threatType).value);
    }
  }

  /** The [0, 1] confidence bound holds on both fallback paths. */
  lemma FallbacksAreWellFormed(response: string, json: string -> Option<JsonReply>)
    requires AllWhitespace(response) || DecodeThreatAnalysis(json, response).None?
    ensures WellFormed(ParseLlmResponse(response, json).value)
  {
  }

  /** The decoded path does no clamping: whatever confidence a well-formed
      reply carries is the confidence of the result, so the result is
      outside [0, 1] exactly when the reply's score is. */
  lemma DecodedScoreNotClamped(
    response: string, json: string -> Option<JsonReply>, reply: JsonReply, t: TicketType)
    requires !AllWhitespace(response) && json(response) == Some(reply)
    requires TypeToString(t) == reply.threatType
    ensures ParseLlmResponse(response, json).value.confidenceScore == reply.confidenceScore
    ensures WellFormed(ParseLlmResponse(response, json).value) <==>
              0.0 <= reply.confidenceScore <= 1.0
  {
    TrimEmptyIffBlank(response);
    ThreatTypeFromJsonSpec(reply.threatType, t);
  }
}
