/** The Elasticsearch adapter of backend/src/models/es.rs.  The cluster is
    a map from index name to an index (its mapping, as a label, and its
    documents); the HTTP status each request gets back is an input. */
module SearchIndex {
  import opened Wrappers

  /** A JSON value, as `serde_json::Value` holds it. */
  datatype JsonValue =
    | JNull
    | JBool(b: bool)
    | JInt(n: int)
    | JFloat(f: real)
    | JString(s: string)
    | JArray(items: seq<JsonValue>)
    | JObject(fields: map<string, JsonValue>)

  /** `value[key]`: the field of an object, `Null` for a missing field or a
      value that is not an object. */
  function Field(v: JsonValue, key: string): JsonValue {
    if v.JObject? && key in v.fields then v.fields[key] else JNull
  }

  const U64_MODULUS: nat := 0x1_0000_0000_0000_0000

  /** `Value::as_u64`: an integer in `u64` range, nothing otherwise. */
  function AsU64(v: JsonValue): (r: Option<nat>)
    ensures r.Some? <==> v.JInt? && 0 <= v.n < U64_MODULUS
    ensures r.Some? ==> r.value == v.n
  {
    if v.JInt? && 0 <= v.n < U64_MODULUS then Some(v.n) else None
  }

  /** `Value::as_array`. */
  function AsArray(v: JsonValue): Option<seq<JsonValue>> {
    if v.JArray? then Some(v.items) else None
  }

  /** The outcome of sending a request: the status code, or a transport
      failure (`elasticsearch::Error`). */
  datatype Transport = Sent(status: nat) | SendFailed(message: string)

  /** `StatusCode::is_success`: a 2xx status. */
  predicate IsSuccess(status: nat) {
    200 <= status < 300
  }

  /** `ESError` without the `Env` and `Url` variants of client
      construction.  A failed send or an unreadable body is `Elastic` (the
      `#[from] elasticsearch::Error` conversion); `Json` is declared by the
      source but none of the modelled operations raises it.  An
      `InvalidInput` carries its message and, where the message includes
      one, the status code. */
  datatype ESError =
    | Elastic(message: string)
    | Json(message: string)
    | NotFound
    | InvalidInput(message: string, status: Option<nat>)

  /** The mapping an index was created with: the two bodies of
      `ensure_index`, or the dynamic mapping of an index that indexing a
      document created. */
  datatype Mapping = EmailsMapping | TicketsMapping | DynamicMapping

  datatype Index = Index(mapping: Mapping, docs: map<string, JsonValue>)

  type Indices = map<string, Index>

  datatype EsOutcome = EsOutcome(result: Result<(), ESError>, indices: Indices)

  /** The document stored at (index, id), if any. */
  function Get(indices: Indices, index: string, id: string): Option<JsonValue> {
    if index in indices && id in indices[index].docs then Some(indices[index].docs[id]) else None
  }

  /** Store `doc` at (index, id); an absent index is created with the
      dynamic mapping. */
  function Put(indices: Indices, index: string, id: string, doc: JsonValue): (r: Indices)
    ensures Get(r, index, id) == Some(doc)
    ensures forall i :: i in indices ==> i in r
    ensures forall i, d :: i != index || d != id ==> Get(r, i, d) == Get(indices, i, d)
  {
    if index in indices then indices[index := indices[index].(docs := indices[index].docs[id := doc])]
    else indices[index := Index(DynamicMapping, map[id := doc])]
  }

  /** `index_document`. */
  function IndexDocumentSpec(indices: Indices, index: string, id: string, doc: JsonValue,
                             response: Transport): EsOutcome
  {
    match response
    case SendFailed(m) => EsOutcome(Err(Elastic(m)), indices)
    case Sent(status) =>
      if !IsSuccess(status) then
        EsOutcome(Err(InvalidInput("Failed to index document", Some(status))), indices)
      else EsOutcome(Ok(()), Put(indices, index, id, doc))
  }

  /** `update_document` with `doc_as_upsert`: an existing document is merged
      with the partial one (`merge`, the cluster's merge), an absent one is
      created from it. */
  function UpdateDocumentSpec(indices: Indices, index: string, id: string, doc: JsonValue,
                              merge: (JsonValue, JsonValue) -> JsonValue,
                              response: Transport): EsOutcome
  {
    match response
    case SendFailed(m) => EsOutcome(Err(Elastic(m)), indices)
    case Sent(status) =>
      if !IsSuccess(status) then
        EsOutcome(Err(InvalidInput("Failed to update document", Some(status))), indices)
      else
        var stored := Get(indices, index, id);
        var updated := if stored.Some? then merge(stored.value, doc) else doc;
        EsOutcome(Ok(()), Put(indices, index, id, updated))
  }

  /** Remove the document at (index, id), if there is one. */
  function Remove(indices: Indices, index: string, id: string): (r: Indices)
    ensures Get(r, index, id) == None
    ensures forall i, d :: i != index || d != id ==> Get(r, i, d) == Get(indices, i, d)
  {
    if index in indices then indices[index := indices[index].(docs := indices[index].docs - {id})]
    else indices
  }

  /** `delete_document`: a 2xx or a 404 is success. */
  function DeleteDocumentSpec(indices: Indices, index: string, id: string, response: Transport)
    : EsOutcome
  {
    match response
    case SendFailed(m) => EsOutcome(Err(Elastic(m)), indices)
    case Sent(status) =>
      if IsSuccess(status) then EsOutcome(Ok(()), Remove(indices, index, id))
      else if status == 404 then EsOutcome(Ok(()), indices)
      else EsOutcome(Err(InvalidInput("Failed to delete document", Some(status))), indices)
  }

  /** `delete_index`: a 2xx or a 404 is success. */
  function DeleteIndexSpec(indices: Indices, index: string, response: Transport): EsOutcome {
    match response
    case SendFailed(m) => EsOutcome(Err(Elastic(m)), indices)
    case Sent(status) =>
      if IsSuccess(status) then EsOutcome(Ok(()), indices - {index})
      else if status == 404 then EsOutcome(Ok(()), indices)
      else EsOutcome(Err(InvalidInput("Failed to delete index", Some(status))), indices)
  }

  /** The mapping `ensure_index` creates an index with: only "emails" and
      "tickets" have one. */
  function MappingFor(index: string): (m: Option<Mapping>)
    ensures m.Some? <==> index == "emails" || index == "tickets"
  {
    if index == "emails" then Some(EmailsMapping)
    else if index == "tickets" then Some(TicketsMapping)
    else None
  }

  /** The existence probe's verdict: the index counts as present exactly
      when the probe was answered with a 2xx status. */
  predicate ProbeSaysPresent(probe: Transport) {
    probe.Sent? && IsSuccess(probe.status)
  }

  /** A probe answered as a cluster answers it: 200 for an index it holds,
      404 for one it does not. */
  function TruthfulProbe(indices: Indices, index: string): (probe: Transport)
    ensures ProbeSaysPresent(probe) <==> index in indices
  {
    Sent(if index in indices then 200 else 404)
  }

  /** `ensure_index`: `probe` is the outcome of the existence check, whose
      2xx status alone makes the index count as present; otherwise the
      index is created with its mapping, and the status of the create
      request is not looked at.  A create the cluster accepts adds the
      index when it was absent and leaves an existing one as it was. */
  function EnsureIndexSpec(indices: Indices, index: string, probe: Transport,
                           create: Transport): EsOutcome
  {
    match probe
    case SendFailed(m) => EsOutcome(Err(Elastic(m)), indices)
    case Sent(_) =>
      if ProbeSaysPresent(probe) then EsOutcome(Ok(()), indices)
      else
        match MappingFor(index)
        case None => EsOutcome(Err(InvalidInput("Invalid index name", None)), indices)
        case Some(mapping) =>
          match create
          case SendFailed(m) => EsOutcome(Err(Elastic(m)), indices)
          case Sent(status) =>
            if IsSuccess(status) && index !in indices
            then EsOutcome(Ok(()), indices[index := Index(mapping, map[])])
            else EsOutcome(Ok(()), indices)
  }

  /** The search cluster the adapter talks to. */
  class SearchCluster {
    var indices: Indices

    constructor (indices: Indices)
      ensures this.indices == indices
    {
      this.indices := indices;
    }

    /** `index_document`. */
    method IndexDocument(index: string, id: string, doc: JsonValue, response: Transport)
      returns (r: Result<(), ESError>)
      modifies this
      ensures EsOutcome(r, indices) == IndexDocumentSpec(old(indices), index, id, doc, response)
    {
      if response.SendFailed? {
        return Err(Elastic(response.message));
      }
      if !IsSuccess(response.status) {
        return Err(InvalidInput("Failed to index document", Some(response.status)));
      }
      indices := Put(indices, index, id, doc);
      r := Ok(());
    }

    /** `update_document`. */
    method UpdateDocument(index: string, id: string, doc: JsonValue,
                          merge: (JsonValue, JsonValue) -> JsonValue, response: Transport)
      returns (r: Result<(), ESError>)
      modifies this
      ensures EsOutcome(r, indices) == UpdateDocumentSpec(old(indices), index, id, doc, merge, response)
    {
      if response.SendFailed? {
        return Err(Elastic(response.message));
      }
      if !IsSuccess(response.status) {
        return Err(InvalidInput("Failed to update document", Some(response.status)));
      }
      var stored := Get(indices, index, id);
      var updated := doc;
      if stored.Some? {
        updated := merge(stored.value, doc);
      }
      indices := Put(indices, index, id, updated);
      r := Ok(());
    }

    /** `delete_document`. */
    method DeleteDocument(index: string, id: string, response: Transport)
      returns (r: Result<(), ESError>)
      modifies this
      ensures EsOutcome(r, indices) == DeleteDocumentSpec(old(indices), index, id, response)
    {
      if response.SendFailed? {
        return Err(Elastic(response.message));
      }
      var status := response.status;
      if !IsSuccess(status) && status != 404 {
        return Err(InvalidInput("Failed to delete document", Some(status)));
      }
      if IsSuccess(status) {
        indices := Remove(indices, index, id);
      }
      r := Ok(());
    }

    /** `delete_index`. */
    method DeleteIndex(index: string, response: Transport) returns (r: Result<(), ESError>)
      modifies this
      ensures EsOutcome(r, indices) == DeleteIndexSpec(old(indices), index, response)
    {
      if response.SendFailed? {
        return Err(Elastic(response.message));
      }
      var status := response.status;
      if !IsSuccess(status) && status != 404 {
        return Err(InvalidInput("Failed to delete index", Some(status)));
      }
      if IsSuccess(status) {
        indices := indices - {index};
      }
      r := Ok(());
    }

    /** `ensure_index`. */
    method EnsureIndex(index: string, probe: Transport, create: Transport)
      returns (r: Result<(), ESError>)
      modifies this
      ensures EsOutcome(r, indices) == EnsureIndexSpec(old(indices), index, probe, create)
    {
      if probe.SendFailed? {
        return Err(Elastic(probe.message));
      }
      var present := IsSuccess(probe.status);
      if !present {
        var mapping := MappingFor(index);
        if mapping.None? {
          return Err(InvalidInput("Invalid index name", None));
        }
        if create.SendFailed? {
          return Err(Elastic(create.message));
        }
        if IsSuccess(create.status) && index !in indices {
          indices := indices[index := Index(mapping.value, map[])];
        }
      }
      r := Ok(());
    }
  }

  /** After a successful `index_document` the document is at (index, id)
      and nothing else changed; a failure changes nothing. */
  lemma IndexThenGet(indices: Indices, index: string, id: string, doc: JsonValue, response: Transport)
    ensures var out := IndexDocumentSpec(indices, index, id, doc, response);
            && (out.result.Ok? ==> Get(out.indices, index, id) == Some(doc))
            && (forall i, d :: i != index || d != id ==> Get(out.indices, i, d) == Get(indices, i, d))
            && (out.result.Err? ==> out.indices == indices)
            && (out.result.Ok? <==> response.Sent? && IsSuccess(response.status))
  {
  }

  /** `update_document` is an upsert: on an absent id it stores the given
      document, on a present one the merge of the two. */
  lemma UpdateIsUpsert(indices: Indices, index: string, id: string, doc: JsonValue,
                       merge: (JsonValue, JsonValue) -> JsonValue, status: nat)
    requires IsSuccess(status)
    ensures var out := UpdateDocumentSpec(indices, index, id, doc, merge, Sent(status));
            && out.result.Ok?
            && (Get(indices, index, id).None? ==> Get(out.indices, index, id) == Some(doc))
            && (Get(indices, index, id).Some? ==>
                  Get(out.indices, index, id) == Some(merge(Get(indices, index, id).value, doc)))
  {
  }

  /** A non-success status fails the update with the status and changes
      nothing. */
  lemma UpdateFailureKeepsIndices(indices: Indices, index: string, id: string, doc: JsonValue,
                                  merge: (JsonValue, JsonValue) -> JsonValue, status: nat)
    requires !IsSuccess(status)
    ensures UpdateDocumentSpec(indices, index, id, doc, merge, Sent(status)) ==
            EsOutcome(Err(InvalidInput("Failed to update document", Some(status))), indices)
  {
  }

  /** Deleting a document: a 2xx removes it, 404 is a no-op success, and any
      other status is an error that changes nothing. */
  lemma DeleteDocumentOutcomes(indices: Indices, index: string, id: string, status: nat)
    ensures var out := DeleteDocumentSpec(indices, index, id, Sent(status));
            && (out.result.Ok? <==> IsSuccess(status) || status == 404)
            && (IsSuccess(status) ==> Get(out.indices, index, id) == None)
            && (status == 404 ==> out.indices == indices)
            && (out.result.Err? ==> out.result.error == InvalidInput("Failed to delete document", Some(status))
                                    && out.indices == indices)
  {
  }

  /** The status a cluster gives a delete: 200 for a present document, 404
      for an absent one.  With it, deleting is idempotent: the document is
      absent afterwards either way and a second delete is a no-op success. */
  lemma DeleteDocumentIdempotent(indices: Indices, index: string, id: string)
    ensures var first := DeleteDocumentSpec(indices, index, id,
                                            Sent(if Get(indices, index, id).Some? then 200 else 404));
            var second := DeleteDocumentSpec(first.indices, index, id, Sent(404));
            && first.result.Ok? && Get(first.indices, index, id) == None
            && second == EsOutcome(Ok(()), first.indices)
  {
  }

  /** Deleting an index: a 2xx removes it, 404 is a no-op success, any other
      status is an error that changes nothing. */
  lemma DeleteIndexOutcomes(indices: Indices, index: string, status: nat)
    ensures var out := DeleteIndexSpec(indices, index, Sent(status));
            && (out.result.Ok? <==> IsSuccess(status) || status == 404)
            && (IsSuccess(status) ==> index !in out.indices)
            && (forall i :: i != index && i in indices ==> i in out.indices && out.indices[i] == indices[i])
            && (!IsSuccess(status) ==> out.indices == indices)
  {
  }

  /** A probe answered 2xx means `ensure_index` succeeds and changes
      nothing, whatever the create request would do.  With probes that
      answer truthfully, a second call after a successful creation is a
      no-op. */
  lemma EnsureIndexIdempotent(indices: Indices, index: string, probe: Transport,
                              create1: Transport, create2: Transport)
    ensures ProbeSaysPresent(probe) ==>
              EnsureIndexSpec(indices, index, probe, create1) == EsOutcome(Ok(()), indices)
    ensures var first := EnsureIndexSpec(indices, index, TruthfulProbe(indices, index), create1);
            first.result.Ok? && index in first.indices ==>
              EnsureIndexSpec(first.indices, index, TruthfulProbe(first.indices, index), create2) == first
  {
  }

  /** With a truthful probe, an index the cluster holds is left alone and an
      absent one is created with its mapping when the cluster accepts. */
  lemma EnsureIndexTruthfulProbe(indices: Indices, index: string, create: Transport)
    ensures index in indices ==>
              EnsureIndexSpec(indices, index, TruthfulProbe(indices, index), create) ==
              EsOutcome(Ok(()), indices)
    ensures index !in indices && MappingFor(index).Some? && create.Sent? && IsSuccess(create.status) ==>
              EnsureIndexSpec(indices, index, TruthfulProbe(indices, index), create) ==
              EsOutcome(Ok(()), indices[index := Index(MappingFor(index).value, map[])])
  {
  }

  /** The probe's status, not the cluster's contents, decides: a non-2xx
      answer about an index the cluster holds is treated as absence, so an
      unknown name is refused and a known one goes on to a create request,
      whose transport failure is the result. */
  lemma EnsureIndexProbeStatusDecides(indices: Indices, index: string, status: nat, create: Transport)
    requires index in indices && !IsSuccess(status)
    ensures MappingFor(index).None? ==>
              EnsureIndexSpec(indices, index, Sent(status), create) ==
              EsOutcome(Err(InvalidInput("Invalid index name", None)), indices)
    ensures MappingFor(index).Some? && create.SendFailed? ==>
              EnsureIndexSpec(indices, index, Sent(status), create) ==
              EsOutcome(Err(Elastic(create.message)), indices)
    ensures MappingFor(index).Some? && create.Sent? ==>
              EnsureIndexSpec(indices, index, Sent(status), create) == EsOutcome(Ok(()), indices)
  {
  }

  /** Only "emails" and "tickets" can be created; after a probe that does
      not answer 2xx any other name is refused without a create request. */
  lemma EnsureIndexKnownNames(indices: Indices, index: string, status: nat, create: Transport)
    requires index !in indices && !IsSuccess(status)
    ensures var out := EnsureIndexSpec(indices, index, Sent(status), create);
            && (index != "emails" && index != "tickets" ==>
                  out == EsOutcome(Err(InvalidInput("Invalid index name", None)), indices))
            && (index == "emails" && create.Sent? && IsSuccess(create.status) ==>
                  out.result.Ok? && out.indices[index] == Index(EmailsMapping, map[]))
            && (index == "tickets" && create.Sent? && IsSuccess(create.status) ==>
                  out.result.Ok? && out.indices[index] == Index(TicketsMapping, map[]))
  {
  }

  /** The create request's status is not checked: a refused creation still
      reports success and the index stays absent. */
  lemma EnsureIndexIgnoresCreateStatus(indices: Indices, index: string, probeStatus: nat, status: nat)
    requires index !in indices && MappingFor(index).Some?
    requires !IsSuccess(probeStatus) && !IsSuccess(status)
    ensures EnsureIndexSpec(indices, index, Sent(probeStatus), Sent(status)) == EsOutcome(Ok(()), indices)
  {
  }

  /** `SearchResult`. */
  datatype SearchResult<T> = SearchResult(total: nat, hits: seq<T>)

  /** The `filter_map` over the raw hits: each hit's `_source` is decoded,
      and the ones that decode are kept, in order. */
  function DecodeSources<T>(hits: seq<JsonValue>, decode: JsonValue -> Option<T>): seq<T>
    decreases |hits|
  {
    if hits == [] then []
    else
      var rest := DecodeSources(hits[1..], decode);
      match decode(Field(hits[0], "_source"))
      case Some(t) => [t] + rest
      case None => rest
  }

  /** At most one result per raw hit. */
  lemma {:induction false} DecodeSourcesBound<T>(hits: seq<JsonValue>, decode: JsonValue -> Option<T>)
    ensures |DecodeSources(hits, decode)| <= |hits|
    decreases |hits|
  {
    if hits != [] {
      DecodeSourcesBound(hits[1..], decode);
    }
  }

  /** Decoding respects concatenation, so the kept sources are in hit
      order. */
  lemma {:induction false} DecodeSourcesAppend<T>(
    a: seq<JsonValue>, b: seq<JsonValue>, decode: JsonValue -> Option<T>)
    ensures DecodeSources(a + b, decode) == DecodeSources(a, decode) + DecodeSources(b, decode)
    decreases |a|
  {
    if a == [] {
      assert a + b == b;
    } else {
      assert (a + b)[0] == a[0];
      assert (a + b)[1..] == a[1..] + b;
      DecodeSourcesAppend(a[1..], b, decode);
    }
  }

  /** When every source decodes, every hit is kept. */
  lemma {:induction false} DecodeSourcesAllKept<T>(hits: seq<JsonValue>, decode: JsonValue -> Option<T>)
    requires forall i :: 0 <= i < |hits| ==> decode(Field(hits[i], "_source")).Some?
    ensures |DecodeSources(hits, decode)| == |hits|
    decreases |hits|
  {
    if hits != [] {
      assert decode(Field(hits[0], "_source")).Some?;
      forall i | 0 <= i < |hits| - 1 ensures decode(Field(hits[1..][i], "_source")).Some? {
        assert hits[1..][i] == hits[i + 1];
      }
      DecodeSourcesAllKept(hits[1..], decode);
    }
  }

  /** A response whose body is the JSON `body` (`body` is `None` when the
      body is not JSON). */
  datatype SearchResponse = SearchResponse(transport: Transport, body: Option<JsonValue>)

  /** `search`: 404 is `NotFound`; otherwise the body is read whatever the
      status, `total` defaulting to 0 and `hits` to no hits. */
  function Search<T>(response: SearchResponse, decode: JsonValue -> Option<T>)
    : (r: Result<SearchResult<T>, ESError>)
    ensures response.transport == Sent(404) ==> r == Err(NotFound)
    ensures r.Ok? <==> response.transport.Sent? && response.transport.status != 404 && response.body.Some?
    ensures response.transport.Sent? && response.transport.status != 404 && response.body.None? ==>
              r.Err? && r.error.Elastic?
    ensures response.transport.SendFailed? ==> r == Err(Elastic(response.transport.message))
    ensures r.Ok? ==> |r.value.hits| <= |AsArray(Field(Field(response.body.value, "hits"), "hits")).GetOr([])|
  {
    match response.transport
    case SendFailed(m) => Err(Elastic(m))
    case Sent(status) =>
      if status == 404 then Err(NotFound)
      else
        match response.body
        case None => Err(Elastic("response body is not JSON"))
        case Some(body) =>
          var hitsObject := Field(body, "hits");
          var total := AsU64(Field(Field(hitsObject, "total"), "value")).GetOr(0);
          var raw := AsArray(Field(hitsObject, "hits")).GetOr([]);
          DecodeSourcesBound(raw, decode);
          Ok(SearchResult(total, DecodeSources(raw, decode)))
  }

  /** A body without `hits` (an error body, say, sent with a status other
      than 404) reads as zero results rather than an error. */
  lemma SearchWithoutHitsIsEmpty<T>(status: nat, body: JsonValue, decode: JsonValue -> Option<T>)
    requires status != 404
    requires !(body.JObject? && "hits" in body.fields)
    ensures Search(SearchResponse(Sent(status), Some(body)), decode) == Ok(SearchResult(0, []))
  {
  }

  /** `total` is the integer at hits.total.value when there is one in
      `u64` range, 0 otherwise. */
  lemma SearchTotal<T>(status: nat, body: JsonValue, decode: JsonValue -> Option<T>)
    requires status != 404
    ensures var v := Field(Field(Field(body, "hits"), "total"), "value");
            var r := Search(SearchResponse(Sent(status), Some(body)), decode);
            && r.Ok?
            && (v.JInt? && 0 <= v.n < U64_MODULUS ==> r.value.total == v.n)
            && (!(v.JInt? && 0 <= v.n < U64_MODULUS) ==> r.value.total == 0)
  {
  }
}
