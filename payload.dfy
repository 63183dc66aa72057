/** The request side of pplx_sdk/transport/sse.py: the JSON payload and
    the headers of one streamed query. */
module StreamPayload {
  import opened Wrappers
  import opened Text
  import opened Json

  /** The arguments of `SSETransport.stream`. `extra` holds the keyword
      arguments beyond the named ones. */
  datatype StreamRequest = StreamRequest(
    query: string, contextUuid: string, frontendUuid: string,
    mode: string, modelPreference: string, sources: Option<seq<string>>,
    parentEntryUuid: Option<string>, cursor: Option<string>,
    resumeEntryUuids: Option<seq<string>>, extra: map<string, Json>)

  const DefaultMode := "concise"
  const DefaultModelPreference := "pplx-70b-chat"

  /** Python truthiness of an optional list. */
  predicate TruthyList<T>(l: Option<seq<T>>) {
    l.Some? && l.value != []
  }

  function StrList(xs: seq<string>): (j: Json)
    ensures j.JArr? && |j.items| == |xs|
    ensures forall k :: 0 <= k < |xs| ==> j.items[k] == JStr(xs[k])
  {
    JArr(seq(|xs|, k requires 0 <= k < |xs| => JStr(xs[k])))
  }

  /** `sources or ["web"]`. */
  function SourcesOrWeb(sources: Option<seq<string>>): seq<string> {
    if TruthyList(sources) then sources.value else ["web"]
  }

  const BaseKeys: set<string> :=
    {"query_str", "context_uuid", "frontend_uuid", "mode", "model_preference", "sources",
     "use_schematized_api", "language", "timezone", "is_incognito"}

  /** The optional keys a request contributes: each only when its value is truthy. */
  function OptionalKeys(req: StreamRequest): set<string> {
    (if Truthy(req.parentEntryUuid) then {"parent_entry_uuid"} else {})
    + (if Truthy(req.cursor) then {"cursor"} else {})
    + (if TruthyList(req.resumeEntryUuids) then {"resume_entry_uuids"} else {})
  }

  /** The ten fields every request carries. */
  function BasePayload(req: StreamRequest): map<string, Json> {
    map[
      "query_str" := JStr(req.query),
      "context_uuid" := JStr(req.contextUuid),
      "frontend_uuid" := JStr(req.frontendUuid),
      "mode" := JStr(req.mode),
      "model_preference" := JStr(req.modelPreference),
      "sources" := StrList(SourcesOrWeb(req.sources)),
      "use_schematized_api" := JBool(true),
      "language" := JStr("en-US"),
      "timezone" := JStr("UTC"),
      "is_incognito" := JBool(false)]
  }

  /** The parent entry, cursor and resume list, each only when truthy. */
  function OptionalPayload(req: StreamRequest): map<string, Json> {
    ParentField(req) + CursorField(req) + ResumeField(req)
  }

  function ParentField(req: StreamRequest): map<string, Json> {
    if Truthy(req.parentEntryUuid) then map["parent_entry_uuid" := JStr(req.parentEntryUuid.value)] else map[]
  }

  function CursorField(req: StreamRequest): map<string, Json> {
    if Truthy(req.cursor) then map["cursor" := JStr(req.cursor.value)] else map[]
  }

  function ResumeField(req: StreamRequest): map<string, Json> {
    if TruthyList(req.resumeEntryUuids) then map["resume_entry_uuids" := StrList(req.resumeEntryUuids.value)] else map[]
  }

  /** The JSON body of the request: the base fields, the optional ones,
      and `extra` merged last, over everything. */
  function Payload(req: StreamRequest): map<string, Json> {
    BasePayload(req) + OptionalPayload(req) + req.extra
  }

  /** The payload holds the ten base keys, the optional keys whose value
      is truthy and the extra keys, and no other; an extra key's value
      always wins. */
  lemma PayloadKeys(req: StreamRequest)
    ensures Payload(req).Keys == BaseKeys + OptionalKeys(req) + req.extra.Keys
  {
    BasePayloadKeys(req);
    OptionalPayloadKeys(req);
  }

  lemma BasePayloadKeys(req: StreamRequest)
    ensures BasePayload(req).Keys == BaseKeys
  {
  }

  lemma OptionalPayloadKeys(req: StreamRequest)
    ensures OptionalPayload(req).Keys == OptionalKeys(req)
  {
  }

  /** Where a key's value comes from: `extra` first, then the optional
      fields, then the base fields. */
  lemma Lookup(req: StreamRequest, k: string)
    ensures k in Payload(req) <==> k in req.extra || k in OptionalPayload(req) || k in BasePayload(req)
    ensures k in req.extra ==> Payload(req)[k] == req.extra[k]
    ensures k !in req.extra && k in OptionalPayload(req) ==> Payload(req)[k] == OptionalPayload(req)[k]
    ensures k !in req.extra && k !in OptionalPayload(req) && k in BasePayload(req) ==>
      Payload(req)[k] == BasePayload(req)[k]
  {
  }

  /** A base field that `extra` does not name keeps its base value. */
  lemma BaseKept(req: StreamRequest, k: string)
    requires k in BaseKeys && k !in req.extra
    ensures k in Payload(req) && Payload(req)[k] == BasePayload(req)[k]
  {
    BasePayloadKeys(req);
    OptionalPayloadKeys(req);
    NamesDisjoint();
    UnionLookup(BasePayload(req), OptionalPayload(req), req.extra, k);
  }

  /** The keys that only the optional fields use. */
  const OptionalNames: set<string> := {"parent_entry_uuid", "cursor", "resume_entry_uuids"}

  lemma NamesDisjoint()
    ensures BaseKeys !! OptionalNames
  {
  }

  lemma UnionLookup<K, V>(b: map<K, V>, o: map<K, V>, e: map<K, V>, k: K)
    requires k in b && k !in o && k !in e
    ensures k in b + o + e && (b + o + e)[k] == b[k]
  {
  }

  /** `sources` defaults to `["web"]` when it is missing or empty. */
  lemma PayloadSources(req: StreamRequest)
    requires "sources" !in req.extra
    ensures TruthyList(req.sources) ==> Payload(req)["sources"] == StrList(req.sources.value)
    ensures !TruthyList(req.sources) ==> Payload(req)["sources"] == JArr([JStr("web")])
  {
    BaseKept(req, "sources");
    assert BasePayload(req)["sources"] == StrList(SourcesOrWeb(req.sources));
  }

  /** The optional fields are present exactly when their argument is
      truthy, and then carry it. */
  lemma PayloadParent(req: StreamRequest)
    requires "parent_entry_uuid" !in req.extra
    ensures "parent_entry_uuid" in Payload(req) <==> Truthy(req.parentEntryUuid)
    ensures Truthy(req.parentEntryUuid) ==> Payload(req)["parent_entry_uuid"] == JStr(req.parentEntryUuid.value)
  {
    Lookup(req, "parent_entry_uuid");
    assert "parent_entry_uuid" !in BasePayload(req);
  }

  lemma PayloadCursor(req: StreamRequest)
    requires "cursor" !in req.extra
    ensures "cursor" in Payload(req) <==> Truthy(req.cursor)
    ensures Truthy(req.cursor) ==> Payload(req)["cursor"] == JStr(req.cursor.value)
  {
    Lookup(req, "cursor");
    assert "cursor" !in BasePayload(req);
  }

  lemma PayloadResume(req: StreamRequest)
    requires "resume_entry_uuids" !in req.extra
    ensures "resume_entry_uuids" in Payload(req) <==> TruthyList(req.resumeEntryUuids)
    ensures TruthyList(req.resumeEntryUuids) ==> Payload(req)["resume_entry_uuids"] == StrList(req.resumeEntryUuids.value)
  {
    Lookup(req, "resume_entry_uuids");
    assert "resume_entry_uuids" !in BasePayload(req);
  }

  /** Unless `extra` overrides them, the base fields carry the query, the
      identifiers and the model choice, and the web client's fixed values. */
  lemma PayloadArguments(req: StreamRequest)
    requires req.extra.Keys !! BaseKeys
    ensures var p := Payload(req);
      && p["query_str"] == JStr(req.query)
      && p["context_uuid"] == JStr(req.contextUuid)
      && p["frontend_uuid"] == JStr(req.frontendUuid)
      && p["mode"] == JStr(req.mode)
      && p["model_preference"] == JStr(req.modelPreference)
  {
    BaseKept(req, "query_str");
    BaseKept(req, "context_uuid");
    BaseKept(req, "frontend_uuid");
    BaseKept(req, "mode");
    BaseKept(req, "model_preference");
  }

  lemma PayloadConstants(req: StreamRequest)
    requires req.extra.Keys !! BaseKeys
    ensures var p := Payload(req);
      && p["use_schematized_api"] == JBool(true)
      && p["language"] == JStr("en-US")
      && p["timezone"] == JStr("UTC")
      && p["is_incognito"] == JBool(false)
  {
    BaseKept(req, "use_schematized_api");
    BaseKept(req, "language");
    BaseKept(req, "timezone");
    BaseKept(req, "is_incognito");
  }

  /** The payload as `stream` builds it: a dictionary of the base fields,
      then conditional insertions, then the update with `extra`. */
  method BuildPayload(req: StreamRequest) returns (payload: map<string, Json>)
    ensures payload == Payload(req)
  {
    payload := BasePayload(req);
    ghost var base := payload;
    if Truthy(req.parentEntryUuid) {
      UpdateIsUnion(payload, "parent_entry_uuid", JStr(req.parentEntryUuid.value));
      payload := payload["parent_entry_uuid" := JStr(req.parentEntryUuid.value)];
    } else {
      UnionEmpty(payload);
    }
    ghost var withParent := payload;
    if Truthy(req.cursor) {
      UpdateIsUnion(payload, "cursor", JStr(req.cursor.value));
      payload := payload["cursor" := JStr(req.cursor.value)];
    } else {
      UnionEmpty(payload);
    }
    ghost var withCursor := payload;
    if TruthyList(req.resumeEntryUuids) {
      UpdateIsUnion(payload, "resume_entry_uuids", StrList(req.resumeEntryUuids.value));
      payload := payload["resume_entry_uuids" := StrList(req.resumeEntryUuids.value)];
    } else {
      UnionEmpty(payload);
    }
    UnionAssoc(base, ParentField(req), CursorField(req));
    UnionAssoc(base, ParentField(req) + CursorField(req), ResumeField(req));
    payload := payload + req.extra;
  }

  lemma UpdateIsUnion<K, V>(m: map<K, V>, k: K, v: V)
    ensures m[k := v] == m + map[k := v]
  {
  }

  lemma UnionEmpty<K, V>(m: map<K, V>)
    ensures m == m + map[]
  {
  }

  lemma UnionAssoc<K, V>(a: map<K, V>, b: map<K, V>, c: map<K, V>)
    ensures a + b + c == a + (b + c)
  {
  }
}
