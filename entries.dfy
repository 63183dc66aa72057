/** pplx_sdk/domain/entries.py: asking a question and assembling the
    streamed answer into an `Entry`.

    The SSE transport is an oracle from the request it is given to the
    chunks it yields and the exception that ends it, if any; the
    identifier `uuid.uuid4()` would produce is a parameter. */
module Entries {
  import opened Wrappers
  import opened Text
  import opened Json
  import opened Exceptions
  import opened Models
  import opened StreamPayload
  import opened Sse

  /** `SSETransport.stream`, seen from the caller. */
  type Transport = StreamRequest -> Attempt

  /** The frontend id: the caller's when truthy, otherwise a newly generated one. */
  function FrontendUuid(frontendUuid: Option<string>, newUuid: string): (u: string)
    ensures Truthy(frontendUuid) ==> u == frontendUuid.value
    ensures !Truthy(frontendUuid) ==> u == newUuid
  {
    if Truthy(frontendUuid) then frontendUuid.value else newUuid
  }

  /** The transport's own parameters that `stream_ask` does not name, so
      that an entry of `**extra` with one of these names binds to it. */
  const TransportBound: set<string> := {"cursor", "resume_entry_uuids"}

  /** What of `**extra` reaches the payload: every entry, except that one
      naming `cursor` or `resume_entry_uuids` binds to that parameter of
      the transport, which puts it in the payload only when it is truthy.
      The model passes those two on inside `extra` with the falsy ones
      dropped, which builds the same payload. */
  function Forwarded(extra: map<string, Json>): (e: map<string, Json>)
    ensures forall k :: k in e <==> k in extra && (k in TransportBound ==> JsonTruthy(extra[k]))
    ensures forall k | k in e :: e[k] == extra[k]
  {
    map k | k in extra && (k in TransportBound ==> JsonTruthy(extra[k])) :: extra[k]
  }

  /** The arguments `stream_ask` passes on to the transport. */
  function AskRequest(query: string, contextUuid: string, mode: string, modelPreference: string,
                      sources: Option<seq<string>>, parentEntryUuid: Option<string>,
                      frontendUuid: string, extra: map<string, Json>): StreamRequest
  {
    StreamRequest(query, contextUuid, frontendUuid, mode, modelPreference, sources, parentEntryUuid, None, None,
                  Forwarded(extra))
  }

  /** An entry of `**extra` named `cursor` or `resume_entry_uuids` reaches
      the payload exactly when it is truthy, and then unchanged; any other
      entry that does not name a base field reaches it unchanged. */
  lemma AskPayloadExtra(query: string, contextUuid: string, mode: string, modelPreference: string,
                        sources: Option<seq<string>>, parentEntryUuid: Option<string>,
                        frontendUuid: string, extra: map<string, Json>, k: string)
    requires k in extra
    ensures var p := Payload(AskRequest(query, contextUuid, mode, modelPreference, sources, parentEntryUuid,
                                        frontendUuid, extra));
      && (k in TransportBound ==> (k in p <==> JsonTruthy(extra[k])))
      && (k in p && (k in TransportBound || k !in BaseKeys + OptionalNames) ==> p[k] == extra[k])
  {
    var req := AskRequest(query, contextUuid, mode, modelPreference, sources, parentEntryUuid, frontendUuid, extra);
    Lookup(req, k);
    BasePayloadKeys(req);
    OptionalPayloadKeys(req);
  }

  /** `EntriesService.stream_ask`: exactly the transport's chunks, for a
      request that carries the caller's arguments, the resolved frontend
      id, and no cursor or resume ids. */
  function StreamAsk(transport: Transport, query: string, contextUuid: string, mode: string, modelPreference: string,
                     sources: Option<seq<string>>, parentEntryUuid: Option<string>,
                     frontendUuid: Option<string>, extra: map<string, Json>, newUuid: string): (a: Attempt)
    ensures exists req :: (a == transport(req)
      && req.query == query && req.contextUuid == contextUuid && req.mode == mode
      && req.modelPreference == modelPreference && req.sources == sources
      && req.parentEntryUuid == parentEntryUuid && req.extra == Forwarded(extra)
      && req.frontendUuid == FrontendUuid(frontendUuid, newUuid)
      && req.cursor.None? && req.resumeEntryUuids.None?)
  {
    var req := AskRequest(query, contextUuid, mode, modelPreference, sources, parentEntryUuid,
                          FrontendUuid(frontendUuid, newUuid), extra);
    transport(req)
  }

  // ---------------------------------------------------------------------
  // The `entry_data` dictionary

  /** The dictionary `ask` fills in. `backendUuid` is `None` while the key
      is absent; `displayModel` and `cursor` hold `null` while absent,
      which the record reads the same way. */
  datatype EntryData = EntryData(
    frontendUuid: string, contextUuid: string, query: string,
    status: StreamStatus, textCompleted: bool, blocks: Json, sources: Json,
    backendUuid: Option<Json>, displayModel: Json, cursor: Json)

  /** The dictionary before any chunk arrives. */
  function Initial(frontendUuid: string, contextUuid: string, query: string): EntryData {
    EntryData(frontendUuid, contextUuid, query, Pending, false, JArr([]), JArr([]), None, JNull, JNull)
  }

  /** `data.get(key, default)`. */
  function Get(data: map<string, Json>, key: string, default: Json): (v: Json)
    ensures key in data ==> v == data[key]
    ensures key !in data ==> v == default
  {
    if key in data then data[key] else default
  }

  /** What one chunk does to the dictionary: a `final_response` completes
      it from its payload, keeping the previous blocks and sources unless
      the payload has them; an `error` marks it failed; any other chunk
      changes nothing. */
  function Absorb(d: EntryData, c: MessageChunk): EntryData {
    var completed :=
      if c.kind == "final_response" then
        var u := d.(backendUuid := Some(Get(c.data, "backend_uuid", JStr(""))), status := Completed,
                    textCompleted := true, displayModel := Get(c.data, "display_model", JNull),
                    cursor := Get(c.data, "cursor", JNull));
        var withBlocks := if "blocks" in c.data then u.(blocks := c.data["blocks"]) else u;
        if "sources" in c.data then withBlocks.(sources := c.data["sources"]) else withBlocks
      else d;
    if c.kind == "error" then completed.(status := Failed) else completed
  }

  /** The dictionary after the chunks, in order. */
  function Fold(d: EntryData, cs: seq<MessageChunk>): EntryData
    decreases |cs|
  {
    if cs == [] then d else Absorb(Fold(d, cs[..|cs| - 1]), cs[|cs| - 1])
  }

  const NoFinalResponse := "No final_response received from stream"

  /** Reading an `Optional[str]` record field. */
  function OptString(j: Json, key: string): (r: Result<Option<string>, string>)
    ensures r == Success(None) <==> j == JNull
    ensures r.Success? && r.value.Some? <==> j.JStr?
    ensures r.Failure? ==> r.error == key
  {
    match j
    case JNull => Success(None)
    case JStr(s) => Success(Some(s))
    case _ => Failure(key)
  }

  /** The final check and `Entry(**entry_data)`: without a backend id the
      stream had no `final_response`; otherwise the record validates its
      fields in declaration order. */
  function Build(d: EntryData): (r: Result<Entry, Fault>)
    ensures r == Failure(ValueError(NoFinalResponse)) <==> d.backendUuid.None?
    ensures r.Success? ==> (d.backendUuid == Some(JStr(r.value.backendUuid))
      && r.value.frontendUuid == d.frontendUuid && r.value.contextUuid == d.contextUuid
      && r.value.query == Some(d.query) && r.value.status == d.status
      && r.value.textCompleted == d.textCompleted && r.value.parentEntryUuid.None?
      && BlocksFromJson(d.blocks) == Some(r.value.blocks) && SourcesFromJson(d.sources) == Some(r.value.sources))
  {
    if d.backendUuid.None? then Failure(ValueError(NoFinalResponse))
    else if !d.backendUuid.value.JStr? then Failure(RecordValidationError("backend_uuid"))
    else match (BlocksFromJson(d.blocks), SourcesFromJson(d.sources), OptString(d.displayModel, "display_model"), OptString(d.cursor, "cursor"))
      case (None, _, _, _) => Failure(RecordValidationError("blocks"))
      case (_, None, _, _) => Failure(RecordValidationError("sources"))
      case (_, _, Failure(k), _) => Failure(RecordValidationError(k))
      case (_, _, _, Failure(k)) => Failure(RecordValidationError(k))
      case (Some(bs), Some(ss), Success(model), Success(cursor)) =>
        Success(Entry(d.backendUuid.value.s, d.frontendUuid, d.contextUuid, d.status, d.textCompleted,
                      bs, ss, Some(d.query), model, None, cursor))
  }

  /** What `ask` returns or raises: the transport's exception, if the
      stream ended with one, otherwise the assembled entry. */
  function AskResult(transport: Transport, query: string, contextUuid: string, mode: string, modelPreference: string,
                     sources: Option<seq<string>>, parentEntryUuid: Option<string>,
                     frontendUuid: Option<string>, extra: map<string, Json>, newUuid: string): Result<Entry, Fault>
  {
    var a := StreamAsk(transport, query, contextUuid, mode, modelPreference, sources, parentEntryUuid, frontendUuid, extra, newUuid);
    if a.fault.Some? then Failure(a.fault.value)
    else Build(Fold(Initial(FrontendUuid(frontendUuid, newUuid), contextUuid, query), a.chunks))
  }

  /** `EntriesService.ask`. */
  method Ask(transport: Transport, query: string, contextUuid: string, mode: string, modelPreference: string,
             sources: Option<seq<string>>, parentEntryUuid: Option<string>,
             frontendUuid: Option<string>, extra: map<string, Json>, newUuid: string)
    returns (r: Result<Entry, Fault>)
    ensures r == AskResult(transport, query, contextUuid, mode, modelPreference, sources, parentEntryUuid, frontendUuid, extra, newUuid)
  {
    var frontend := if Truthy(frontendUuid) then frontendUuid.value else newUuid;
    var entryData := Initial(frontend, contextUuid, query);
    var textChunks: seq<string> := [];
    var a := StreamAsk(transport, query, contextUuid, mode, modelPreference, sources, parentEntryUuid, Some(frontend), extra, newUuid);
    assert a == StreamAsk(transport, query, contextUuid, mode, modelPreference, sources, parentEntryUuid, frontendUuid, extra, newUuid);
    var chunks := a.chunks;
    for i := 0 to |chunks|
      invariant entryData == Fold(Initial(frontend, contextUuid, query), chunks[..i])
    {
      assert chunks[..i + 1][..i] == chunks[..i];
      var chunk := chunks[i];
      if Truthy(chunk.text) {
        textChunks := textChunks + [chunk.text.value];
      }
      if chunk.kind == "final_response" {
        entryData := entryData.(backendUuid := Some(Get(chunk.data, "backend_uuid", JStr(""))), status := Completed,
                                textCompleted := true, displayModel := Get(chunk.data, "display_model", JNull),
                                cursor := Get(chunk.data, "cursor", JNull));
        if "blocks" in chunk.data {
          entryData := entryData.(blocks := chunk.data["blocks"]);
        }
        if "sources" in chunk.data {
          entryData := entryData.(sources := chunk.data["sources"]);
        }
      }
      if chunk.kind == "error" {
        entryData := entryData.(status := Failed);
      }
    }
    assert chunks[..|chunks|] == chunks;
    if a.fault.Some? {
      return Failure(a.fault.value);
    }
    r := Build(entryData);
  }

  // ---------------------------------------------------------------------
  // What the fold keeps

  /** The verdict of the latest `final_response` or `error` chunk. */
  function LastVerdict(cs: seq<MessageChunk>): Option<StreamStatus>
    decreases |cs|
  {
    if cs == [] then None
    else if cs[|cs| - 1].kind == "final_response" then Some(Completed)
    else if cs[|cs| - 1].kind == "error" then Some(Failed)
    else LastVerdict(cs[..|cs| - 1])
  }

  /** The payload of the latest `final_response` chunk. */
  function LastFinal(cs: seq<MessageChunk>): Option<map<string, Json>>
    decreases |cs|
  {
    if cs == [] then None
    else if cs[|cs| - 1].kind == "final_response" then Some(cs[|cs| - 1].data)
    else LastFinal(cs[..|cs| - 1])
  }

  /** The value under `key` in the latest `final_response` payload that
      has that key. */
  function LastWithKey(cs: seq<MessageChunk>, key: string): Option<Json>
    decreases |cs|
  {
    if cs == [] then None
    else if cs[|cs| - 1].kind == "final_response" && key in cs[|cs| - 1].data then Some(cs[|cs| - 1].data[key])
    else LastWithKey(cs[..|cs| - 1], key)
  }

  /** After any chunk sequence: the identifying fields are untouched; the
      status is the verdict of the last `final_response` or `error`; the
      backend id, model and cursor come from the last `final_response`;
      `text_completed` stays true once set, even after an error; and the
      blocks and sources come from the last `final_response` that carries
      them. */
  lemma {:induction false} FoldSummary(d: EntryData, cs: seq<MessageChunk>)
    ensures var f := Fold(d, cs);
      f.frontendUuid == d.frontendUuid && f.contextUuid == d.contextUuid && f.query == d.query
      && f.status == LastVerdict(cs).GetOr(d.status)
      && f.textCompleted == (d.textCompleted || LastFinal(cs).Some?)
      && f.backendUuid == (if LastFinal(cs).Some? then Some(Get(LastFinal(cs).value, "backend_uuid", JStr(""))) else d.backendUuid)
      && f.displayModel == (if LastFinal(cs).Some? then Get(LastFinal(cs).value, "display_model", JNull) else d.displayModel)
      && f.cursor == (if LastFinal(cs).Some? then Get(LastFinal(cs).value, "cursor", JNull) else d.cursor)
      && f.blocks == LastWithKey(cs, "blocks").GetOr(d.blocks)
      && f.sources == LastWithKey(cs, "sources").GetOr(d.sources)
    decreases |cs|
  {
    if cs != [] {
      FoldSummary(d, cs[..|cs| - 1]);
    }
  }

  /** A chunk of any other type leaves the dictionary as it was. */
  lemma OtherChunksInert(d: EntryData, c: MessageChunk)
    requires c.kind != "final_response" && c.kind != "error"
    ensures Absorb(d, c) == d
  {
  }

  /** There is a latest `final_response` exactly when some chunk is one. */
  lemma {:induction false} LastFinalExists(cs: seq<MessageChunk>)
    ensures LastFinal(cs).Some? <==> exists k | 0 <= k < |cs| :: cs[k].kind == "final_response"
    decreases |cs|
  {
    if cs != [] {
      var init := cs[..|cs| - 1];
      LastFinalExists(init);
      if exists k | 0 <= k < |init| :: init[k].kind == "final_response" {
        var k :| 0 <= k < |init| && init[k].kind == "final_response";
        assert cs[k] == init[k];
      }
      if exists k | 0 <= k < |cs| :: cs[k].kind == "final_response" {
        var k :| 0 <= k < |cs| && cs[k].kind == "final_response";
        if k < |init| {
          assert init[k] == cs[k];
        }
      }
    }
  }

  /** `ask` raises the "no final response" `ValueError` exactly when the
      stream ended cleanly without any `final_response` chunk, whatever
      else arrived, `error` chunks included. */
  lemma NoFinalResponseRaises(frontendUuid: string, contextUuid: string, query: string, cs: seq<MessageChunk>)
    ensures Build(Fold(Initial(frontendUuid, contextUuid, query), cs)) == Failure(ValueError(NoFinalResponse))
      <==> forall k | 0 <= k < |cs| :: cs[k].kind != "final_response"
  {
    FoldSummary(Initial(frontendUuid, contextUuid, query), cs);
    LastFinalExists(cs);
  }

  /** A successful `ask` returns the caller's identifiers and query, the
      status of the last verdict chunk, `text_completed` set, the backend
      id of the last `final_response` (the empty string when its payload
      has none), and no parent. */
  lemma AskSuccess(frontendUuid: string, contextUuid: string, query: string, cs: seq<MessageChunk>)
    requires Build(Fold(Initial(frontendUuid, contextUuid, query), cs)).Success?
    ensures var e := Build(Fold(Initial(frontendUuid, contextUuid, query), cs)).value;
      LastFinal(cs).Some?
      && e.frontendUuid == frontendUuid && e.contextUuid == contextUuid && e.query == Some(query)
      && e.textCompleted && e.parentEntryUuid.None?
      && Some(e.status) == LastVerdict(cs)
      && JStr(e.backendUuid) == Get(LastFinal(cs).value, "backend_uuid", JStr(""))
  {
    var d := Initial(frontendUuid, contextUuid, query);
    FoldSummary(d, cs);
    if LastVerdict(cs).None? {
      LastVerdictFinal(cs);
    }
  }

  /** A latest `final_response` means there is a latest verdict. */
  lemma {:induction false} LastVerdictFinal(cs: seq<MessageChunk>)
    ensures LastFinal(cs).Some? ==> LastVerdict(cs).Some?
    decreases |cs|
  {
    if cs != [] {
      LastVerdictFinal(cs[..|cs| - 1]);
    }
  }

  /** The blocks and sources of a successful entry are those of the last
      `final_response` carrying them, or empty when none did. */
  lemma AskBlocksAndSources(frontendUuid: string, contextUuid: string, query: string, cs: seq<MessageChunk>)
    requires Build(Fold(Initial(frontendUuid, contextUuid, query), cs)).Success?
    ensures var e := Build(Fold(Initial(frontendUuid, contextUuid, query), cs)).value;
      (LastWithKey(cs, "blocks").None? ==> e.blocks == [])
      && (LastWithKey(cs, "blocks").Some? ==> BlocksFromJson(LastWithKey(cs, "blocks").value) == Some(e.blocks))
      && (LastWithKey(cs, "sources").None? ==> e.sources == [])
      && (LastWithKey(cs, "sources").Some? ==> SourcesFromJson(LastWithKey(cs, "sources").value) == Some(e.sources))
  {
    FoldSummary(Initial(frontendUuid, contextUuid, query), cs);
  }
}
