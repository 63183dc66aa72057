/** The records and enumerations of pplx_sdk/domain/models.py. Pydantic
    field defaults become constructor functions; the string enumerations
    become datatypes with their wire values. Timestamps are not modelled. */
module Models {
  import opened Wrappers
  import opened Json

  /** `StreamStatus`, a string enumeration of eight values. */
  datatype StreamStatus =
    | SearchStarted | SearchCompleted | AnswerStarted | AnswerCompleted
    | Pending | Completed | Failed | Resuming

  function StatusValue(s: StreamStatus): string {
    match s
    case SearchStarted => "search_started"
    case SearchCompleted => "search_completed"
    case AnswerStarted => "answer_started"
    case AnswerCompleted => "answer_completed"
    case Pending => "pending"
    case Completed => "completed"
    case Failed => "failed"
    case Resuming => "resuming"
  }

  /** `StreamStatus(v)`: the member whose value is `v`, if there is one. */
  function StatusFromValue(v: string): Option<StreamStatus> {
    if v == "search_started" then Some(SearchStarted)
    else if v == "search_completed" then Some(SearchCompleted)
    else if v == "answer_started" then Some(AnswerStarted)
    else if v == "answer_completed" then Some(AnswerCompleted)
    else if v == "pending" then Some(Pending)
    else if v == "completed" then Some(Completed)
    else if v == "failed" then Some(Failed)
    else if v == "resuming" then Some(Resuming)
    else None
  }

  const StatusValues: set<string> :=
    {"search_started", "search_completed", "answer_started", "answer_completed",
     "pending", "completed", "failed", "resuming"}

  /** A status is exactly one of the eight wire values, and value and
      member determine each other. */
  lemma StatusValueRoundTrip(s: StreamStatus, v: string)
    ensures StatusFromValue(StatusValue(s)) == Some(s)
    ensures StatusFromValue(v).Some? <==> v in StatusValues
    ensures StatusFromValue(v) == Some(s) ==> StatusValue(s) == v
  {
  }

  /** `ThreadAccess`. */
  datatype ThreadAccess = Private | Org | Public

  function AccessValue(a: ThreadAccess): string {
    match a
    case Private => "private"
    case Org => "org"
    case Public => "public"
  }

  /** `SourceType`, the six kinds of citation source. */
  datatype SourceType = Web | Academic | Reddit | YouTube | Twitter | Wikipedia

  function SourceTypeValue(t: SourceType): string {
    match t
    case Web => "web"
    case Academic => "academic"
    case Reddit => "reddit"
    case YouTube => "youtube"
    case Twitter => "twitter"
    case Wikipedia => "wikipedia"
  }

  function SourceTypeFromValue(v: string): Option<SourceType> {
    if v == "web" then Some(Web)
    else if v == "academic" then Some(Academic)
    else if v == "reddit" then Some(Reddit)
    else if v == "youtube" then Some(YouTube)
    else if v == "twitter" then Some(Twitter)
    else if v == "wikipedia" then Some(Wikipedia)
    else None
  }

  const SourceTypeValues: set<string> := {"web", "academic", "reddit", "youtube", "twitter", "wikipedia"}

  lemma SourceTypeRoundTrip(t: SourceType, v: string)
    ensures SourceTypeFromValue(SourceTypeValue(t)) == Some(t)
    ensures SourceTypeFromValue(v).Some? <==> v in SourceTypeValues
    ensures SourceTypeFromValue(v) == Some(t) ==> SourceTypeValue(t) == v
  {
  }

  /** `Block`: a structured piece of an answer. */
  datatype Block = Block(kind: string, content: string, metadata: Option<map<string, Json>>)

  /** `Source`: one citation. */
  datatype Source = Source(
    kind: SourceType, url: string,
    title: Option<string>, snippet: Option<string>, favicon: Option<string>,
    position: Option<int>)

  /** `Thread` without its two timestamps. */
  datatype Thread = Thread(
    contextUuid: string, title: Option<string>, slug: string, access: ThreadAccess,
    forkCount: int, likeCount: int, viewCount: int)

  /** `Entry`: one question and its answer. */
  datatype Entry = Entry(
    backendUuid: string, frontendUuid: string, contextUuid: string, status: StreamStatus,
    textCompleted: bool, blocks: seq<Block>, sources: seq<Source>,
    query: Option<string>, displayModel: Option<string>,
    parentEntryUuid: Option<string>, cursor: Option<string>)

  /** `MessageChunk`: one event of the answer stream. */
  datatype MessageChunk = MessageChunk(
    kind: string, status: Option<string>, data: map<string, Json>,
    backendUuid: Option<string>, contextUuid: Option<string>,
    text: Option<string>, cursor: Option<string>, reconnectable: bool)

  /** `Thread(context_uuid=…, title=…, slug=…, access=…)` with the
      counters at their defaults. */
  function NewThread(contextUuid: string, title: Option<string>, slug: string, access: ThreadAccess): (t: Thread)
    ensures t.contextUuid == contextUuid && t.title == title && t.slug == slug && t.access == access
    ensures t.forkCount == 0 && t.likeCount == 0 && t.viewCount == 0
  {
    Thread(contextUuid, title, slug, access, 0, 0, 0)
  }

  /** `Thread(context_uuid=…, slug=…)`: no title, private, zero counters. */
  function DefaultThread(contextUuid: string, slug: string): (t: Thread)
    ensures t.access == Private && t.title == None
    ensures t.forkCount == 0 && t.likeCount == 0 && t.viewCount == 0
  {
    NewThread(contextUuid, None, slug, Private)
  }

  /** `Entry` built from its four required fields only. */
  function DefaultEntry(backendUuid: string, frontendUuid: string, contextUuid: string, status: StreamStatus): (e: Entry)
    ensures e.backendUuid == backendUuid && e.frontendUuid == frontendUuid
    ensures e.contextUuid == contextUuid && e.status == status
    ensures !e.textCompleted && e.blocks == [] && e.sources == []
    ensures e.query.None? && e.displayModel.None? && e.parentEntryUuid.None? && e.cursor.None?
  {
    Entry(backendUuid, frontendUuid, contextUuid, status, false, [], [], None, None, None, None)
  }

  /** `MessageChunk(type=…)` with every other field at its default. */
  function DefaultChunk(kind: string): (c: MessageChunk)
    ensures c.kind == kind && c.data == map[]
    ensures c.status.None? && c.backendUuid.None? && c.contextUuid.None?
    ensures c.text.None? && c.cursor.None? && !c.reconnectable
  {
    MessageChunk(kind, None, map[], None, None, None, None, false)
  }

  // Validation of decoded JSON into the record types, as the records'
  // constructors perform it when given a decoded `blocks` or `sources`
  // list.

  /** `Block(**obj)`: `type` and `content` must be strings, `metadata`
      absent, null or an object; other keys are ignored. */
  function BlockFromJson(j: Json): Option<Block> {
    if !j.JObj? then None
    else
      var o := j.fields;
      if "type" !in o || !o["type"].JStr? || "content" !in o || !o["content"].JStr? then None
      else if "metadata" in o && !o["metadata"].JNull? && !o["metadata"].JObj? then None
      else
        var meta := if "metadata" in o && o["metadata"].JObj? then Some(o["metadata"].fields) else None;
        Some(Block(o["type"].s, o["content"].s, meta))
  }

  function BlockToJson(b: Block): Json {
    JObj(map["type" := JStr(b.kind), "content" := JStr(b.content),
             "metadata" := if b.metadata.Some? then JObj(b.metadata.value) else JNull])
  }

  /** A list of blocks: every element must validate. */
  function BlocksFromJson(j: Json): (r: Option<seq<Block>>)
    ensures r.Some? ==> j.JArr? && |r.value| == |j.items|
    ensures r.Some? ==> forall k :: 0 <= k < |r.value| ==> BlockFromJson(j.items[k]) == Some(r.value[k])
  {
    if !j.JArr? then None else AllBlocks(j.items)
  }

  function AllBlocks(items: seq<Json>): (r: Option<seq<Block>>)
    ensures r.Some? ==> |r.value| == |items|
    ensures r.Some? ==> forall k :: 0 <= k < |r.value| ==> BlockFromJson(items[k]) == Some(r.value[k])
    ensures r.None? ==> exists k :: 0 <= k < |items| && BlockFromJson(items[k]).None?
    decreases |items|
  {
    if items == [] then Some([])
    else match (BlockFromJson(items[0]), AllBlocks(items[1..]))
      case (Some(b), Some(rest)) => Some([b] + rest)
      case (None, _) => None
      case (_, None) => None
  }

  function BlocksToJson(bs: seq<Block>): (j: Json)
    ensures j.JArr? && |j.items| == |bs|
    ensures forall k :: 0 <= k < |bs| ==> j.items[k] == BlockToJson(bs[k])
  {
    JArr(seq(|bs|, k requires 0 <= k < |bs| => BlockToJson(bs[k])))
  }

  /** Blocks written as JSON validate back to the same blocks, in order. */
  lemma BlocksRoundTrip(bs: seq<Block>)
    ensures BlocksFromJson(BlocksToJson(bs)) == Some(bs)
  {
    var items := BlocksToJson(bs).items;
    forall k | 0 <= k < |bs| ensures BlockFromJson(items[k]) == Some(bs[k]) {
      var b := bs[k];
      var o := map["type" := JStr(b.kind), "content" := JStr(b.content),
                   "metadata" := if b.metadata.Some? then JObj(b.metadata.value) else JNull];
      assert items[k] == JObj(o);
      assert o["type"] == JStr(b.kind) && o["content"] == JStr(b.content);
    }
    AllBlocksOfValid(items, bs);
  }

  lemma {:induction false} AllBlocksOfValid(items: seq<Json>, bs: seq<Block>)
    requires |items| == |bs|
    requires forall k :: 0 <= k < |bs| ==> BlockFromJson(items[k]) == Some(bs[k])
    ensures AllBlocks(items) == Some(bs)
    decreases |items|
  {
    if items != [] {
      AllBlocksOfValid(items[1..], bs[1..]);
      assert bs == [bs[0]] + bs[1..];
    }
  }

  /** Reads an optional string member; `Some(None)` when absent or null,
      `None` when present with another type. */
  function OptStrField(o: map<string, Json>, key: string): Option<Option<string>> {
    if key !in o || o[key].JNull? then Some(None)
    else if o[key].JStr? then Some(Some(o[key].s))
    else None
  }

  /** `Source(**obj)`: `type` must be one of the six source-type values
      and `url` a string; `title`, `snippet`, `favicon` optional strings;
      `position` an optional integer. */
  function SourceFromJson(j: Json): (r: Option<Source>)
    ensures r.Some? ==> j.JObj? && "type" in j.fields && j.fields["type"] == JStr(SourceTypeValue(r.value.kind))
  {
    if !j.JObj? then None
    else
      var o := j.fields;
      if "type" !in o || !o["type"].JStr? || "url" !in o || !o["url"].JStr? then None
      else match (SourceTypeFromValue(o["type"].s), OptStrField(o, "title"), OptStrField(o, "snippet"), OptStrField(o, "favicon"))
        case (Some(t), Some(title), Some(snippet), Some(favicon)) =>
          if "position" in o && !o["position"].JNull? && !o["position"].JInt? then None
          else
            var pos := if "position" in o && o["position"].JInt? then Some(o["position"].i) else None;
            Some(Source(t, o["url"].s, title, snippet, favicon, pos))
        case _ => None
  }

  function SourceToJson(s: Source): Json {
    JObj(map["type" := JStr(SourceTypeValue(s.kind)), "url" := JStr(s.url),
             "title" := OptStrJson(s.title), "snippet" := OptStrJson(s.snippet),
             "favicon" := OptStrJson(s.favicon),
             "position" := if s.position.Some? then JInt(s.position.value) else JNull])
  }

  lemma SourceRoundTrip(s: Source)
    ensures SourceFromJson(SourceToJson(s)) == Some(s)
  {
    SourceTypeRoundTrip(s.kind, "");
  }

  function SourcesFromJson(j: Json): (r: Option<seq<Source>>)
    ensures r.Some? ==> j.JArr? && |r.value| == |j.items|
    ensures r.Some? ==> forall k :: 0 <= k < |r.value| ==> SourceFromJson(j.items[k]) == Some(r.value[k])
  {
    if !j.JArr? then None else AllSources(j.items)
  }

  function AllSources(items: seq<Json>): (r: Option<seq<Source>>)
    ensures r.Some? ==> |r.value| == |items|
    ensures r.Some? ==> forall k :: 0 <= k < |r.value| ==> SourceFromJson(items[k]) == Some(r.value[k])
    ensures r.None? ==> exists k :: 0 <= k < |items| && SourceFromJson(items[k]).None?
    decreases |items|
  {
    if items == [] then Some([])
    else match (SourceFromJson(items[0]), AllSources(items[1..]))
      case (Some(s), Some(rest)) => Some([s] + rest)
      case (None, _) => None
      case (_, None) => None
  }
}
