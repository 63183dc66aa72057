/** pplx_sdk/api/oai_server.py: the OpenAI-compatible chat completions
    endpoint. It maps the requested model onto a Perplexity model and
    mode, takes the last user message as the query, and answers either
    with a stream of `chat.completion.chunk` frames or with one
    `chat.completion` whose content is the answer's blocks joined by
    newlines. The client is built on first use and cached.

    The environment is a map; the two clock readings and the generated
    identifiers are parameters; the entries service's transport of a
    newly built client is a parameter too. */
module OaiServer {
  import opened Wrappers
  import opened Text
  import opened Json
  import opened Exceptions
  import opened Models
  import opened Sse
  import Numbers
  import Auth
  import Entries
  import Client

  // ---------------------------------------------------------------------
  // Models

  /** The Perplexity model and mode an OpenAI model name stands for. */
  datatype ModelConfig = ModelConfig(pplxModel: string, mode: string)

  /** `MODEL_MAPPING` of pplx_sdk/api/oai_models.py (its descriptions are
      not used). */
  const ModelMapping: map<string, ModelConfig> := map[
    "gpt-4-turbo" := ModelConfig("pplx-70b-deep", "research"),
    "gpt-4" := ModelConfig("pplx-70b-chat", "concise"),
    "gpt-3.5-turbo" := ModelConfig("pplx-7b-online", "concise"),
    "pplx-70b-chat" := ModelConfig("pplx-70b-chat", "concise"),
    "pplx-70b-deep" := ModelConfig("pplx-70b-deep", "research"),
    "pplx-7b-online" := ModelConfig("pplx-7b-online", "concise")]

  /** The model configuration of a request: the mapped one, or the
      requested name itself in concise mode. */
  function ResolveModel(name: string): (c: ModelConfig)
    ensures name in ModelMapping ==> c == ModelMapping[name]
    ensures name !in ModelMapping ==> c == ModelConfig(name, "concise")
  {
    if name in ModelMapping then ModelMapping[name] else ModelConfig(name, "concise")
  }

  /** Every resolved mode is `research` or `concise`, and a Perplexity
      model name resolves to itself. */
  lemma ResolveModelShape(name: string)
    ensures ResolveModel(name).mode in {"research", "concise"}
    ensures name in {"pplx-70b-chat", "pplx-70b-deep", "pplx-7b-online"} ==> ResolveModel(name).pplxModel == name
    ensures name !in ModelMapping ==> ResolveModel(name).pplxModel == name
  {
  }

  // ---------------------------------------------------------------------
  // The query

  /** A message of the request. */
  datatype ChatMessage = ChatMessage(role: string, content: string)

  /** The position of the last user message, if any. */
  function LastUser(messages: seq<ChatMessage>): (i: Option<nat>)
    ensures i.None? <==> forall k | 0 <= k < |messages| :: messages[k].role != "user"
    ensures i.Some? ==>
      (i.value < |messages| && messages[i.value].role == "user"
       && forall j | i.value < j < |messages| :: messages[j].role != "user")
    decreases |messages|
  {
    if messages == [] then None
    else if messages[|messages| - 1].role == "user" then Some(|messages| - 1)
    else
      var i := LastUser(messages[..|messages| - 1]);
      assert forall k | 0 <= k < |messages| - 1 :: messages[k] == messages[..|messages| - 1][k];
      i
  }

  const NoUserMessage := "No user message found in request"

  /** The query: the content of the last user message; a 400 when there
      is none or its content is empty. */
  function ExtractQuery(messages: seq<ChatMessage>): (r: Result<string, Fault>)
    ensures r.Success? <==> LastUser(messages).Some? && messages[LastUser(messages).value].content != ""
    ensures r.Success? ==> r.value == messages[LastUser(messages).value].content
    ensures r.Failure? ==> r.error == HttpException(400, NoUserMessage)
  {
    var query := match LastUser(messages) case Some(i) => messages[i].content case None => "";
    if query == "" then Failure(HttpException(400, NoUserMessage)) else Success(query)
  }

  /** An empty last user message is not skipped in favour of an earlier
      one: the request fails whatever came before it. */
  lemma EmptyLastUserFails(before: seq<ChatMessage>, after: seq<ChatMessage>)
    requires forall k | 0 <= k < |after| :: after[k].role != "user"
    ensures ExtractQuery(before + [ChatMessage("user", "")] + after) == Failure(HttpException(400, NoUserMessage))
  {
    var ms := before + [ChatMessage("user", "")] + after;
    assert ms[|before|] == ChatMessage("user", "");
    assert forall j | |before| < j < |ms| :: ms[j] == after[j - |before| - 1];
  }

  /** A non-empty last user message is the query, whatever follows it from
      other roles. */
  lemma LastUserIsQuery(before: seq<ChatMessage>, content: string, after: seq<ChatMessage>)
    requires content != ""
    requires forall k | 0 <= k < |after| :: after[k].role != "user"
    ensures ExtractQuery(before + [ChatMessage("user", content)] + after) == Success(content)
  {
    var ms := before + [ChatMessage("user", content)] + after;
    assert ms[|before|] == ChatMessage("user", content);
    assert forall j | |before| < j < |ms| :: ms[j] == after[j - |before| - 1];
  }

  // ---------------------------------------------------------------------
  // Streamed frames

  /** The `delta` of a streamed chunk. */
  datatype Delta = Delta(role: Option<string>, content: Option<string>)

  /** One `data:` frame of the streamed response. */
  datatype Frame =
    | ChunkFrame(id: string, created: int, model: string, delta: Delta, finishReason: Option<string>)
    | DoneFrame
    | ErrorFrame(message: string, kind: string)

  /** `chatcmpl-` and the clock reading in whole seconds. */
  function CompletionId(seconds: int): (id: string)
    ensures StartsWith(id, "chatcmpl-")
  {
    "chatcmpl-" + Numbers.IntToString(seconds)
  }

  /** The texts of the chunks that have one, in order. */
  function Texts(chunks: seq<MessageChunk>): (ts: seq<string>)
    ensures |ts| <= |chunks|
    ensures forall k | 0 <= k < |ts| :: ts[k] != ""
    decreases |chunks|
  {
    if chunks == [] then []
    else
      var last := chunks[|chunks| - 1];
      Texts(chunks[..|chunks| - 1]) + (if Truthy(last.text) then [last.text.value] else [])
  }

  /** The content frame of a text. */
  function ContentFrame(id: string, created: int, model: string, text: string): Frame {
    ChunkFrame(id, created, model, Delta(None, Some(text)), None)
  }

  /** The content frames of the chunks: one per chunk with a text. */
  function ContentFrames(id: string, created: int, model: string, chunks: seq<MessageChunk>): seq<Frame>
    decreases |chunks|
  {
    if chunks == [] then []
    else
      var last := chunks[|chunks| - 1];
      ContentFrames(id, created, model, chunks[..|chunks| - 1])
        + (if Truthy(last.text) then [ContentFrame(id, created, model, last.text.value)] else [])
  }

  /** The content frames carry exactly the chunks' texts, in order. */
  lemma {:induction false} ContentFramesTexts(id: string, created: int, model: string, chunks: seq<MessageChunk>)
    ensures var fs := ContentFrames(id, created, model, chunks);
      var ts := Texts(chunks);
      |fs| == |ts| && forall k | 0 <= k < |fs| :: fs[k] == ContentFrame(id, created, model, ts[k])
    decreases |chunks|
  {
    if chunks != [] {
      ContentFramesTexts(id, created, model, chunks[..|chunks| - 1]);
    }
  }

  /** The frames `generate_stream` yields for what the conversation
      streamed: the role frame, the content frames, then the stop frame
      and `[DONE]`, or, if the stream raised, one error frame instead. */
  function StreamFrames(id: string, created: int, model: string, a: Attempt): seq<Frame> {
    [ChunkFrame(id, created, model, Delta(Some("assistant"), None), None)]
      + ContentFrames(id, created, model, a.chunks)
      + EndFrames(id, created, model, a.fault)
  }

  /** The stop frame and `[DONE]` after a clean stream, or one error frame. */
  function EndFrames(id: string, created: int, model: string, fault: Option<Fault>): seq<Frame> {
    match fault
    case Some(f) => [ErrorFrame(FaultMessage(f), "server_error")]
    case None => [ChunkFrame(id, created, model, Delta(None, None), Some("stop")), DoneFrame]
  }

  /** The shape of the stream: role frame first, one content frame per
      text, then either stop and `[DONE]` or a single error frame and no
      `[DONE]`; every chunk frame carries the same id, creation time and
      model. */
  lemma StreamShape(id: string, created: int, model: string, a: Attempt)
    ensures var fs := StreamFrames(id, created, model, a);
      var n := |Texts(a.chunks)|;
      && |fs| == 1 + n + (if a.fault.Some? then 1 else 2)
      && fs[0] == ChunkFrame(id, created, model, Delta(Some("assistant"), None), None)
      && (forall k | 0 <= k < n :: fs[1 + k] == ContentFrame(id, created, model, Texts(a.chunks)[k]))
      && (forall k | 0 <= k < |fs| && fs[k].ChunkFrame? :: fs[k].id == id && fs[k].created == created && fs[k].model == model)
      && (a.fault.None? ==> fs[|fs| - 2].finishReason == Some("stop") && fs[|fs| - 1] == DoneFrame
                            && forall k | 0 <= k < |fs| - 1 :: fs[k] != DoneFrame)
      && (a.fault.Some? ==> fs[|fs| - 1] == ErrorFrame(FaultMessage(a.fault.value), "server_error")
                            && DoneFrame !in fs)
  {
    var role := ChunkFrame(id, created, model, Delta(Some("assistant"), None), None);
    var cf := ContentFrames(id, created, model, a.chunks);
    var tail := EndFrames(id, created, model, a.fault);
    var fs := StreamFrames(id, created, model, a);
    ContentFramesTexts(id, created, model, a.chunks);
    assert fs == [role] + cf + tail;
    assert forall k | 0 <= k < |cf| :: fs[1 + k] == cf[k];
    assert forall k | 0 <= k < |tail| :: fs[1 + |cf| + k] == tail[k];
    assert forall k | 0 <= k < |fs| :: k == 0 || (1 <= k < 1 + |cf| && fs[k] == cf[k - 1]) || (1 + |cf| <= k && fs[k] == tail[k - 1 - |cf|]);
  }

  /** `generate_stream`. */
  method GenerateStream(id: string, created: int, model: string, a: Attempt) returns (frames: seq<Frame>)
    ensures frames == StreamFrames(id, created, model, a)
  {
    var role := ChunkFrame(id, created, model, Delta(Some("assistant"), None), None);
    frames := [role];
    var chunks := a.chunks;
    for i := 0 to |chunks|
      invariant frames == [role] + ContentFrames(id, created, model, chunks[..i])
    {
      assert chunks[..i + 1][..i] == chunks[..i];
      var chunk := chunks[i];
      if Truthy(chunk.text) {
        frames := frames + [ContentFrame(id, created, model, chunk.text.value)];
      }
    }
    assert chunks[..|chunks|] == chunks;
    if a.fault.Some? {
      frames := frames + [ErrorFrame(FaultMessage(a.fault.value), "server_error")];
    } else {
      frames := frames + [ChunkFrame(id, created, model, Delta(None, None), Some("stop")), DoneFrame];
    }
  }

  // ---------------------------------------------------------------------
  // The non-streamed answer

  /** The contents of the blocks, in order. */
  function Contents(blocks: seq<Block>): (cs: seq<string>)
    ensures |cs| == |blocks| && forall k | 0 <= k < |cs| :: cs[k] == blocks[k].content
  {
    seq(|blocks|, k requires 0 <= k < |blocks| => blocks[k].content)
  }

  /** The answer text: the block contents joined by newlines, or nothing
      when there are no blocks. */
  function JoinBlocks(blocks: seq<Block>): (text: string)
    ensures blocks == [] ==> text == ""
    ensures |blocks| == 1 ==> text == blocks[0].content
  {
    Join(Contents(blocks), '\n')
  }

  /** Splitting the answer at newlines gives back the blocks' contents,
      when there is at least one block and none holds a newline. */
  lemma JoinBlocksSplit(blocks: seq<Block>)
    requires blocks != []
    requires forall k | 0 <= k < |blocks| :: '\n' !in blocks[k].content
    ensures Split(JoinBlocks(blocks), '\n') == Contents(blocks)
  {
    SplitJoin(Contents(blocks), '\n');
  }

  /** The `chat.completion` answer: one assistant message, finished with
      `stop`. */
  datatype Completion = Completion(id: string, created: int, model: string, role: string, content: string, finishReason: string)

  /** The non-streamed answer to an `ask` outcome: the joined blocks, or a
      500 carrying the exception's text. */
  function CompletionOf(id: string, created: int, model: string, r: Result<Entry, Fault>): (c: Result<Completion, Fault>)
    ensures r.Success? ==> c == Success(Completion(id, created, model, "assistant", JoinBlocks(r.value.blocks), "stop"))
    ensures r.Failure? ==> c == Failure(HttpException(500, FaultMessage(r.error)))
  {
    match r
    case Success(e) => Success(Completion(id, created, model, "assistant", JoinBlocks(e.blocks), "stop"))
    case Failure(f) => Failure(HttpException(500, FaultMessage(f)))
  }

  // ---------------------------------------------------------------------
  // The endpoint

  /** The fields of a request the endpoint reads. */
  datatype ChatCompletionRequest = ChatCompletionRequest(model: string, messages: seq<ChatMessage>, stream: bool)

  /** What the endpoint answers with. */
  datatype Reply = Streamed(frames: seq<Frame>) | NonStreamed(completion: Completion)

  const DefaultApiBase := "https://www.perplexity.ai"
  const TokenMissing := "PPLX_AUTH_TOKEN environment variable not set"

  /** `PPLX_API_BASE`, with its default. */
  function ApiBase(env: map<string, string>): string {
    match Auth.GetEnv(env, "PPLX_API_BASE") case Some(b) => b case None => DefaultApiBase
  }

  /** What the endpoint answers once it has a client: the query's 400, or
      the stream or completion of a question asked in a new conversation
      (so with no parent) with the resolved model and mode. */
  function Respond(request: ChatCompletionRequest, transport: Entries.Transport, t1: int, t2: int,
                   convUuid: string, frontendUuid: string): (r: Result<Reply, Fault>)
    ensures ExtractQuery(request.messages).Failure? ==> r == Failure(HttpException(400, NoUserMessage))
    ensures r.Success? ==> (r.value.Streamed? <==> request.stream)
  {
    var cfg := ResolveModel(request.model);
    match ExtractQuery(request.messages)
    case Failure(f) => Failure(f)
    case Success(query) =>
      var id := CompletionId(t1);
      if request.stream then
        var a := Entries.StreamAsk(transport, query, convUuid, cfg.mode, cfg.pplxModel, None, None, None, map[], frontendUuid);
        Success(Streamed(StreamFrames(id, t2, request.model, a)))
      else
        var e := Entries.AskResult(transport, query, convUuid, cfg.mode, cfg.pplxModel, None, None, None, map[], frontendUuid);
        match CompletionOf(id, t2, request.model, e)
        case Success(c) => Success(NonStreamed(c))
        case Failure(f) => Failure(f)
  }

  /** The text of the 500 raised when the token is missing. */
  lemma MissingTokenMessage()
    ensures FaultMessage(HttpException(500, TokenMissing)) == "500: " + TokenMissing
  {
    assert Numbers.IntToString(500) == "500";
    assert "500" + ": " + TokenMissing == "500: " + TokenMissing;
  }

  /** The module's cached client. */
  class Adapter {
    var client: Option<Client.PerplexityClient>

    constructor ()
      ensures client.None?
    {
      client := None;
    }

    /** `get_client`: the cached client; otherwise a new one built from
      the environment and cached, or a 500 that caches nothing when
      `PPLX_AUTH_TOKEN` is missing or empty. */
    method GetClient(env: map<string, string>, transport: Entries.Transport)
      returns (r: Result<Client.PerplexityClient, Fault>)
      modifies this
      ensures old(client).Some? ==> r == Success(old(client).value) && client == old(client)
      ensures old(client).None? && !Truthy(Auth.GetEnv(env, "PPLX_AUTH_TOKEN")) ==>
        r == Failure(HttpException(500, TokenMissing)) && client.None?
      ensures old(client).None? && Truthy(Auth.GetEnv(env, "PPLX_AUTH_TOKEN")) ==>
        (r.Success? && fresh(r.value) && client == Some(r.value)
         && r.value.apiBase == ApiBase(env) && r.value.authToken == Auth.GetEnv(env, "PPLX_AUTH_TOKEN")
         && r.value.headers == Client.BuildHeaders(Auth.GetEnv(env, "PPLX_AUTH_TOKEN"), None)
         && r.value.transport == transport)
    {
      if client.None? {
        var authToken := Auth.GetEnv(env, "PPLX_AUTH_TOKEN");
        var apiBase := ApiBase(env);
        if !Truthy(authToken) {
          return Failure(HttpException(500, TokenMissing));
        }
        var c := new Client.PerplexityClient(apiBase, authToken, None, transport);
        client := Some(c);
      }
      r := Success(client.value);
    }

    /** `chat_completions`: a failure to get the client becomes a 500 whose
      detail is that exception's text; otherwise the answer of `Respond`
      with the client's transport. */
    method ChatCompletions(request: ChatCompletionRequest, env: map<string, string>, transport: Entries.Transport,
                           t1: int, t2: int, convUuid: string, frontendUuid: string)
      returns (r: Result<Reply, Fault>)
      modifies this
      ensures old(client).None? && !Truthy(Auth.GetEnv(env, "PPLX_AUTH_TOKEN")) ==>
        r == Failure(HttpException(500, "500: " + TokenMissing)) && client.None?
      ensures old(client).Some? ==> client == old(client)
      ensures client.Some? ==> r == Respond(request, client.value.transport, t1, t2, convUuid, frontendUuid)
    {
      var got := GetClient(env, transport);
      if got.Failure? {
        MissingTokenMessage();
        return Failure(HttpException(500, FaultMessage(got.error)));
      }
      r := Answer(got.value, request, t1, t2, convUuid, frontendUuid);
    }

    /** The body of `chat_completions` once it has a client. */
    method Answer(c: Client.PerplexityClient, request: ChatCompletionRequest, t1: int, t2: int,
                  convUuid: string, frontendUuid: string)
      returns (r: Result<Reply, Fault>)
      ensures r == Respond(request, c.transport, t1, t2, convUuid, frontendUuid)
    {
      var cfg := ResolveModel(request.model);
      var q := ExtractQuery(request.messages);
      if q.Failure? {
        return Failure(q.error);
      }
      var query := q.value;
      var conv := c.NewConversation(Some("OpenAI API Request"), convUuid);
      var id := CompletionId(t1);
      var timestamp := t2;
      if request.stream {
        var a := conv.AskStream(query, cfg.mode, cfg.pplxModel, None, None, map[], frontendUuid);
        var frames := GenerateStream(id, timestamp, request.model, a);
        r := Success(Streamed(frames));
      } else {
        var e := conv.Ask(query, cfg.mode, cfg.pplxModel, None, None, map[], frontendUuid);
        match CompletionOf(id, timestamp, request.model, e) {
          case Success(completion) =>
            r := Success(NonStreamed(completion));
          case Failure(f) =>
            r := Failure(f);
        }
      }
    }
  }
}
