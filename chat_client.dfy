/** src/pplx_sdk/client.py: the OpenAI-style chat client. Its request
    headers, the choice of model, and the line loop of a streamed chat
    completion, which reads `data: ` lines up to `[DONE]` and keeps the
    payloads that decode into a chunk.

    The two steps of reading a payload are parameters: `json.loads`, a
    `Json.Decoder`, and the chunk record's validation of an object's
    fields, nothing standing for a `ValidationError`. The response is a
    `Sse.Response`. */
module ChatClient {
  import opened Wrappers
  import opened Text
  import opened Json
  import opened Exceptions
  import opened Sse

  /** The settings the client reads. */
  datatype Settings = Settings(apiKey: Option<string>, apiBase: string, userAgent: string, defaultChatModel: string)

  /** The settings when nothing is configured. */
  const DefaultSettings := Settings(None, "https://api.perplexity.ai", "pplx-sdk/0.1.0", "llama-3.1-sonar-large-128k-online")

  /** `_get_headers`: user agent and content type, and the bearer key when
      it is truthy. */
  function GetHeaders(s: Settings): (h: map<string, string>)
    ensures h.Keys == {"User-Agent", "Content-Type"} + (if Truthy(s.apiKey) then {"Authorization"} else {})
    ensures h["User-Agent"] == s.userAgent && h["Content-Type"] == "application/json"
    ensures Truthy(s.apiKey) ==> h["Authorization"] == "Bearer " + s.apiKey.value
  {
    var headers := map["User-Agent" := s.userAgent, "Content-Type" := "application/json"];
    if Truthy(s.apiKey) then headers["Authorization" := "Bearer " + s.apiKey.value] else headers
  }

  /** One chat message. */
  datatype Message = Message(role: string, content: string)

  /** The `Chat` payload `chat_complete` builds. */
  datatype Chat = Chat(model: string, messages: seq<Message>, stream: bool)

  /** `chat_complete`'s payload: the caller's model when truthy, otherwise
      the configured default. */
  function ChatPayload(s: Settings, messages: seq<Message>, model: Option<string>, stream: bool): (c: Chat)
    ensures c.messages == messages && c.stream == stream
    ensures Truthy(model) ==> c.model == model.value
    ensures !Truthy(model) ==> c.model == s.defaultChatModel
  {
    Chat(if Truthy(model) then model.value else s.defaultChatModel, messages, stream)
  }

  // ---------------------------------------------------------------------
  // The streamed line loop

  /** The line that ends the stream. */
  const DoneLine := "data: [DONE]"

  /** A line the loop uses: it starts with exactly `data: `. */
  predicate IsData(line: string) {
    StartsWith(line, "data: ")
  }

  /** What the consumer of a streamed completion sees: the chunks, and the
      exception that ended the stream, if any. */
  datatype ChatStream<C> = ChatStream(chunks: seq<C>, fault: Option<Fault>)

  /** Chunks yielded before a stream. */
  function Prepend<C>(cs: seq<C>, s: ChatStream<C>): ChatStream<C> {
    ChatStream(cs + s.chunks, s.fault)
  }

  /** Python's name for the type of a decoded JSON value. */
  function PyTypeName(j: Json): string {
    match j
    case JNull => "NoneType"
    case JBool(_) => "bool"
    case JInt(_) => "int"
    case JDecimal(_) => "float"
    case JStr(_) => "str"
    case JArr(_) => "list"
    case JObj(_) => "dict"
  }

  /** The `TypeError` of `ChatCompletionChunk(**data)` when `data` is not
      a JSON object. */
  function NotAMapping(j: Json): Fault {
    TypeError("argument after ** must be a mapping, not " + PyTypeName(j))
  }

  /** What one payload does: yields a chunk, is logged and skipped (a
      decode or validation error), or raises. */
  datatype Outcome<C> = Yield(chunk: C) | Skip | Raise(fault: Fault)

  /** `json.loads(data_str)` then `ChatCompletionChunk(**data)`: only the
      two caught errors are skipped; a payload that decodes to anything but
      an object raises the uncaught `TypeError`. */
  function ReadPayload<C>(payload: string, decode: Decoder, read: map<string, Json> -> Option<C>): (o: Outcome<C>)
    ensures o.Raise? <==> decode(payload).Some? && !decode(payload).value.JObj?
    ensures o.Raise? ==> o.fault.TypeError?
    ensures o.Yield? <==>
      decode(payload).Some? && decode(payload).value.JObj? && read(decode(payload).value.fields).Some?
    ensures o.Yield? ==> o.chunk == read(decode(payload).value.fields).value
  {
    match decode(payload)
    case None => Skip
    case Some(data) =>
      if !data.JObj? then Raise(NotAMapping(data))
      else match read(data.fields)
        case Some(c) => Yield(c)
        case None => Skip
  }

  /** The chunks the loop yields for the lines, in order, up to the end
      line or the first payload that raises; lines that are not data
      lines, and payloads that fail to decode or validate, yield nothing. */
  function ChatLines<C>(lines: seq<string>, decode: Decoder, read: map<string, Json> -> Option<C>): ChatStream<C>
    decreases |lines|
  {
    if lines == [] then ChatStream([], None)
    else
      var line := lines[0];
      if line == "" || StartsWith(line, ":") || !IsData(line) then ChatLines(lines[1..], decode, read)
      else if line[6..] == "[DONE]" then ChatStream([], None)
      else match ReadPayload(line[6..], decode, read)
        case Yield(c) => Prepend([c], ChatLines(lines[1..], decode, read))
        case Skip => ChatLines(lines[1..], decode, read)
        case Raise(f) => ChatStream([], Some(f))
  }

  /** The data lines before the first end line. */
  function DataBeforeDone(lines: seq<string>): nat
    decreases |lines|
  {
    if lines == [] || lines[0] == DoneLine then 0
    else (if IsData(lines[0]) then 1 else 0) + DataBeforeDone(lines[1..])
  }

  /** A data line's payload is its text after six characters, so the end
      line is the only data line whose payload is `[DONE]`. */
  lemma DoneLineIsData(line: string)
    ensures IsData(line) && line[6..] == "[DONE]" <==> line == DoneLine
  {
    DoneLineShape();
    if IsData(line) && line[6..] == "[DONE]" {
      assert line == line[..6] + line[6..];
    }
  }

  /** The end line is a data line, neither empty nor a comment. */
  lemma DoneLineShape()
    ensures DoneLine != "" && !StartsWith(DoneLine, ":") && IsData(DoneLine) && DoneLine[6..] == "[DONE]"
  {
    assert DoneLine[..6] == "data: ";
    assert DoneLine[..1] == "d";
  }

  /** At most one chunk per data line before the end line. */
  lemma {:induction false} ChunkBound<C>(lines: seq<string>, decode: Decoder, read: map<string, Json> -> Option<C>)
    ensures |ChatLines(lines, decode, read).chunks| <= DataBeforeDone(lines)
    decreases |lines|
  {
    if lines != [] {
      DoneLineIsData(lines[0]);
      ChunkBound(lines[1..], decode, read);
      DoneLineShape();
    }
  }

  /** The only exception the line loop raises itself is the `TypeError`
      of a payload that is not an object. */
  lemma {:induction false} OnlyTypeErrorRaised<C>(lines: seq<string>, decode: Decoder, read: map<string, Json> -> Option<C>)
    ensures var s := ChatLines(lines, decode, read);
      s.fault.Some? ==> s.fault.value.TypeError?
    decreases |lines|
  {
    if lines != [] {
      OnlyTypeErrorRaised(lines[1..], decode, read);
    }
  }

  /** The end line cuts the stream off: nothing after it is read. */
  lemma {:induction false} DoneCutsOff<C>(before: seq<string>, after: seq<string>, decode: Decoder,
                                         read: map<string, Json> -> Option<C>)
    requires DoneLine !in before
    ensures ChatLines(before + [DoneLine] + after, decode, read) == ChatLines(before, decode, read)
    decreases |before|
  {
    var lines := before + [DoneLine] + after;
    DoneLineShape();
    if before == [] {
      assert lines[0] == DoneLine;
    } else {
      assert lines[0] == before[0];
      assert lines[1..] == before[1..] + [DoneLine] + after;
      DoneLineIsData(before[0]);
      DoneCutsOff(before[1..], after, decode, read);
    }
  }

  /** Lines that are empty, comments, or not exactly `data: `-prefixed
      (such as `data:x` or `event: …`) yield nothing. */
  lemma IgnoredLine<C>(line: string, rest: seq<string>, decode: Decoder, read: map<string, Json> -> Option<C>)
    requires line == "" || StartsWith(line, ":") || !IsData(line)
    ensures ChatLines([line] + rest, decode, read) == ChatLines(rest, decode, read)
  {
    assert ([line] + rest)[1..] == rest;
  }

  /** A payload that is not JSON, or an object the chunk record rejects,
      is logged and skipped; the loop goes on with the next line. */
  lemma SkippedPayload<C>(payload: string, rest: seq<string>, decode: Decoder, read: map<string, Json> -> Option<C>)
    requires payload != "[DONE]"
    requires decode(payload).None? || (decode(payload).value.JObj? && read(decode(payload).value.fields).None?)
    ensures ChatLines(["data: " + payload] + rest, decode, read) == ChatLines(rest, decode, read)
  {
    DataFrame(payload);
    assert (["data: " + payload] + rest)[1..] == rest;
  }

  /** A payload that decodes to anything but an object (`[1]`, `null`,
      `3`, `"x"`) ends the stream with the `TypeError`; no later line is
      read. */
  lemma NonObjectRaises<C>(payload: string, rest: seq<string>, decode: Decoder, read: map<string, Json> -> Option<C>)
    requires payload != "[DONE]"
    requires decode(payload).Some? && !decode(payload).value.JObj?
    ensures ChatLines(["data: " + payload] + rest, decode, read)
      == ChatStream([], Some(TypeError("argument after ** must be a mapping, not " + PyTypeName(decode(payload).value))))
  {
    DataFrame(payload);
  }

  /** A payload written as a data line is read back as itself. */
  lemma DataFrame(payload: string)
    ensures var line := "data: " + payload;
      line != "" && !StartsWith(line, ":") && IsData(line) && line[6..] == payload
  {
    var line := "data: " + payload;
    assert line[..6] == "data: ";
    assert line[..1] == "d";
  }

  /** `data:` without the space is not a data line. */
  lemma NoSpaceNoData(x: string)
    requires x == [] || x[0] != ' '
    ensures !IsData("data:" + x)
  {
    if |"data:" + x| >= 6 {
      assert ("data:" + x)[5] == x[0];
    }
  }

  /** The data lines of a sequence of payloads. */
  function Frames(payloads: seq<string>): (lines: seq<string>)
    ensures |lines| == |payloads|
    ensures forall k | 0 <= k < |lines| :: lines[k] == "data: " + payloads[k]
    decreases |payloads|
  {
    if payloads == [] then [] else ["data: " + payloads[0]] + Frames(payloads[1..])
  }

  /** Whether a payload decodes to an object the chunk record accepts. */
  predicate Accepted<C>(payload: string, decode: Decoder, read: map<string, Json> -> Option<C>) {
    decode(payload).Some? && decode(payload).value.JObj? && read(decode(payload).value.fields).Some?
  }

  /** Framing payloads that are all accepted, none of them `[DONE]`, and
      reading the frames back gives exactly their chunks, in order, and
      no exception. */
  lemma {:induction false} FramesRoundTrip<C>(payloads: seq<string>, decode: Decoder, read: map<string, Json> -> Option<C>)
    requires forall k | 0 <= k < |payloads| :: payloads[k] != "[DONE]" && Accepted(payloads[k], decode, read)
    ensures var s := ChatLines(Frames(payloads), decode, read);
      s.fault.None? && |s.chunks| == |payloads|
      && forall k | 0 <= k < |payloads| :: Accepted(payloads[k], decode, read) && s.chunks[k] == read(decode(payloads[k]).value.fields).value
    decreases |payloads|
  {
    if payloads != [] {
      var lines := Frames(payloads);
      assert lines[0] == "data: " + payloads[0];
      assert lines[1..] == Frames(payloads[1..]);
      DataFrame(payloads[0]);
      FramesRoundTrip(payloads[1..], decode, read);
      var rest := ChatLines(Frames(payloads[1..]), decode, read);
      var c := read(decode(payloads[0]).value.fields).value;
      assert ChatLines(lines, decode, read) == Prepend([c], rest);
      assert forall k | 1 <= k < |payloads| :: payloads[k] == payloads[1..][k - 1];
    }
  }

  /** The outcome of `_stream_chat_complete` for a response: a refused
      request or a non-2xx status yields no chunk; otherwise the chunks of
      the lines, the `TypeError` of a payload that is not an object, and
      the read error only if neither that nor the end line came. */
  function ChatOutcome<C>(resp: Response, decode: Decoder, read: map<string, Json> -> Option<C>): ChatStream<C> {
    match resp
    case Refused(f) => ChatStream([], Some(f))
    case Received(status, lines, readFault) =>
      if 200 <= status < 300 then
        var s := ChatLines(lines, decode, read);
        if s.fault.Some? || DoneLine in lines then s else ChatStream(s.chunks, readFault)
      else ChatStream([], Some(StatusFault(status)))
  }

  /** `_stream_chat_complete`. */
  method StreamChatComplete<C>(resp: Response, decode: Decoder, read: map<string, Json> -> Option<C>)
    returns (out: ChatStream<C>)
    ensures out == ChatOutcome(resp, decode, read)
  {
    match resp {
      case Refused(f) =>
        return ChatStream([], Some(f));
      case Received(status, lines, readFault) =>
        if !(200 <= status < 300) {
          return ChatStream([], Some(StatusFault(status)));
        }
        var chunks: seq<C> := [];
        var i := 0;
        while i < |lines|
          invariant 0 <= i <= |lines|
          invariant Prepend(chunks, ChatLines(lines[i..], decode, read)) == ChatLines(lines, decode, read)
          invariant DoneLine !in lines[..i]
        {
          var line := lines[i];
          DoneLineIsData(line);
          DoneLineShape();
          assert lines[i..][0] == line && lines[i..][1..] == lines[i + 1..];
          assert lines[..i + 1] == lines[..i] + [line];
          if line == "" || StartsWith(line, ":") {
            i := i + 1;
            continue;
          }
          if StartsWith(line, "data: ") {
            var dataStr := line[6..];
            if dataStr == "[DONE]" {
              DoneLineIsData(line);
              AppendEmpty(chunks);
              assert DoneLine in lines;
              return ChatStream(chunks, None);
            }
            DoneLineIsData(line);
            match decode(dataStr) {
              case None =>
              case Some(data) =>
                if !data.JObj? {
                  AppendEmpty(chunks);
                  return ChatStream(chunks, Some(NotAMapping(data)));
                }
                match read(data.fields) {
                  case Some(c) =>
                    chunks := chunks + [c];
                  case None =>
                }
            }
          }
          i := i + 1;
        }
        assert lines[..i] == lines;
        AppendEmpty(chunks);
        out := ChatStream(chunks, readFault);
    }
  }

  lemma AppendEmpty<T>(s: seq<T>)
    ensures s + [] == s
  {
  }
}
