/** pplx_sdk/transport/sse.py: the request payload of one streamed query,
    the grouping of response lines into events, and the conversion of an
    event into a `MessageChunk`.

    The HTTP exchange itself is outside the model: a response is given as
    its status code and its lines, possibly followed by a read failure. */
module Sse {
  import opened Wrappers
  import opened Text
  import opened Json
  import opened Models
  import opened Exceptions
  import Parser
  import opened StreamPayload
  import opened Numbers

  // ---------------------------------------------------------------------
  // Event grouping

  /** The two variables `stream` carries across lines: the pending event
      type and the buffered data lines. */
  datatype Accumulator = Accumulator(eventType: Option<string>, buffer: seq<string>)

  const Empty := Accumulator(None, [])

  /** `event_type and data_buffer`. */
  predicate Complete(acc: Accumulator) {
    Truthy(acc.eventType) && acc.buffer != []
  }

  /** An event ready to be converted: its type and its data lines joined
      with no separator. */
  datatype RawEvent = RawEvent(kind: string, data: string)

  function Emit(acc: Accumulator): RawEvent
    requires Complete(acc)
  {
    RawEvent(acc.eventType.value, Concat(acc.buffer))
  }

  /** The final flush: one event if the accumulator is complete. */
  function Flush(acc: Accumulator): seq<RawEvent> {
    if Complete(acc) then [Emit(acc)] else []
  }

  /** A stripped line that is a comment holding the end marker. */
  predicate IsEndLine(line: string) {
    var s := Strip(line);
    s != [] && s[0] == ':' && Contains(s, "[end]")
  }

  /** The effect of a stripped, non-blank, non-comment line: `event`
      replaces the pending type, `data` appends to the buffer, any other
      field and a line without a colon change nothing. */
  function Absorb(acc: Accumulator, line: string): Accumulator {
    if ':' in line then
      var (field, rest) := Partition(line, ':');
      var value := LStrip(rest);
      if field == "event" then acc.(eventType := Some(value))
      else if field == "data" then acc.(buffer := acc.buffer + [value])
      else acc
    else acc
  }

  /** What one line does to the loop: the events it emits and the new
      accumulator, or, for the end marker, the final events and a stop. */
  datatype Next =
    | Continue(emitted: seq<RawEvent>, acc: Accumulator)
    | Stop(emitted: seq<RawEvent>)

  /** One pass of the loop body: a blank line closes a complete event, a
      comment is skipped unless it holds the end marker, and any other
      line is absorbed. */
  function Step(acc: Accumulator, line: string): Next {
    var s := Strip(line);
    if s == [] then
      if Complete(acc) then Continue([Emit(acc)], Empty) else Continue([], acc)
    else if s[0] == ':' then
      if Contains(s, "[end]") then Stop(Flush(acc)) else Continue([], acc)
    else Continue([], Absorb(acc, s))
  }

  /** Where the line loop stands after some lines: the events emitted so
      far, the accumulator carried on, and whether the end marker stopped
      it (in which case the pending event has already been flushed). */
  datatype Run = Run(events: seq<RawEvent>, pending: Accumulator, stopped: bool)

  /** Running the loop body over `lines` from `acc`. */
  function Scan(acc: Accumulator, lines: seq<string>): Run
    decreases |lines|
  {
    if lines == [] then Run([], acc, false)
    else match Step(acc, lines[0])
      case Stop(evs) => Run(evs, Empty, true)
      case Continue(evs, next) =>
        var r := Scan(next, lines[1..]);
        Run(evs + r.events, r.pending, r.stopped)
  }

  /** The name Python gives a decoded non-object value's type. */
  function TypeName(j: Json): string {
    match j
    case JNull => "NoneType"
    case JBool(_) => "bool"
    case JInt(_) => "int"
    case JDecimal(_) => "float"
    case JStr(_) => "str"
    case JArr(_) => "list"
    case JObj(_) => "dict"
  }

  /** `_parse_event`: decode the data, falling back to `{"text": data}`,
      and copy the five well-known fields into a chunk. */
  function ParseEvent(ev: RawEvent, decode: Decoder): Result<MessageChunk, Fault> {
    var parsed := match decode(ev.data)
      case Some(v) => v
      case None => JObj(map["text" := JStr(ev.data)]);
    if !parsed.JObj? then
      Failure(AttributeError("'" + TypeName(parsed) + "' object has no attribute 'get'"))
    else
      var o := parsed.fields;
      match (OptStr(o, "backend_uuid"), OptStr(o, "context_uuid"), OptStr(o, "status"), OptStr(o, "text"), OptStr(o, "cursor"))
      case (Success(backend), Success(context), Success(status), Success(text), Success(cursor)) =>
        Success(MessageChunk(ev.kind, status, o, backend, context, text, cursor, cursor.Some?))
      case (Failure(k), _, _, _, _) => Failure(RecordValidationError(k))
      case (_, Failure(k), _, _, _) => Failure(RecordValidationError(k))
      case (_, _, Failure(k), _, _) => Failure(RecordValidationError(k))
      case (_, _, _, Failure(k), _) => Failure(RecordValidationError(k))
      case (_, _, _, _, Failure(k)) => Failure(RecordValidationError(k))
  }

  /** A converted chunk keeps the event type and the data as the parser's
      fallback decoding gives it, takes each well-known field from that
      data, and is reconnectable exactly when its cursor is not `None`. */
  lemma ParseEventChunk(ev: RawEvent, decode: Decoder)
    requires ParseEvent(ev, decode).Success?
    ensures var c := ParseEvent(ev, decode).value;
      && c.kind == ev.kind
      && JObj(c.data) == Parser.ParseSseData(ev.data, decode)
      && c.reconnectable == c.cursor.Some?
      && OptStr(c.data, "backend_uuid") == Success(c.backendUuid)
      && OptStr(c.data, "context_uuid") == Success(c.contextUuid)
      && OptStr(c.data, "status") == Success(c.status)
      && OptStr(c.data, "text") == Success(c.text)
      && OptStr(c.data, "cursor") == Success(c.cursor)
  {
  }

  /** The conversion fails exactly when the decoded data is not an object
      (no `.get`) or a well-known field is neither a string nor null. */
  lemma ParseEventFails(ev: RawEvent, decode: Decoder)
    ensures var r := ParseEvent(ev, decode); var p := Parser.ParseSseData(ev.data, decode);
      && (r.Failure? && r.error.AttributeError? <==> !p.JObj?)
      && (r.Failure? && r.error.RecordValidationError? <==>
            p.JObj? && exists k | k in WellKnownFields :: OptStr(p.fields, k).Failure?)
      && (r.Failure? ==> r.error.AttributeError? || r.error.RecordValidationError?)
  {
  }

  const WellKnownFields: set<string> := {"backend_uuid", "context_uuid", "status", "text", "cursor"}

  /** Data that is not JSON always converts, into a chunk whose text is the data. */
  lemma PlainTextEvent(ev: RawEvent, decode: Decoder)
    requires decode(ev.data).None?
    ensures ParseEvent(ev, decode).Success?
    ensures var c := ParseEvent(ev, decode).value;
      c.data == map["text" := JStr(ev.data)] && c.text == Some(ev.data) && c.cursor == None && !c.reconnectable
  {
  }

  /** One attempt at the stream as a consumer sees it: the chunks yielded,
      then either a clean end or the exception raised. */
  datatype Attempt = Attempt(chunks: seq<MessageChunk>, fault: Option<Fault>)

  /** `_parse_event` under a fixed JSON decoder. */
  function EventParser(decode: Decoder): RawEvent -> Result<MessageChunk, Fault> {
    ev => ParseEvent(ev, decode)
  }

  /** Converting events in order; the first failure ends the stream. */
  function ConvertAll(evs: seq<RawEvent>, convert: RawEvent -> Result<MessageChunk, Fault>): (r: Attempt)
    ensures |r.chunks| <= |evs|
    decreases |evs|
  {
    if evs == [] then Attempt([], None)
    else match convert(evs[0])
      case Failure(f) => Attempt([], Some(f))
      case Success(c) =>
        var rest := ConvertAll(evs[1..], convert);
        Attempt([c] + rest.chunks, rest.fault)
  }

  /** Converting a concatenation: once the first part converts cleanly,
      the second part's chunks follow, and its fault is the outcome's. */
  lemma {:induction false} ConvertAllAppend(a: seq<RawEvent>, b: seq<RawEvent>, convert: RawEvent -> Result<MessageChunk, Fault>)
    requires ConvertAll(a, convert).fault.None?
    ensures ConvertAll(a + b, convert)
      == Attempt(ConvertAll(a, convert).chunks + ConvertAll(b, convert).chunks, ConvertAll(b, convert).fault)
    decreases |a|
  {
    if a == [] {
      assert a + b == b;
    } else {
      assert (a + b)[0] == a[0];
      assert (a + b)[1..] == a[1..] + b;
      assert convert(a[0]).Success?;
      var c := convert(a[0]).value;
      var tail := ConvertAll(a[1..], convert);
      var bs := ConvertAll(b, convert);
      assert ConvertAll(a, convert) == Attempt([c] + tail.chunks, tail.fault);
      ConvertAllAppend(a[1..], b, convert);
      assert ConvertAll(a + b, convert) == Attempt([c] + (tail.chunks + bs.chunks), bs.fault);
      Regroup([c], tail.chunks, bs.chunks);
    }
  }

  /** Converting a single event. */
  lemma ConvertOne(ev: RawEvent, convert: RawEvent -> Result<MessageChunk, Fault>)
    ensures convert(ev).Failure? ==> ConvertAll([ev], convert) == Attempt([], Some(convert(ev).error))
    ensures convert(ev).Success? ==> ConvertAll([ev], convert) == Attempt([convert(ev).value], None)
  {
    assert [ev][1..] == [];
  }

  /** What the line loop yields for a response body: the chunks of the
      events, in order, until the first conversion failure. When the body
      ends without an end marker, the pending event is flushed, unless
      reading failed there: then the read failure is raised instead. */
  function LinesOutcome(lines: seq<string>, readFault: Option<Fault>, decode: Decoder): Attempt {
    var run := Scan(Empty, lines);
    var broken := !run.stopped && readFault.Some?;
    var evs := if run.stopped || broken then run.events else run.events + Flush(run.pending);
    var r := ConvertAll(evs, EventParser(decode));
    if r.fault.Some? || !broken then r else Attempt(r.chunks, readFault)
  }

  /** Once a prefix of the events fails to convert, what follows it does
      not matter. */
  lemma {:induction false} ConvertAllFaulted(a: seq<RawEvent>, b: seq<RawEvent>, convert: RawEvent -> Result<MessageChunk, Fault>)
    requires ConvertAll(a, convert).fault.Some?
    ensures ConvertAll(a + b, convert) == ConvertAll(a, convert)
    decreases |a|
  {
    assert a != [];
    assert (a + b)[0] == a[0];
    assert (a + b)[1..] == a[1..] + b;
    if convert(a[0]).Success? {
      ConvertAllFaulted(a[1..], b, convert);
    }
  }

  lemma OutcomeStopped(lines: seq<string>, readFault: Option<Fault>, decode: Decoder)
    requires Scan(Empty, lines).stopped
    ensures LinesOutcome(lines, readFault, decode) == ConvertAll(Scan(Empty, lines).events, EventParser(decode))
  {
  }

  lemma OutcomeFaulted(lines: seq<string>, readFault: Option<Fault>, decode: Decoder, prefix: seq<RawEvent>, rest: seq<RawEvent>)
    requires Scan(Empty, lines).events == prefix + rest
    requires ConvertAll(prefix, EventParser(decode)).fault.Some?
    ensures LinesOutcome(lines, readFault, decode) == ConvertAll(prefix, EventParser(decode))
  {
    var run := Scan(Empty, lines);
    ConvertAllFaulted(prefix, rest, EventParser(decode));
    ConvertAllFaulted(prefix, rest + Flush(run.pending), EventParser(decode));
    Regroup(prefix, rest, Flush(run.pending));
  }

  lemma OutcomeExhausted(lines: seq<string>, readFault: Option<Fault>, decode: Decoder, emitted: seq<RawEvent>, acc: Accumulator)
    requires Scan(Empty, lines) == Run(emitted, acc, false)
    ensures readFault.None? ==> LinesOutcome(lines, readFault, decode) == ConvertAll(emitted + Flush(acc), EventParser(decode))
    ensures readFault.Some? && ConvertAll(emitted, EventParser(decode)).fault.None? ==>
      LinesOutcome(lines, readFault, decode) == Attempt(ConvertAll(emitted, EventParser(decode)).chunks, readFault)
  {
  }

  /** The response to the streaming request. */
  datatype Response =
    | Refused(error: Fault)
    | Received(status: int, lines: seq<string>, readFault: Option<Fault>)

  /** `raise_for_status`: anything outside 2xx fails before a line is read. */
  function StatusFault(status: int): Fault {
    HttpLibraryError("HTTP status " + IntToString(status))
  }

  function Outcome(resp: Response, decode: Decoder): Attempt {
    match resp
    case Refused(f) => Attempt([], Some(f))
    case Received(status, lines, readFault) =>
      if 200 <= status < 300 then LinesOutcome(lines, readFault, decode)
      else Attempt([], Some(StatusFault(status)))
  }

  /** `SSETransport.stream`: build the payload, check the status, and run
      the line loop. Returns the payload sent and what the consumer sees. */
  method Stream(req: StreamRequest, resp: Response, decode: Decoder) returns (payload: map<string, Json>, out: Attempt)
    ensures payload == Payload(req)
    ensures out == Outcome(resp, decode)
  {
    payload := BuildPayload(req);
    match resp {
      case Refused(f) =>
        out := Attempt([], Some(f));
      case Received(status, lines, readFault) =>
        if 200 <= status < 300 {
          out := ReadEvents(lines, readFault, decode);
        } else {
          out := Attempt([], Some(StatusFault(status)));
        }
    }
  }

  /** Converts the accumulated event, if complete, after the chunks
      already yielded for `emitted`. */
  method FlushPending(eventType: Option<string>, buffer: seq<string>, chunks: seq<MessageChunk>,
                      ghost emitted: seq<RawEvent>, decode: Decoder) returns (out: Attempt)
    requires ConvertAll(emitted, EventParser(decode)) == Attempt(chunks, None)
    ensures out == ConvertAll(emitted + Flush(Accumulator(eventType, buffer)), EventParser(decode))
  {
    var acc := Accumulator(eventType, buffer);
    ConvertAllAppend(emitted, Flush(acc), EventParser(decode));
    if Truthy(eventType) && buffer != [] {
      var ev := RawEvent(eventType.value, Concat(buffer));
      var r := ParseEvent(ev, decode);
      assert EventParser(decode)(ev) == r;
      if r.Failure? {
        return Attempt(chunks, Some(r.error));
      }
      return Attempt(chunks + [r.value], None);
    }
    return Attempt(chunks, None);
  }

  /** The line loop of `stream`, with its two accumulator variables. */
  method ReadEvents(lines: seq<string>, readFault: Option<Fault>, decode: Decoder) returns (out: Attempt)
    ensures out == LinesOutcome(lines, readFault, decode)
  {
    var eventType: Option<string> := None;
    var buffer: seq<string> := [];
    var chunks: seq<MessageChunk> := [];
    ghost var emitted: seq<RawEvent> := [];
    var i := 0;
    ScannedStart(lines);
    while i < |lines|
      invariant 0 <= i <= |lines|
      invariant ScannedTo(lines, i, emitted, Accumulator(eventType, buffer))
      invariant ConvertAll(emitted, EventParser(decode)) == Attempt(chunks, None)
    {
      ghost var acc := Accumulator(eventType, buffer);
      var line := Strip(lines[i]);
      if line == [] {
        if Truthy(eventType) && buffer != [] {
          AdvanceEmit(lines, i, emitted, acc);
          var step := FlushPending(eventType, buffer, chunks, emitted, decode);
          if step.fault.Some? {
            FaultAt(lines, i + 1, emitted + [Emit(acc)], Empty, readFault, decode);
            return step;
          }
          chunks := step.chunks;
          emitted := emitted + [Emit(acc)];
          eventType := None;
          buffer := [];
        } else {
          AdvanceBlank(lines, i, emitted, acc);
        }
      } else if line[0] == ':' {
        if Contains(line, "[end]") {
          StopAt(lines, i, emitted, acc, readFault, decode);
          out := FlushPending(eventType, buffer, chunks, emitted, decode);
          return;
        }
        AdvanceComment(lines, i, emitted, acc);
      } else {
        AdvanceField(lines, i, emitted, acc);
        eventType, buffer := ReadField(line, eventType, buffer);
      }
      i := i + 1;
    }
    ExhaustedAt(lines, emitted, Accumulator(eventType, buffer), readFault, decode);
    if readFault.Some? {
      return Attempt(chunks, readFault);
    }
    out := FlushPending(eventType, buffer, chunks, emitted, decode);
  }

  /** A field line: `event` replaces the pending type, `data` appends its
      value, anything else is ignored. */
  method ReadField(line: string, eventType: Option<string>, buffer: seq<string>) returns (eventType': Option<string>, buffer': seq<string>)
    ensures Accumulator(eventType', buffer') == Absorb(Accumulator(eventType, buffer), line)
  {
    eventType', buffer' := eventType, buffer;
    if ':' in line {
      var (field, rest) := Partition(line, ':');
      var value := LStrip(rest);
      if field == "event" {
        eventType' := Some(value);
      } else if field == "data" {
        buffer' := buffer + [value];
      }
    }
  }

  /** After the first `i` lines the loop has emitted `emitted` and holds
      `acc`: scanning the rest from `acc` completes the whole scan. */
  ghost predicate ScannedTo(lines: seq<string>, i: nat, emitted: seq<RawEvent>, acc: Accumulator)
    requires i <= |lines|
  {
    var r := Scan(acc, lines[i..]);
    Scan(Empty, lines) == Run(emitted + r.events, r.pending, r.stopped)
  }

  lemma Advance(lines: seq<string>, i: nat, emitted: seq<RawEvent>, acc: Accumulator, produced: seq<RawEvent>, next: Accumulator)
    requires i < |lines|
    requires ScannedTo(lines, i, emitted, acc)
    requires Step(acc, lines[i]) == Continue(produced, next)
    ensures ScannedTo(lines, i + 1, emitted + produced, next)
  {
    ScanAt(acc, lines, i);
    Regroup(emitted, produced, Scan(next, lines[i + 1..]).events);
  }

  /** Before the first line nothing is emitted and the accumulator is empty. */
  lemma ScannedStart(lines: seq<string>)
    ensures ScannedTo(lines, 0, [], Empty)
  {
    DropNone(lines);
    EmptyAppend(Scan(Empty, lines).events);
  }

  /** A line that emits nothing only moves the accumulator on. */
  lemma Skip(lines: seq<string>, i: nat, emitted: seq<RawEvent>, acc: Accumulator, next: Accumulator)
    requires i < |lines|
    requires ScannedTo(lines, i, emitted, acc)
    requires Step(acc, lines[i]) == Continue([], next)
    ensures ScannedTo(lines, i + 1, emitted, next)
  {
    ScanAt(acc, lines, i);
    EmptyAppend(Scan(next, lines[i + 1..]).events);
  }

  /** A blank line emits the accumulated event when it is complete... */
  lemma AdvanceEmit(lines: seq<string>, i: nat, emitted: seq<RawEvent>, acc: Accumulator)
    requires i < |lines| && Strip(lines[i]) == [] && Complete(acc)
    requires ScannedTo(lines, i, emitted, acc)
    ensures ScannedTo(lines, i + 1, emitted + [Emit(acc)], Empty)
  {
    Advance(lines, i, emitted, acc, [Emit(acc)], Empty);
  }

  /** ... and otherwise changes nothing. */
  lemma AdvanceBlank(lines: seq<string>, i: nat, emitted: seq<RawEvent>, acc: Accumulator)
    requires i < |lines| && Strip(lines[i]) == [] && !Complete(acc)
    requires ScannedTo(lines, i, emitted, acc)
    ensures ScannedTo(lines, i + 1, emitted, acc)
  {
    Skip(lines, i, emitted, acc, acc);
  }

  /** A comment without the end marker changes nothing. */
  lemma AdvanceComment(lines: seq<string>, i: nat, emitted: seq<RawEvent>, acc: Accumulator)
    requires i < |lines|
    requires var s := Strip(lines[i]); s != [] && s[0] == ':' && !Contains(s, "[end]")
    requires ScannedTo(lines, i, emitted, acc)
    ensures ScannedTo(lines, i + 1, emitted, acc)
  {
    Skip(lines, i, emitted, acc, acc);
  }

  /** Any other line is absorbed into the accumulator. */
  lemma AdvanceField(lines: seq<string>, i: nat, emitted: seq<RawEvent>, acc: Accumulator)
    requires i < |lines|
    requires var s := Strip(lines[i]); s != [] && s[0] != ':'
    requires ScannedTo(lines, i, emitted, acc)
    ensures ScannedTo(lines, i + 1, emitted, Absorb(acc, Strip(lines[i])))
  {
    Skip(lines, i, emitted, acc, Absorb(acc, Strip(lines[i])));
  }

  /** The end marker flushes the accumulator and ends the loop. */
  lemma StopAt(lines: seq<string>, i: nat, emitted: seq<RawEvent>, acc: Accumulator, readFault: Option<Fault>, decode: Decoder)
    requires i < |lines|
    requires var s := Strip(lines[i]); s != [] && s[0] == ':' && Contains(s, "[end]")
    requires ScannedTo(lines, i, emitted, acc)
    ensures LinesOutcome(lines, readFault, decode) == ConvertAll(emitted + Flush(acc), EventParser(decode))
  {
    ScanAt(acc, lines, i);
    OutcomeStopped(lines, readFault, decode);
  }

  /** A conversion failure of an emitted event ends the loop with it. */
  lemma FaultAt(lines: seq<string>, i: nat, emitted: seq<RawEvent>, acc: Accumulator, readFault: Option<Fault>, decode: Decoder)
    requires i <= |lines|
    requires ScannedTo(lines, i, emitted, acc)
    requires ConvertAll(emitted, EventParser(decode)).fault.Some?
    ensures LinesOutcome(lines, readFault, decode) == ConvertAll(emitted, EventParser(decode))
  {
    var rest := Scan(acc, lines[i..]).events;
    OutcomeFaulted(lines, readFault, decode, emitted, rest);
  }

  /** All lines read without an end marker. */
  lemma ExhaustedAt(lines: seq<string>, emitted: seq<RawEvent>, acc: Accumulator, readFault: Option<Fault>, decode: Decoder)
    requires ScannedTo(lines, |lines|, emitted, acc)
    ensures readFault.None? ==> LinesOutcome(lines, readFault, decode) == ConvertAll(emitted + Flush(acc), EventParser(decode))
    ensures readFault.Some? && ConvertAll(emitted, EventParser(decode)).fault.None? ==>
      LinesOutcome(lines, readFault, decode) == Attempt(ConvertAll(emitted, EventParser(decode)).chunks, readFault)
  {
    DropAll(lines);
    AppendEmpty(emitted);
    OutcomeExhausted(lines, readFault, decode, emitted, acc);
  }

  lemma EmptyAppend<T>(s: seq<T>)
    ensures [] + s == s
  {
  }

  lemma AppendEmpty<T>(s: seq<T>)
    ensures s + [] == s
  {
  }

  lemma DropNone<T>(s: seq<T>)
    ensures s[0..] == s
  {
  }

  lemma DropAll<T>(s: seq<T>)
    ensures s[|s|..] == []
  {
  }

  lemma Regroup<T>(a: seq<T>, b: seq<T>, c: seq<T>)
    ensures a + (b + c) == (a + b) + c
  {
  }

  /** `Step` on a blank line. */
  lemma StepBlank(acc: Accumulator, line: string)
    requires Strip(line) == []
    ensures Step(acc, line) == if Complete(acc) then Continue([Emit(acc)], Empty) else Continue([], acc)
  {
  }

  /** `Step` on a comment. */
  lemma StepComment(acc: Accumulator, line: string)
    requires var s := Strip(line); s != [] && s[0] == ':'
    ensures Step(acc, line) == if Contains(Strip(line), "[end]") then Stop(Flush(acc)) else Continue([], acc)
  {
  }

  /** `Step` on any other line. */
  lemma StepField(acc: Accumulator, line: string)
    requires var s := Strip(line); s != [] && s[0] != ':'
    ensures Step(acc, line) == Continue([], Absorb(acc, Strip(line)))
  {
  }

  /** `Scan` from position `i`, unfolded once. */
  lemma ScanAt(acc: Accumulator, lines: seq<string>, i: nat)
    requires i < |lines|
    ensures Scan(acc, lines[i..]) == match Step(acc, lines[i])
      case Stop(evs) => Run(evs, Empty, true)
      case Continue(evs, next) =>
        var r := Scan(next, lines[i + 1..]);
        Run(evs + r.events, r.pending, r.stopped)
  {
    assert lines[i..][0] == lines[i];
    assert lines[i..][1..] == lines[i + 1..];
  }
}
