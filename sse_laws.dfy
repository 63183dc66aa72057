/** Properties of the line loop of pplx_sdk/transport/sse.py that relate
    several lines or several runs: how a field line agrees with the line
    parser, what comments and the end marker do to the rest of the stream,
    how many chunks a body can yield, and how events written out as lines
    are read back. */
module SseLaws {
  import opened Wrappers
  import opened Text
  import opened Json
  import opened Exceptions
  import Parser
  import opened Sse

  // ---------------------------------------------------------------------
  // The loop agrees with the line parser

  /** For a line that is neither blank nor a comment, the loop's own split
      at the first colon gives the same field and value as `parse_sse_line`:
      `event` sets the pending type to the parsed value, `data` appends the
      parsed value, and a line the parser gives another field, or rejects,
      changes nothing. */
  lemma AbsorbMatchesParser(acc: Accumulator, line: string)
    requires var s := Strip(line); s != [] && s[0] != ':'
    ensures var fv := Parser.ParseSseLine(line);
      fv.field == Some("event") ==> Absorb(acc, Strip(line)) == acc.(eventType := fv.value)
    ensures var fv := Parser.ParseSseLine(line);
      fv.field == Some("data") ==> fv.value.Some? && Absorb(acc, Strip(line)) == acc.(buffer := acc.buffer + [fv.value.value])
    ensures var fv := Parser.ParseSseLine(line);
      fv.field != Some("event") && fv.field != Some("data") ==> Absorb(acc, Strip(line)) == acc
  {
  }

  /** A line `parse_sse_line` reads as a `data` field. */
  predicate IsDataLine(line: string) {
    Parser.ParseSseLine(line).field == Some("data")
  }

  /** The number of data lines. */
  function DataLines(lines: seq<string>): (n: nat)
    ensures n <= |lines|
    decreases |lines|
  {
    if lines == [] then 0 else (if IsDataLine(lines[0]) then 1 else 0) + DataLines(lines[1..])
  }

  /** The step on a blank line or a comment never touches the buffer, and
      neither of them is a data line. */
  lemma NotDataLine(line: string)
    requires var s := Strip(line); s == [] || s[0] == ':'
    ensures !IsDataLine(line)
  {
  }

  // ---------------------------------------------------------------------
  // Blank lines and comments

  /** A blank line while the accumulator is incomplete leaves it as it is:
      the type of an event is not forgotten by an early blank line. */
  lemma BlankKeepsIncomplete(acc: Accumulator, line: string)
    requires Strip(line) == [] && !Complete(acc)
    ensures Step(acc, line) == Continue([], acc)
  {
  }

  /** A comment without the end marker leaves the accumulator as it is. */
  predicate IsPlainComment(line: string) {
    var s := Strip(line);
    s != [] && s[0] == ':' && !Contains(s, "[end]")
  }

  /** Such a comment can be inserted anywhere in a body without changing
      the scan. */
  lemma {:induction false} CommentTransparent(acc: Accumulator, pre: seq<string>, c: string, post: seq<string>)
    requires IsPlainComment(c)
    ensures Scan(acc, pre + [c] + post) == Scan(acc, pre + post)
    decreases |pre|
  {
    if pre == [] {
      assert pre + [c] + post == [c] + post;
      assert pre + post == post;
      assert ([c] + post)[1..] == post;
      assert Step(acc, c) == Continue([], acc);
      EmptyAppend(Scan(acc, post).events);
    } else {
      var lines := pre + [c] + post;
      assert lines[0] == pre[0] && (pre + post)[0] == pre[0];
      assert lines[1..] == pre[1..] + [c] + post;
      assert (pre + post)[1..] == pre[1..] + post;
      match Step(acc, pre[0])
      case Stop(_) =>
      case Continue(_, next) =>
        CommentTransparent(next, pre[1..], c, post);
    }
  }

  // ---------------------------------------------------------------------
  // The end marker

  /** Reading stops at the first end marker: what follows it, including a
      read failure after it, cannot change the scan. */
  lemma {:induction false} EndCutsOff(acc: Accumulator, pre: seq<string>, e: string, post: seq<string>)
    requires IsEndLine(e)
    ensures Scan(acc, pre + [e] + post) == Scan(acc, pre + [e])
    ensures Scan(acc, pre + [e]).stopped
    decreases |pre|
  {
    var lines := pre + [e] + post;
    if pre == [] {
      assert lines == [e] + post;
      assert lines[0] == e && (pre + [e])[0] == e;
    } else {
      assert lines[0] == pre[0] && (pre + [e])[0] == pre[0];
      assert lines[1..] == pre[1..] + [e] + post;
      assert (pre + [e])[1..] == pre[1..] + [e];
      match Step(acc, pre[0])
      case Stop(_) =>
      case Continue(_, next) =>
        EndCutsOff(next, pre[1..], e, post);
    }
  }

  /** The end marker itself flushes a complete pending event before the
      loop ends. */
  lemma EndFlushes(acc: Accumulator, e: string, post: seq<string>)
    requires IsEndLine(e)
    ensures Scan(acc, [e] + post) == Run(Flush(acc), Empty, true)
  {
    assert ([e] + post)[0] == e;
  }

  /** Two bodies that agree up to an end marker yield the same chunks and
      the same fault, whatever follows and whether reading fails later. */
  lemma EndIgnoresRest(pre: seq<string>, e: string, post1: seq<string>, post2: seq<string>,
                       readFault1: Option<Fault>, readFault2: Option<Fault>, decode: Decoder)
    requires IsEndLine(e)
    ensures LinesOutcome(pre + [e] + post1, readFault1, decode) == LinesOutcome(pre + [e] + post2, readFault2, decode)
  {
    EndCutsOff(Empty, pre, e, post1);
    EndCutsOff(Empty, pre, e, post2);
  }

  // ---------------------------------------------------------------------
  // At most one chunk per data line

  /** 1 when the buffer holds a data line, 0 otherwise. */
  function Pending(acc: Accumulator): nat {
    if acc.buffer == [] then 0 else 1
  }

  /** Every emitted event, and a non-empty buffer left over, is paid for by
      a data line of its own. */
  lemma {:induction false} ScanBound(acc: Accumulator, lines: seq<string>)
    ensures var r := Scan(acc, lines); |r.events| + Pending(r.pending) <= Pending(acc) + DataLines(lines)
    decreases |lines|
  {
    if lines != [] {
      ScanAt(acc, lines, 0);
      DropNone(lines);
      StepBound(acc, lines[0]);
      match Step(acc, lines[0])
      case Stop(_) =>
      case Continue(_, next) =>
        ScanBound(next, lines[1..]);
    }
  }

  /** One line: only a data line can fill an empty buffer, and an event
      is emitted only from a full one, which is then emptied. */
  lemma StepBound(acc: Accumulator, line: string)
    ensures match Step(acc, line)
      case Stop(evs) => |evs| <= Pending(acc)
      case Continue(evs, next) => |evs| + Pending(next) <= Pending(acc) + (if IsDataLine(line) then 1 else 0)
  {
    var s := Strip(line);
    if s == [] {
      NotDataLine(line);
      StepBlank(acc, line);
    } else if s[0] == ':' {
      NotDataLine(line);
      StepComment(acc, line);
    } else {
      StepField(acc, line);
      AbsorbMatchesParser(acc, line);
    }
  }

  /** A response body yields at most as many chunks as it has data lines. */
  lemma ChunkBound(lines: seq<string>, readFault: Option<Fault>, decode: Decoder)
    ensures |LinesOutcome(lines, readFault, decode).chunks| <= DataLines(lines)
  {
    ScanBound(Empty, lines);
    var run := Scan(Empty, lines);
    assert |Flush(run.pending)| <= Pending(run.pending);
  }

  // ---------------------------------------------------------------------
  // Events written as lines are read back

  /** The three lines a server sends for one event. */
  function EventLines(ev: RawEvent): seq<string> {
    ["event: " + ev.kind, "data: " + ev.data, ""]
  }

  function Encode(evs: seq<RawEvent>): seq<string>
    decreases |evs|
  {
    if evs == [] then [] else EventLines(evs[0]) + Encode(evs[1..])
  }

  /** An event the loop can carry: a non-empty type, a type and data that
      `strip()` leaves alone, and no line break in either, since the body
      is split into lines before the loop sees it. */
  predicate Encodable(ev: RawEvent) {
    && ev.kind != [] && Strip(ev.kind) == ev.kind && Strip(ev.data) == ev.data
    && '\n' !in ev.kind && '\r' !in ev.kind && '\n' !in ev.data && '\r' !in ev.data
  }

  /** Reading the lines of encodable events gives back those events, then
      whatever the rest of the body gives. */
  lemma {:induction false} ScanEncoded(evs: seq<RawEvent>, tail: seq<string>)
    requires forall k :: 0 <= k < |evs| ==> Encodable(evs[k])
    ensures var r := Scan(Empty, tail);
      Scan(Empty, Encode(evs) + tail) == Run(evs + r.events, r.pending, r.stopped)
    decreases |evs|
  {
    var r := Scan(Empty, tail);
    if evs == [] {
      EmptyAppend(tail);
      EmptyAppend(r.events);
    } else {
      var ev := evs[0];
      var rest := Encode(evs[1..]) + tail;
      Regroup(EventLines(ev), Encode(evs[1..]), tail);
      ScanEncoded(evs[1..], tail);
      ScanOneEvent(ev, rest);
      Regroup([ev], evs[1..], r.events);
      ConsTail(evs);
    }
  }

  lemma ConsTail<T>(s: seq<T>)
    requires s != []
    ensures [s[0]] + s[1..] == s
  {
  }

  /** The three lines of one event emit it and return to the empty
      accumulator. */
  lemma ScanOneEvent(ev: RawEvent, rest: seq<string>)
    requires Encodable(ev)
    ensures var r := Scan(Empty, rest);
      Scan(Empty, EventLines(ev) + rest) == Run([ev] + r.events, r.pending, r.stopped)
  {
    var withType := Accumulator(Some(ev.kind), []);
    var withData := Accumulator(Some(ev.kind), [ev.data]);
    var l1, l2 := "event: " + ev.kind, "data: " + ev.data;
    Cons3(l1, l2, "", rest);
    EventLineStep(Empty, ev.kind);
    DataLineStep(withType, ev.data);
    EmptyAppend([ev.data]);
    StripEmpty();
    BlankEmits(ev, "");
    ScanEmitFirst(withData, "", rest, ev, Empty);
    ScanSkipFirst(withType, l2, [""] + rest, withData);
    ScanSkipFirst(Empty, l1, [l2] + ([""] + rest), withType);
  }

  lemma EventLineStep(acc: Accumulator, k: string)
    requires Strip(k) == k
    ensures Step(acc, "event: " + k) == Continue([], acc.(eventType := Some(k)))
  {
    EventPrefix(k);
    FieldStep(acc, "event", k);
  }

  lemma DataLineStep(acc: Accumulator, d: string)
    requires Strip(d) == d
    ensures Step(acc, "data: " + d) == Continue([], acc.(buffer := acc.buffer + [d]))
  {
    DataPrefix(d);
    FieldStep(acc, "data", d);
  }

  lemma EventPrefix(k: string)
    ensures "event" + ": " + k == "event: " + k
  {
    assert "event" + ": " == "event: ";
  }

  lemma DataPrefix(d: string)
    ensures "data" + ": " + d == "data: " + d
  {
    assert "data" + ": " == "data: ";
  }

  lemma Cons3<T>(a: T, b: T, c: T, rest: seq<T>)
    ensures [a, b, c] + rest == [a] + ([b] + ([c] + rest))
  {
  }

  /** The blank line after an event's two lines emits it. */
  lemma BlankEmits(ev: RawEvent, blank: string)
    requires ev.kind != [] && Strip(blank) == []
    ensures Step(Accumulator(Some(ev.kind), [ev.data]), blank) == Continue([ev], Empty)
  {
    StepBlank(Accumulator(Some(ev.kind), [ev.data]), blank);
    assert Concat([ev.data]) == ev.data by {
      assert [ev.data][1..] == [];
      AppendEmpty(ev.data);
    }
  }

  lemma StripEmpty()
    ensures Strip("") == []
  {
  }

  /** A first line that emits nothing only moves the accumulator on. */
  lemma ScanSkipFirst(acc: Accumulator, line: string, rest: seq<string>, next: Accumulator)
    requires Step(acc, line) == Continue([], next)
    ensures Scan(acc, [line] + rest) == Scan(next, rest)
  {
    ScanAt(acc, [line] + rest, 0);
    DropNone([line] + rest);
    assert ([line] + rest)[1..] == rest;
    EmptyAppend(Scan(next, rest).events);
  }

  /** A first line that emits one event puts it in front of the rest. */
  lemma ScanEmitFirst(acc: Accumulator, line: string, rest: seq<string>, ev: RawEvent, next: Accumulator)
    requires Step(acc, line) == Continue([ev], next)
    ensures var r := Scan(next, rest); Scan(acc, [line] + rest) == Run([ev] + r.events, r.pending, r.stopped)
  {
    ScanAt(acc, [line] + rest, 0);
    DropNone([line] + rest);
    assert ([line] + rest)[1..] == rest;
  }

  /** The line `f + ": " + x`, for a trimmed `x` and a field name `f`
      without surrounding whitespace, stores `x` when `f` is `event` or
      `data` and is ignored otherwise. */
  lemma FieldStep(acc: Accumulator, f: string, x: string)
    requires f != [] && ':' !in f && !IsSpace(f[0]) && !IsSpace(f[|f| - 1])
    requires Strip(x) == x
    ensures Step(acc, f + ": " + x) == Continue([],
      if f == "event" then acc.(eventType := Some(x))
      else if f == "data" then acc.(buffer := acc.buffer + [x])
      else acc)
  {
    FieldLineSplits(f, x);
    StepOfFieldLine(acc, f + ": " + x);
    FieldAbsorb(acc, f, x);
  }

  lemma StepOfFieldLine(acc: Accumulator, line: string)
    requires var s := Strip(line); s != [] && s[0] != ':'
    ensures Step(acc, line) == Continue([], Absorb(acc, Strip(line)))
  {
  }

  lemma FieldAbsorb(acc: Accumulator, f: string, x: string)
    requires f != [] && ':' !in f && !IsSpace(f[0]) && !IsSpace(f[|f| - 1])
    requires Strip(x) == x
    ensures Absorb(acc, Strip(f + ": " + x)) ==
      if f == "event" then acc.(eventType := Some(x))
      else if f == "data" then acc.(buffer := acc.buffer + [x])
      else acc
  {
    FieldLineSplits(f, x);
    TrimmedAfterSpace(x);
  }

  /** Such a line, once stripped, splits at its first colon into `f` and
      the right-stripped `" " + x`. */
  lemma FieldLineSplits(f: string, x: string)
    requires f != [] && ':' !in f && !IsSpace(f[0]) && !IsSpace(f[|f| - 1])
    ensures var s := Strip(f + ": " + x);
      s != [] && s[0] == f[0] && ':' in s && Partition(s, ':') == (f, RStrip(" " + x))
  {
    StripFieldLine(f, x);
    PartitionOf(f, ':', RStrip(" " + x));
  }

  /** Stripping such a line only right-strips what follows the colon. */
  lemma StripFieldLine(f: string, x: string)
    requires f != [] && !IsSpace(f[0])
    ensures Strip(f + ": " + x) == f + [':'] + RStrip(" " + x)
  {
    var p := f + ":";
    assert ":" + " " == ": ";
    Regroup(f, ":", " ");
    Regroup(p, " ", x);
    StripAfterPrefix(p, " " + x);
  }

  /** Left- and right-stripping `" " + x` gives back a trimmed `x`. */
  lemma TrimmedAfterSpace(x: string)
    requires Strip(x) == x
    ensures LStrip(RStrip(" " + x)) == x
  {
    if x == [] {
      assert RStrip(" ") == [];
    } else {
      assert !IsSpace(x[|x| - 1]);
      assert LStrip(x) == x;
      assert (" " + x)[|" " + x| - 1] == x[|x| - 1];
      assert RStrip(" " + x) == " " + x;
      assert (" " + x)[1..] == x;
    }
  }

  /** Encoding and reading back, for a whole body that ends cleanly: the
      consumer sees exactly the conversions of the encoded events. */
  lemma EncodeRoundTrip(evs: seq<RawEvent>, decode: Decoder)
    requires forall k :: 0 <= k < |evs| ==> Encodable(evs[k])
    ensures LinesOutcome(Encode(evs), None, decode) == ConvertAll(evs, EventParser(decode))
  {
    ScanEncoded(evs, []);
    assert Encode(evs) + [] == Encode(evs);
    AppendEmpty(evs);
  }
}
