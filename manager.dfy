/** pplx_sdk/streaming/manager.py: the retrying, resuming stream and its
    wall-clock guard.

    The transport is an oracle that tells what each opening of the stream
    yields for the request it is given; the sleeps between attempts are
    recorded as a sequence of delays in milliseconds, and the clock is a
    sequence of readings in milliseconds. */
module Manager {
  import opened Wrappers
  import opened Text
  import opened Json
  import opened Exceptions
  import opened Models
  import opened StreamPayload
  import opened Numbers
  import opened Sse

  /** `StreamManager.__init__`. */
  datatype Config = Config(maxRetries: int, retryBackoffMs: int, timeoutMs: int)

  const Defaults := Config(3, 1500, 30000)

  /** The transport: the chunks yielded by the `n`-th opening of the
      stream (counting from zero) for the request it is given, and the
      exception that ended it, if any. */
  type Server = (nat, StreamRequest) -> Attempt

  // ---------------------------------------------------------------------
  // Resume state

  /** The two variables carried across attempts: the resume cursor and the
      backend ids seen so far. */
  datatype Session = Session(cursor: Option<string>, resume: seq<string>)

  const Fresh := Session(None, [])

  /** What one yielded chunk does to the resume state: a truthy cursor
      replaces the stored one when reconnection is enabled, and a truthy
      backend id not seen before is appended. */
  function Track(s: Session, c: MessageChunk, reconnectable: bool): Session {
    var cursor := if reconnectable && Truthy(c.cursor) then c.cursor else s.cursor;
    var resume :=
      if Truthy(c.backendUuid) && c.backendUuid.value !in s.resume then s.resume + [c.backendUuid.value]
      else s.resume;
    Session(cursor, resume)
  }

  function TrackAll(s: Session, cs: seq<MessageChunk>, reconnectable: bool): Session
    decreases |cs|
  {
    if cs == [] then s else TrackAll(Track(s, cs[0], reconnectable), cs[1..], reconnectable)
  }

  /** The arguments of one opening: the caller's, with the current cursor,
      and the resume list, or `None` while it is empty. */
  function Request(base: StreamRequest, s: Session): StreamRequest {
    base.(cursor := s.cursor, resumeEntryUuids := if s.resume == [] then None else Some(s.resume))
  }

  // ---------------------------------------------------------------------
  // The retry loop

  /** The delay before the `k`-th retry. */
  function Backoff(cfg: Config, k: nat): int
    requires k >= 1
  {
    cfg.retryBackoffMs * Pow(2, k - 1)
  }

  /** The synthetic chunk announcing the `k`-th retry. */
  function ErrorChunk(e: Fault, k: nat, backoffMs: int, contextUuid: string): MessageChunk {
    MessageChunk("error", Some("retrying"),
      map["error" := JStr(FaultMessage(e)), "retry_count" := JInt(k), "backoff_seconds" := JDecimal(backoffMs)],
      None, Some(contextUuid), None, None, false)
  }

  /** Everything the consumer and the environment see: the chunks yielded,
      the exception raised at the end, if any, the requests the transport
      received and the delays slept. */
  datatype Trace = Trace(chunks: seq<MessageChunk>, fault: Option<Fault>, sent: seq<StreamRequest>, sleeps: seq<int>)

  /** A clean trace followed by another. */
  function Then(t: Trace, u: Trace): Trace {
    Trace(t.chunks + u.chunks, u.fault, t.sent + u.sent, t.sleeps + u.sleeps)
  }

  /** Whether an attempt ends the loop: it ended cleanly, or its fault is
      raised again because the retries are used up, reconnection is off or
      no truthy cursor has been seen. */
  predicate Stops(cfg: Config, reconnectable: bool, r: nat, a: Attempt, next: Session) {
    a.fault.None? || r + 1 > cfg.maxRetries || !reconnectable || !Truthy(next.cursor)
  }

  /** An attempt's chunks and the error chunk, followed by the rest of the
      loop after the given sleep. */
  function Retried(cs: seq<MessageChunk>, error: MessageChunk, req: StreamRequest, ms: int, rest: Trace): Trace {
    Trace(cs + [error] + rest.chunks, rest.fault, [req] + rest.sent, [ms] + rest.sleeps)
  }

  /** The loop from `retry_count == r` with resume state `s`. An attempt
      that stops the loop ends the trace with its own fault, if any;
      otherwise an error chunk is yielded, the backoff slept, and the
      stream reopened. A negative backoff makes `time.sleep` raise, after
      the error chunk and before any reopening. */
  function Retrying(cfg: Config, base: StreamRequest, reconnectable: bool, server: Server, r: nat, s: Session): Trace
    decreases if r <= cfg.maxRetries then cfg.maxRetries + 1 - r else 0
  {
    if r > cfg.maxRetries then Trace([], None, [], [])
    else
      var req := Request(base, s);
      var a := server(r, req);
      var next := TrackAll(s, a.chunks, reconnectable);
      if Stops(cfg, reconnectable, r, a, next) then Trace(a.chunks, a.fault, [req], [])
      else
        var ms := Backoff(cfg, r + 1);
        var error := ErrorChunk(a.fault.value, r + 1, ms, base.contextUuid);
        if ms < 0 then Trace(a.chunks + [error], Some(NegativeSleep), [req], [])
        else Retried(a.chunks, error, req, ms, Retrying(cfg, base, reconnectable, server, r + 1, next))
  }

  /** Whether `**extra` names a keyword the manager already passes to the
      transport explicitly, so that calling it raises `TypeError`. The
      manager's own parameters can never be in `extra`. */
  predicate Clashes(extra: map<string, Json>) {
    "cursor" in extra || "resume_entry_uuids" in extra
  }

  /** The `TypeError` of a keyword passed twice (which of the two is named
      when both are depends on the order of `extra`, not modelled). */
  function KeywordClash(extra: map<string, Json>): Fault {
    TypeError("got multiple values for keyword argument '" + (if "cursor" in extra then "cursor" else "resume_entry_uuids") + "'")
  }

  /** The whole stream. When `extra` clashes with the resume arguments the
      first call of the transport raises before it receives anything, and
      since no cursor has been seen the loop raises that again. */
  function Streamed(cfg: Config, base: StreamRequest, reconnectable: bool, server: Server): Trace {
    if cfg.maxRetries >= 0 && Clashes(base.extra) then Trace([], Some(KeywordClash(base.extra)), [], [])
    else Retrying(cfg, base, reconnectable, server, 0, Fresh)
  }

  /** An `extra` that names the cursor or the resume list makes the stream
      raise `TypeError` at once: nothing is yielded, the transport never
      receives a request and nothing is slept. */
  lemma KeywordClashRaises(cfg: Config, base: StreamRequest, reconnectable: bool, server: Server)
    requires cfg.maxRetries >= 0 && ("cursor" in base.extra || "resume_entry_uuids" in base.extra)
    ensures var t := Streamed(cfg, base, reconnectable, server);
      t.chunks == [] && t.sent == [] && t.sleeps == [] && t.fault.Some? && t.fault.value.TypeError?
  {
  }

  /** Without a clash the stream is the retry loop from its start. */
  lemma LoopStreamed(cfg: Config, base: StreamRequest, reconnectable: bool, server: Server)
    requires cfg.maxRetries < 0 || !Clashes(base.extra)
    ensures Streamed(cfg, base, reconnectable, server) == Retrying(cfg, base, reconnectable, server, 0, Fresh)
  {
  }

  /** `StreamManager.stream`. */
  method Stream(cfg: Config, base: StreamRequest, reconnectable: bool, server: Server)
    returns (chunks: seq<MessageChunk>, fault: Option<Fault>, sent: seq<StreamRequest>, sleeps: seq<int>)
    ensures Trace(chunks, fault, sent, sleeps) == Streamed(cfg, base, reconnectable, server)
  {
    var retryCount: nat := 0;
    var cursor: Option<string> := None;
    var resume: seq<string> := [];
    chunks, fault, sent, sleeps := [], None, [], [];
    if retryCount <= cfg.maxRetries && Clashes(base.extra) {
      // The first call cannot bind its arguments; with no cursor seen yet
      // the `except` branch raises its `TypeError` again.
      fault := Some(KeywordClash(base.extra));
      return;
    }
    ghost var total := Retrying(cfg, base, reconnectable, server, 0, Fresh);
    LoopStreamed(cfg, base, reconnectable, server);
    EmptyThen(total);
    while retryCount <= cfg.maxRetries
      invariant Then(Trace(chunks, None, sent, sleeps), Retrying(cfg, base, reconnectable, server, retryCount, Session(cursor, resume))) == total
      decreases cfg.maxRetries + 1 - retryCount
    {
      ghost var before := Trace(chunks, None, sent, sleeps);
      var s := Session(cursor, resume);
      var req := Request(base, s);
      var a := server(retryCount, req);
      sent := sent + [req];
      chunks := chunks + a.chunks;
      cursor, resume := Follow(a.chunks, cursor, resume, reconnectable);
      if a.fault.None? {
        FinalAttempt(before, a.chunks, a.fault, req);
        return;
      }
      retryCount := retryCount + 1;
      if retryCount > cfg.maxRetries || !reconnectable || !Truthy(cursor) {
        FinalAttempt(before, a.chunks, a.fault, req);
        fault := a.fault;
        return;
      }
      var ms := cfg.retryBackoffMs * Pow(2, retryCount - 1);
      var error := ErrorChunk(a.fault.value, retryCount, ms, base.contextUuid);
      chunks := chunks + [error];
      if ms < 0 {
        SleepRefused(before, a.chunks, error, req);
        fault := Some(NegativeSleep);
        return;
      }
      sleeps := sleeps + [ms];
      NextAttempt(before, a.chunks, error, req, ms, Retrying(cfg, base, reconnectable, server, retryCount, Session(cursor, resume)));
    }
    EmptyThenRight(Trace(chunks, None, sent, sleeps));
  }

  /** The body of the `for chunk` loop, without the `yield`. */
  method Follow(cs: seq<MessageChunk>, cursor: Option<string>, resume: seq<string>, reconnectable: bool)
    returns (cursor': Option<string>, resume': seq<string>)
    ensures Session(cursor', resume') == TrackAll(Session(cursor, resume), cs, reconnectable)
  {
    cursor', resume' := cursor, resume;
    DropNone(cs);
    for j := 0 to |cs|
      invariant TrackAll(Session(cursor', resume'), cs[j..], reconnectable) == TrackAll(Session(cursor, resume), cs, reconnectable)
    {
      TrackAllAt(Session(cursor', resume'), cs, j, reconnectable);
      var c := cs[j];
      if reconnectable && Truthy(c.cursor) {
        cursor' := c.cursor;
      }
      if Truthy(c.backendUuid) && c.backendUuid.value !in resume' {
        resume' := resume' + [c.backendUuid.value];
      }
    }
    DropAll(cs);
  }

  lemma TrackAllAt(s: Session, cs: seq<MessageChunk>, j: nat, reconnectable: bool)
    requires j < |cs|
    ensures TrackAll(s, cs[j..], reconnectable) == TrackAll(Track(s, cs[j], reconnectable), cs[j + 1..], reconnectable)
  {
    assert cs[j..][0] == cs[j];
    assert cs[j..][1..] == cs[j + 1..];
  }

  lemma EmptyThen(t: Trace)
    ensures Then(Trace([], None, [], []), t) == t
  {
    EmptyAppend(t.chunks);
    EmptyAppend(t.sent);
    EmptyAppend(t.sleeps);
  }

  lemma EmptyThenRight(t: Trace)
    ensures Then(t, Trace([], None, [], [])) == Trace(t.chunks, None, t.sent, t.sleeps)
  {
    AppendEmpty(t.chunks);
    AppendEmpty(t.sent);
    AppendEmpty(t.sleeps);
  }

  /** The last attempt closes the trace. */
  lemma FinalAttempt(before: Trace, cs: seq<MessageChunk>, fault: Option<Fault>, req: StreamRequest)
    ensures Then(before, Trace(cs, fault, [req], [])) == Trace(before.chunks + cs, fault, before.sent + [req], before.sleeps)
  {
    AppendEmpty(before.sleeps);
  }

  /** A refused sleep closes the trace after the error chunk. */
  lemma SleepRefused(before: Trace, cs: seq<MessageChunk>, error: MessageChunk, req: StreamRequest)
    ensures Then(before, Trace(cs + [error], Some(NegativeSleep), [req], []))
      == Trace(before.chunks + cs + [error], Some(NegativeSleep), before.sent + [req], before.sleeps)
  {
    AppendEmpty(before.sleeps);
    Regroup(before.chunks, cs, [error]);
  }

  /** A retried attempt moves its chunks, the error chunk, the request and
      the delay from the rest of the loop into the part already done. */
  lemma NextAttempt(before: Trace, cs: seq<MessageChunk>, error: MessageChunk, req: StreamRequest, ms: int, rest: Trace)
    ensures Then(before, Retried(cs, error, req, ms, rest))
      == Then(Trace(before.chunks + cs + [error], None, before.sent + [req], before.sleeps + [ms]), rest)
  {
    Regroup(before.chunks, cs + [error], rest.chunks);
    Regroup(before.chunks, cs, [error]);
    Regroup(before.sent, [req], rest.sent);
    Regroup(before.sleeps, [ms], rest.sleeps);
  }

  // ---------------------------------------------------------------------
  // The wall-clock guard

  /** `timeout_ms or self.timeout_ms`. */
  function Budget(cfg: Config, timeoutMs: Option<int>): int {
    if timeoutMs.None? || timeoutMs.value == 0 then cfg.timeoutMs else timeoutMs.value
  }

  /** How Python prints the float `ms / 1000.0` (for magnitudes where it
      does not switch to exponent notation). */
  function SecondsText(ms: int): string {
    var m := if ms < 0 then -ms else ms;
    (if ms < 0 then "-" else "") + NatToString(m / 1000) + "." + Thousandths(m % 1000)
  }

  /** The digits of a fraction in thousandths, without trailing zeros but
      at least one digit. */
  function Thousandths(f: nat): string
    requires f < 1000
  {
    if f % 100 == 0 then [DigitChar(f / 100)]
    else if f % 10 == 0 then [DigitChar(f / 100), DigitChar(f / 10 % 10)]
    else [DigitChar(f / 100), DigitChar(f / 10 % 10), DigitChar(f % 10)]
  }

  function TimeoutFault(budgetMs: int): Fault {
    TimeoutError("Stream exceeded timeout of " + SecondsText(budgetMs) + "s")
  }

  /** Whether chunk `j` arrived within the budget. */
  predicate OnTime(clock: nat -> int, budgetMs: int, j: nat) {
    clock(j + 1) - clock(0) <= budgetMs
  }

  /** The index of the first chunk that arrives after the budget ran out,
      or `|cs|` if none does. Reading `0` of the clock is the start time,
      reading `i + 1` is taken when chunk `i` arrives. */
  function FirstLate(n: nat, clock: nat -> int, budgetMs: int, i: nat): (k: nat)
    requires i <= n
    ensures i <= k <= n
    ensures forall j | i <= j < k :: OnTime(clock, budgetMs, j)
    ensures k < n ==> !OnTime(clock, budgetMs, k)
    decreases n - i
  {
    if i == n then n
    else if !OnTime(clock, budgetMs, i) then i
    else FirstLate(n, clock, budgetMs, i + 1)
  }

  /** What the guard lets through of a stream: the chunks that arrive
      within the budget, then either the timeout or the stream's own end. */
  function Guarded(inner: Attempt, clock: nat -> int, budgetMs: int): Attempt {
    var k := FirstLate(|inner.chunks|, clock, budgetMs, 0);
    if k < |inner.chunks| then Attempt(inner.chunks[..k], Some(TimeoutFault(budgetMs)))
    else inner
  }

  /** `StreamManager.stream_with_timeout`: the retrying stream, cut off by
      a `TimeoutError` at the first chunk that arrives late. */
  method StreamWithTimeout(cfg: Config, base: StreamRequest, reconnectable: bool, server: Server,
                           timeoutMs: Option<int>, clock: nat -> int) returns (out: Attempt)
    ensures var t := Streamed(cfg, base, reconnectable, server);
      out == Guarded(Attempt(t.chunks, t.fault), clock, Budget(cfg, timeoutMs))
  {
    var budget := if timeoutMs.None? || timeoutMs.value == 0 then cfg.timeoutMs else timeoutMs.value;
    var start := clock(0);
    var chunks, fault, _, _ := Stream(cfg, base, reconnectable, server);
    var i := 0;
    while i < |chunks|
      invariant 0 <= i <= |chunks|
      invariant FirstLate(|chunks|, clock, budget, 0) == FirstLate(|chunks|, clock, budget, i)
    {
      if clock(i + 1) - start > budget {
        return Attempt(chunks[..i], Some(TimeoutFault(budget)));
      }
      i := i + 1;
    }
    return Attempt(chunks, fault);
  }

  // ---------------------------------------------------------------------
  // Properties of the retry loop

  /** Two requests that differ at most in the resume arguments. */
  predicate SameQuery(req: StreamRequest, base: StreamRequest) {
    req.(cursor := base.cursor, resumeEntryUuids := base.resumeEntryUuids) == base
  }

  /** The loop opens the stream at most `max_retries + 1` times, and at
      least once unless `max_retries` is negative; the first opening sends
      the resume state the loop starts from. */
  lemma {:induction false} AttemptsBound(cfg: Config, base: StreamRequest, reconnectable: bool, server: Server, r: nat, s: Session)
    ensures var t := Retrying(cfg, base, reconnectable, server, r, s);
      |t.sent| <= (if r <= cfg.maxRetries then cfg.maxRetries + 1 - r else 0)
      && (r <= cfg.maxRetries ==> t.sent != [] && t.sent[0] == Request(base, s))
    decreases if r <= cfg.maxRetries then cfg.maxRetries + 1 - r else 0
  {
    if r <= cfg.maxRetries {
      var req := Request(base, s);
      var a := server(r, req);
      var next := TrackAll(s, a.chunks, reconnectable);
      if !Stops(cfg, reconnectable, r, a, next) {
        AttemptsBound(cfg, base, reconnectable, server, r + 1, next);
      }
    }
  }

  /** The backoff is negative exactly when the configured base is. */
  lemma BackoffSign(cfg: Config, k: nat)
    requires k >= 1
    ensures Backoff(cfg, k) < 0 <==> cfg.retryBackoffMs < 0
  {
    PowPositive(2, k - 1);
    if cfg.retryBackoffMs < 0 {
      assert cfg.retryBackoffMs * Pow(2, k - 1) <= cfg.retryBackoffMs;
    }
  }

  /** An attempt that does not stop the loop, with a non-negative backoff,
      puts its request and its backoff in front of those of the rest of
      the loop, whose fault is the outcome's. */
  lemma RetryStep(cfg: Config, base: StreamRequest, reconnectable: bool, server: Server, r: nat, s: Session)
    requires r <= cfg.maxRetries
    requires var a := server(r, Request(base, s)); !Stops(cfg, reconnectable, r, a, TrackAll(s, a.chunks, reconnectable))
    requires Backoff(cfg, r + 1) >= 0
    ensures var a := server(r, Request(base, s));
      var t := Retrying(cfg, base, reconnectable, server, r, s);
      var rest := Retrying(cfg, base, reconnectable, server, r + 1, TrackAll(s, a.chunks, reconnectable));
      && t.fault == rest.fault
      && t.sent == [Request(base, s)] + rest.sent
      && t.sleeps == [Backoff(cfg, r + 1)] + rest.sleeps
  {
  }

  /** An attempt that would be retried with a negative backoff ends the
      stream: its chunks and the error chunk are yielded, then the sleep
      raises its `ValueError`; the stream is not reopened. */
  lemma RefusedSleep(cfg: Config, base: StreamRequest, reconnectable: bool, server: Server, r: nat, s: Session)
    requires r <= cfg.maxRetries
    requires var a := server(r, Request(base, s)); !Stops(cfg, reconnectable, r, a, TrackAll(s, a.chunks, reconnectable))
    requires Backoff(cfg, r + 1) < 0
    ensures var a := server(r, Request(base, s));
      Retrying(cfg, base, reconnectable, server, r, s)
        == Trace(a.chunks + [ErrorChunk(a.fault.value, r + 1, Backoff(cfg, r + 1), base.contextUuid)],
                 Some(NegativeSleep), [Request(base, s)], [])
  {
  }

  /** With a negative base backoff the stream is opened at most once and
      never sleeps; a fault that reconnection would have absorbed is
      replaced by the sleep's `ValueError`. */
  lemma NegativeBackoff(cfg: Config, base: StreamRequest, reconnectable: bool, server: Server, r: nat, s: Session)
    requires cfg.retryBackoffMs < 0
    ensures var t := Retrying(cfg, base, reconnectable, server, r, s);
      var a := server(r, Request(base, s));
      |t.sent| <= 1 && t.sleeps == []
      && (r <= cfg.maxRetries && !Stops(cfg, reconnectable, r, a, TrackAll(s, a.chunks, reconnectable)) ==>
            t.fault == Some(NegativeSleep))
  {
    if r <= cfg.maxRetries {
      var a := server(r, Request(base, s));
      BackoffSign(cfg, r + 1);
      if Stops(cfg, reconnectable, r, a, TrackAll(s, a.chunks, reconnectable)) {
        StoppingAttempt(cfg, base, reconnectable, server, r, s);
      } else {
        RefusedSleep(cfg, base, reconnectable, server, r, s);
      }
    }
  }

  /** The loop sleeps once between consecutive openings, and the `k`-th
      delay is the base backoff times `2 ** (k - 1)`; every delay slept
      is non-negative. */
  lemma SleepSchedule(cfg: Config, base: StreamRequest, reconnectable: bool, server: Server, r: nat, s: Session)
    ensures var t := Retrying(cfg, base, reconnectable, server, r, s);
      (r <= cfg.maxRetries ==> |t.sent| == |t.sleeps| + 1)
      && (forall i | 0 <= i < |t.sleeps| :: t.sleeps[i] == Backoff(cfg, r + i + 1) && t.sleeps[i] >= 0)
  {
    if r <= cfg.maxRetries {
      SleepCount(cfg, base, reconnectable, server, r, s);
    }
    SleepDelays(cfg, base, reconnectable, server, r, s);
  }

  lemma {:induction false} SleepCount(cfg: Config, base: StreamRequest, reconnectable: bool, server: Server, r: nat, s: Session)
    requires r <= cfg.maxRetries
    ensures var t := Retrying(cfg, base, reconnectable, server, r, s); |t.sent| == |t.sleeps| + 1
    decreases cfg.maxRetries + 1 - r
  {
    var a := server(r, Request(base, s));
    var next := TrackAll(s, a.chunks, reconnectable);
    if Stops(cfg, reconnectable, r, a, next) {
      StoppingAttempt(cfg, base, reconnectable, server, r, s);
    } else if Backoff(cfg, r + 1) < 0 {
      RefusedSleep(cfg, base, reconnectable, server, r, s);
    } else {
      RetryStep(cfg, base, reconnectable, server, r, s);
      SleepCount(cfg, base, reconnectable, server, r + 1, next);
    }
  }

  lemma {:induction false} SleepDelays(cfg: Config, base: StreamRequest, reconnectable: bool, server: Server, r: nat, s: Session)
    ensures var t := Retrying(cfg, base, reconnectable, server, r, s);
      forall i | 0 <= i < |t.sleeps| :: t.sleeps[i] == Backoff(cfg, r + i + 1) && t.sleeps[i] >= 0
    decreases if r <= cfg.maxRetries then cfg.maxRetries + 1 - r else 0
  {
    if r <= cfg.maxRetries {
      var a := server(r, Request(base, s));
      var next := TrackAll(s, a.chunks, reconnectable);
      if Stops(cfg, reconnectable, r, a, next) {
        StoppingAttempt(cfg, base, reconnectable, server, r, s);
      } else if Backoff(cfg, r + 1) < 0 {
        RefusedSleep(cfg, base, reconnectable, server, r, s);
      } else {
        RetryStep(cfg, base, reconnectable, server, r, s);
        SleepDelays(cfg, base, reconnectable, server, r + 1, next);
        BackoffsFrom(cfg, r, Retrying(cfg, base, reconnectable, server, r + 1, next).sleeps);
      }
    }
  }

  /** The delays from retry `r + 1` on, after the one of retry `r`. */
  lemma BackoffsFrom(cfg: Config, r: nat, rest: seq<int>)
    requires Backoff(cfg, r + 1) >= 0
    requires forall i | 0 <= i < |rest| :: rest[i] == Backoff(cfg, r + 1 + i + 1) && rest[i] >= 0
    ensures var sleeps := [Backoff(cfg, r + 1)] + rest;
      forall i | 0 <= i < |sleeps| :: sleeps[i] == Backoff(cfg, r + i + 1) && sleeps[i] >= 0
  {
    var sleeps := [Backoff(cfg, r + 1)] + rest;
    forall i | 0 < i < |sleeps|
      ensures sleeps[i] == Backoff(cfg, r + i + 1) && sleeps[i] >= 0
    {
      assert sleeps[i] == rest[i - 1];
    }
  }

  /** Every opening resends the caller's query; only the cursor and the
      resume ids change between attempts. */
  lemma {:induction false} SameQueries(cfg: Config, base: StreamRequest, reconnectable: bool, server: Server, r: nat, s: Session)
    ensures var sent := Retrying(cfg, base, reconnectable, server, r, s).sent;
      forall i | 0 <= i < |sent| :: SameQuery(sent[i], base)
    decreases if r <= cfg.maxRetries then cfg.maxRetries + 1 - r else 0
  {
    if r <= cfg.maxRetries {
      var a := server(r, Request(base, s));
      var next := TrackAll(s, a.chunks, reconnectable);
      if Stops(cfg, reconnectable, r, a, next) {
        StoppingAttempt(cfg, base, reconnectable, server, r, s);
      } else if Backoff(cfg, r + 1) < 0 {
        RefusedSleep(cfg, base, reconnectable, server, r, s);
      } else {
        var t := Retrying(cfg, base, reconnectable, server, r, s);
        var rest := Retrying(cfg, base, reconnectable, server, r + 1, next);
        RetryStep(cfg, base, reconnectable, server, r, s);
        SameQueries(cfg, base, reconnectable, server, r + 1, next);
        forall i | 0 < i < |t.sent|
          ensures SameQuery(t.sent[i], base)
        {
          assert t.sent[i] == rest.sent[i - 1];
        }
      }
    }
  }

  /** Without reconnection the stream is opened once at most, and its
      chunks and fault are passed on unchanged. */
  lemma SingleAttempt(cfg: Config, base: StreamRequest, server: Server, r: nat, s: Session)
    requires r <= cfg.maxRetries
    ensures var a := server(r, Request(base, s));
      Retrying(cfg, base, false, server, r, s) == Trace(a.chunks, a.fault, [Request(base, s)], [])
  {
  }

  /** An attempt that stops the loop ends the stream: a clean one with
      nothing more, a failed one by raising its own fault without any
      synthetic chunk. */
  lemma StoppingAttempt(cfg: Config, base: StreamRequest, reconnectable: bool, server: Server, r: nat, s: Session)
    requires r <= cfg.maxRetries
    requires var a := server(r, Request(base, s)); Stops(cfg, reconnectable, r, a, TrackAll(s, a.chunks, reconnectable))
    ensures var a := server(r, Request(base, s));
      Retrying(cfg, base, reconnectable, server, r, s) == Trace(a.chunks, a.fault, [Request(base, s)], [])
  {
  }

  /** An absorbed fault yields exactly one chunk, of type `error` and
      status `retrying`, after the failed attempt's own chunks and before
      the next attempt's; it names the fault, the retry count and the
      backoff. With a negative backoff that chunk is the last one, and
      the sleep's `ValueError` ends the stream. */
  lemma AbsorbedFault(cfg: Config, base: StreamRequest, reconnectable: bool, server: Server, r: nat, s: Session)
    requires r <= cfg.maxRetries
    requires var a := server(r, Request(base, s)); !Stops(cfg, reconnectable, r, a, TrackAll(s, a.chunks, reconnectable))
    ensures var a := server(r, Request(base, s));
      var t := Retrying(cfg, base, reconnectable, server, r, s);
      var rest := Retrying(cfg, base, reconnectable, server, r + 1, TrackAll(s, a.chunks, reconnectable));
      var e := t.chunks[|a.chunks|];
      t.chunks == a.chunks + [e] + (if Backoff(cfg, r + 1) >= 0 then rest.chunks else [])
      && (Backoff(cfg, r + 1) < 0 ==> t.fault == Some(NegativeSleep))
      && e.kind == "error" && e.status == Some("retrying")
      && e.backendUuid.None? && e.cursor.None? && e.contextUuid == Some(base.contextUuid)
      && e.data == map["error" := JStr(FaultMessage(a.fault.value)), "retry_count" := JInt(r + 1),
                       "backoff_seconds" := JDecimal(Backoff(cfg, r + 1))]
  {
    var a := server(r, Request(base, s));
    var t := Retrying(cfg, base, reconnectable, server, r, s);
    var e := ErrorChunk(a.fault.value, r + 1, Backoff(cfg, r + 1), base.contextUuid);
    var rest := Retrying(cfg, base, reconnectable, server, r + 1, TrackAll(s, a.chunks, reconnectable));
    if Backoff(cfg, r + 1) < 0 {
      RefusedSleep(cfg, base, reconnectable, server, r, s);
      assert t.chunks == a.chunks + [e] + [];
    } else {
      assert t.chunks == a.chunks + [e] + rest.chunks;
    }
    assert t.chunks[|a.chunks|] == e;
  }

  /** The first opening carries neither a cursor nor resume ids. */
  lemma FirstRequest(cfg: Config, base: StreamRequest, reconnectable: bool, server: Server)
    requires cfg.maxRetries >= 0
    ensures var t := Retrying(cfg, base, reconnectable, server, 0, Fresh);
      t.sent != [] && t.sent[0].cursor.None? && t.sent[0].resumeEntryUuids.None? && SameQuery(t.sent[0], base)
  {
    AttemptsBound(cfg, base, reconnectable, server, 0, Fresh);
  }

  /** A fault at the end of trace `t`, whose first attempt is number `r`,
      is the fault of its last attempt, or the sleep's `ValueError` after
      that failed attempt when the base backoff is negative. */
  predicate FaultFromLast(cfg: Config, server: Server, r: nat, t: Trace) {
    t.fault.Some? ==>
      (t.sent != [] &&
       var last := server(r + |t.sent| - 1, t.sent[|t.sent| - 1]);
       t.fault == last.fault || (t.fault == Some(NegativeSleep) && cfg.retryBackoffMs < 0 && last.fault.Some?))
  }

  /** The stream raises only what the transport raised: a fault at the end
      of the trace is the fault of the last attempt, unless a negative base
      backoff made the sleep after that failed attempt raise instead. */
  lemma {:induction false} FaultIsLastAttempts(cfg: Config, base: StreamRequest, reconnectable: bool, server: Server, r: nat, s: Session)
    ensures FaultFromLast(cfg, server, r, Retrying(cfg, base, reconnectable, server, r, s))
    decreases if r <= cfg.maxRetries then cfg.maxRetries + 1 - r else 0
  {
    if r <= cfg.maxRetries {
      var a := server(r, Request(base, s));
      var next := TrackAll(s, a.chunks, reconnectable);
      if Stops(cfg, reconnectable, r, a, next) {
        StoppingAttempt(cfg, base, reconnectable, server, r, s);
      } else if Backoff(cfg, r + 1) < 0 {
        RefusedFault(cfg, base, reconnectable, server, r, s);
      } else {
        FaultIsLastAttempts(cfg, base, reconnectable, server, r + 1, next);
        RetriedFault(cfg, base, reconnectable, server, r, s);
      }
    }
  }

  /** A refused sleep raises after a failed attempt, the only one sent. */
  lemma RefusedFault(cfg: Config, base: StreamRequest, reconnectable: bool, server: Server, r: nat, s: Session)
    requires r <= cfg.maxRetries
    requires var a := server(r, Request(base, s)); !Stops(cfg, reconnectable, r, a, TrackAll(s, a.chunks, reconnectable))
    requires Backoff(cfg, r + 1) < 0
    ensures FaultFromLast(cfg, server, r, Retrying(cfg, base, reconnectable, server, r, s))
  {
    RefusedSleep(cfg, base, reconnectable, server, r, s);
    BackoffSign(cfg, r + 1);
  }

  /** A retried attempt leaves the fault of the remaining attempts as the
      fault of the whole trace. */
  lemma RetriedFault(cfg: Config, base: StreamRequest, reconnectable: bool, server: Server, r: nat, s: Session)
    requires r <= cfg.maxRetries
    requires var a := server(r, Request(base, s)); !Stops(cfg, reconnectable, r, a, TrackAll(s, a.chunks, reconnectable))
    requires Backoff(cfg, r + 1) >= 0
    requires var a := server(r, Request(base, s));
      FaultFromLast(cfg, server, r + 1, Retrying(cfg, base, reconnectable, server, r + 1, TrackAll(s, a.chunks, reconnectable)))
    ensures FaultFromLast(cfg, server, r, Retrying(cfg, base, reconnectable, server, r, s))
  {
    var a := server(r, Request(base, s));
    var t := Retrying(cfg, base, reconnectable, server, r, s);
    var rest := Retrying(cfg, base, reconnectable, server, r + 1, TrackAll(s, a.chunks, reconnectable));
    RetryStep(cfg, base, reconnectable, server, r, s);
    if rest.fault.Some? {
      assert t.sent[|t.sent| - 1] == rest.sent[|rest.sent| - 1];
      assert r + |t.sent| - 1 == r + 1 + |rest.sent| - 1;
    }
  }

  /** One more chunk on top of a tracked prefix. */
  lemma {:induction false} TrackAllSnoc(s: Session, cs: seq<MessageChunk>, c: MessageChunk, reconnectable: bool)
    ensures TrackAll(s, cs + [c], reconnectable) == Track(TrackAll(s, cs, reconnectable), c, reconnectable)
    decreases |cs|
  {
    if cs == [] {
      assert [] + [c] == [c];
      assert [c][1..] == [];
    } else {
      assert (cs + [c])[0] == cs[0];
      assert (cs + [c])[1..] == cs[1..] + [c];
      TrackAllSnoc(Track(s, cs[0], reconnectable), cs[1..], c, reconnectable);
    }
  }

  /** The cursor of the last chunk that carries a truthy one, or `d`. */
  function LastCursor(cs: seq<MessageChunk>, d: Option<string>): Option<string>
    decreases |cs|
  {
    if cs == [] then d
    else if Truthy(cs[|cs| - 1].cursor) then cs[|cs| - 1].cursor
    else LastCursor(cs[..|cs| - 1], d)
  }

  /** The stored cursor is the one of the latest chunk carrying a truthy
      cursor, and is never replaced when reconnection is off. */
  lemma {:induction false} TrackCursor(s: Session, cs: seq<MessageChunk>, reconnectable: bool)
    ensures TrackAll(s, cs, reconnectable).cursor == if reconnectable then LastCursor(cs, s.cursor) else s.cursor
    decreases |cs|
  {
    if cs != [] {
      var init := cs[..|cs| - 1];
      assert cs == init + [cs[|cs| - 1]];
      TrackAllSnoc(s, init, cs[|cs| - 1], reconnectable);
      TrackCursor(s, init, reconnectable);
    }
  }

  /** The truthy backend ids among the chunks. */
  function BackendIds(cs: seq<MessageChunk>): set<string> {
    set c | c in cs && Truthy(c.backendUuid) :: c.backendUuid.value
  }

  predicate NoDuplicates(xs: seq<string>) {
    forall i, j | 0 <= i < j < |xs| :: xs[i] != xs[j]
  }

  /** The resume list only grows at its end, never repeats an id, and holds
      exactly the ids it started with and the truthy backend ids seen. */
  lemma {:induction false} TrackResume(s: Session, cs: seq<MessageChunk>, reconnectable: bool)
    ensures var r := TrackAll(s, cs, reconnectable).resume;
      s.resume <= r
      && (NoDuplicates(s.resume) ==> NoDuplicates(r))
      && (forall u :: u in r <==> u in s.resume || u in BackendIds(cs))
    decreases |cs|
  {
    if cs != [] {
      var s' := Track(s, cs[0], reconnectable);
      var r := TrackAll(s, cs, reconnectable).resume;
      assert TrackAll(s, cs, reconnectable) == TrackAll(s', cs[1..], reconnectable);
      TrackOneResume(s, cs[0], reconnectable);
      TrackResume(s', cs[1..], reconnectable);
      PrefixTrans(s.resume, s'.resume, r);
      BackendIdsCons(cs);
    }
  }

  /** One chunk appends its truthy backend id unless it is already there. */
  lemma TrackOneResume(s: Session, c: MessageChunk, reconnectable: bool)
    ensures var r := Track(s, c, reconnectable).resume;
      s.resume <= r
      && (NoDuplicates(s.resume) ==> NoDuplicates(r))
      && (forall u :: u in r <==> u in s.resume || (Truthy(c.backendUuid) && u == c.backendUuid.value))
  {
    var r := Track(s, c, reconnectable).resume;
    if r != s.resume {
      assert r == s.resume + [c.backendUuid.value];
      assert r[..|s.resume|] == s.resume;
    }
  }

  lemma PrefixTrans<T>(a: seq<T>, b: seq<T>, c: seq<T>)
    requires a <= b && b <= c
    ensures a <= c
  {
    assert c[..|a|] == c[..|b|][..|a|];
  }

  /** The backend ids of a sequence are those of its head and its tail. */
  lemma BackendIdsCons(cs: seq<MessageChunk>)
    requires cs != []
    ensures forall u :: u in BackendIds(cs) <==>
      (Truthy(cs[0].backendUuid) && u == cs[0].backendUuid.value) || u in BackendIds(cs[1..])
  {
    forall u
      ensures u in BackendIds(cs) <==> (Truthy(cs[0].backendUuid) && u == cs[0].backendUuid.value) || u in BackendIds(cs[1..])
    {
      if u in BackendIds(cs) {
        var c :| c in cs && Truthy(c.backendUuid) && c.backendUuid.value == u;
        if c != cs[0] {
          assert cs == [cs[0]] + cs[1..];
          assert c in cs[1..];
        }
      }
      if u in BackendIds(cs[1..]) {
        var c :| c in cs[1..] && Truthy(c.backendUuid) && c.backendUuid.value == u;
        assert c in cs;
      }
    }
  }

  // ---------------------------------------------------------------------
  // Properties of the wall-clock guard

  /** The guard passes on a prefix of the stream: all of it, with the
      stream's own end, exactly when every chunk arrived within budget;
      otherwise the chunks before the first late one, then the timeout. */
  lemma GuardCutsAtFirstLate(inner: Attempt, clock: nat -> int, budgetMs: int)
    ensures var g := Guarded(inner, clock, budgetMs);
      g.chunks <= inner.chunks
      && (forall j | 0 <= j < |g.chunks| :: OnTime(clock, budgetMs, j))
      && ((forall j | 0 <= j < |inner.chunks| :: OnTime(clock, budgetMs, j)) <==> g == inner)
      && (g != inner ==> g.fault == Some(TimeoutFault(budgetMs)) && !OnTime(clock, budgetMs, |g.chunks|))
  {
  }

  /** The default budget reads as in the message `… timeout of 30.0s`. */
  lemma DefaultTimeoutMessage()
    ensures Budget(Defaults, None) == 30000
    ensures FaultMessage(TimeoutFault(Budget(Defaults, None))) == "Stream exceeded timeout of 30.0s"
  {
    var m := SecondsText(30000);
    assert m == "30.0" by {
      assert NatToString(30) == "30";
      assert Thousandths(0) == "0";
    }
    assert "Stream exceeded timeout of " + m + "s" == "Stream exceeded timeout of 30.0s";
  }
}
