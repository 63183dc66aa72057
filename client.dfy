/** pplx_sdk/client.py: the client's default headers and the stateful
    `Conversation`, which remembers its entries so that every question is
    asked as a follow-up of the last answer, and which can be forked.

    The entries service's transport is an oracle (see `Entries`); the
    identifiers `uuid.uuid4()` would produce are parameters. */
module Client {
  import opened Wrappers
  import opened Text
  import opened Json
  import opened Exceptions
  import opened Models
  import opened Sse
  import Http
  import Entries

  // ---------------------------------------------------------------------
  // Headers

  /** `_build_headers`: the four base headers, the bearer token when it is
      truthy, then the caller's headers (`default_headers or {}`) over
      them. */
  function BuildHeaders(authToken: Option<string>, defaultHeaders: Option<map<string, string>>): (h: map<string, string>)
    ensures var given := if defaultHeaders.Some? then defaultHeaders.value else map[];
      && h.Keys == Http.BaseHeaders.Keys + given.Keys + (if Truthy(authToken) then {"Authorization"} else {})
      && (forall k | k in given :: h[k] == given[k])
      && (forall k | k in Http.BaseHeaders && k !in given :: h[k] == Http.BaseHeaders[k])
      && ("Authorization" !in given && Truthy(authToken) ==> h["Authorization"] == "Bearer " + authToken.value)
  {
    var headers := Http.AuthHeaders(authToken);
    var given := if defaultHeaders.Some? then defaultHeaders.value else map[];
    headers + given
  }

  /** The client and the plain HTTP transport build the same default
      headers. */
  lemma BuildHeadersAgree(authToken: Option<string>, defaultHeaders: Option<map<string, string>>)
    ensures BuildHeaders(authToken, defaultHeaders) == Http.DefaultHeaders(authToken, defaultHeaders)
  {
    var a := Http.AuthHeaders(authToken);
    if defaultHeaders.Some? && defaultHeaders.value == map[] {
      assert a + map[] == a;
    } else if defaultHeaders.None? {
      assert a + map[] == a;
    }
  }

  // ---------------------------------------------------------------------
  // Threads

  /** The thread of `new_conversation`: the new id, the title, slug
      `conv-` and the first eight characters of the id, private. */
  function NewConversationThread(title: Option<string>, newUuid: string): (t: Thread)
    ensures t.contextUuid == newUuid && t.title == title && t.access == Private
    ensures t.slug == "conv-" + Take(newUuid, 8) && |t.slug| <= 13
    ensures t.forkCount == 0 && t.likeCount == 0 && t.viewCount == 0
  {
    NewThread(newUuid, title, "conv-" + Take(newUuid, 8), Private)
  }

  /** The title of a fork. */
  function ForkTitle(title: Option<string>): (r: string)
    ensures r != ""
    ensures Truthy(title) ==> r == title.value + " (fork)"
    ensures !Truthy(title) ==> r == "Forked conversation"
  {
    if Truthy(title) then title.value + " (fork)" else "Forked conversation"
  }

  /** The thread of `fork`: the new id, the fork title, slug `fork-` and
      the first eight characters of the id, and the original's access. */
  function ForkThread(original: Thread, newUuid: string): (t: Thread)
    ensures t.contextUuid == newUuid && t.title == Some(ForkTitle(original.title))
    ensures t.slug == "fork-" + Take(newUuid, 8) && t.access == original.access
    ensures t.forkCount == 0 && t.likeCount == 0 && t.viewCount == 0
  {
    NewThread(newUuid, Some(ForkTitle(original.title)), "fork-" + Take(newUuid, 8), original.access)
  }

  /** A fork always has a title, so forking a fork appends a second
      ` (fork)`. */
  lemma ForkOfFork(original: Thread, u1: string, u2: string)
    ensures ForkThread(ForkThread(original, u1), u2).title ==
      Some(if Truthy(original.title) then original.title.value + " (fork) (fork)" else "Forked conversation (fork)")
    ensures ForkThread(ForkThread(original, u1), u2).access == original.access
  {
    var t := ForkThread(original, u1);
    assert Truthy(t.title);
    if Truthy(original.title) {
      assert original.title.value + " (fork)" + " (fork)" == original.title.value + " (fork) (fork)";
    } else {
      assert "Forked conversation" + " (fork)" == "Forked conversation (fork)";
    }
  }

  /** `ThreadsService.get`, which does not look anything up yet. */
  function ThreadsGet(slugOrUuid: string): (r: Option<Thread>)
    ensures r.None?
  {
    None
  }

  /** `conversation_from_thread`: the thread the lookup finds, or a
      `ValueError` naming the slug when it finds none, which is always. */
  function ThreadFor(slugOrUuid: string): (r: Result<Thread, Fault>)
    ensures r == Failure(ValueError("Thread not found: " + slugOrUuid))
  {
    match ThreadsGet(slugOrUuid)
    case Some(t) => Success(t)
    case None => Failure(ValueError("Thread not found: " + slugOrUuid))
  }

  // ---------------------------------------------------------------------
  // History

  /** The parent of the next question: the backend id of the last entry,
      if there is one. */
  function ParentOf(entries: seq<Entry>): (p: Option<string>)
    ensures p.None? <==> entries == []
  {
    if entries == [] then None else Some(entries[|entries| - 1].backendUuid)
  }

  /** After an answer is appended, the next question follows up on it. */
  lemma ParentAfterAppend(entries: seq<Entry>, e: Entry)
    ensures ParentOf(entries + [e]) == Some(e.backendUuid)
  {
  }

  /** `list.index`: the position of the first entry equal to `e`. */
  function Find(entries: seq<Entry>, e: Entry): (i: Option<nat>)
    ensures i.None? <==> e !in entries
    ensures i.Some? ==> i.value < |entries| && entries[i.value] == e && e !in entries[..i.value]
    decreases |entries|
  {
    if entries == [] then None
    else if entries[0] == e then Some(0)
    else
      match Find(entries[1..], e)
      case None => None
      case Some(j) =>
        assert entries[..j + 1] == [entries[0]] + entries[1..][..j];
        Some(j + 1)
  }

  /** The history a fork starts with: all of it without a fork point; the
      prefix through the first entry equal to the fork point when there is
      one; nothing when the fork point is not in the history. */
  function ForkEntries(entries: seq<Entry>, from: Option<Entry>): (r: seq<Entry>)
    ensures |r| <= |entries| && r == entries[..|r|]
    ensures from.None? ==> r == entries
    ensures from.Some? && from.value !in entries ==> r == []
    ensures from.Some? && from.value in entries ==>
      (r != [] && r[|r| - 1] == from.value && from.value !in r[..|r| - 1])
  {
    if from.None? then entries
    else
      match Find(entries, from.value)
      case None => []
      case Some(i) =>
        assert entries[..i + 1][..i] == entries[..i];
        entries[..i + 1]
  }

  /** Forking at an entry makes the next question of the fork a follow-up
      of that entry. */
  lemma ForkFollowsUp(entries: seq<Entry>, e: Entry)
    requires e in entries
    ensures ParentOf(ForkEntries(entries, Some(e))) == Some(e.backendUuid)
  {
  }

  /** Forking at the latest answer, when it occurs only once, keeps the
      whole history. */
  lemma ForkAtLast(entries: seq<Entry>)
    requires entries != [] && entries[|entries| - 1] !in entries[..|entries| - 1]
    ensures ForkEntries(entries, Some(entries[|entries| - 1])) == entries
  {
    var e := entries[|entries| - 1];
    var r := ForkEntries(entries, Some(e));
    assert forall j | 0 <= j < |entries| - 1 :: entries[j] != e by {
      assert forall j | 0 <= j < |entries| - 1 :: entries[j] == entries[..|entries| - 1][j];
    }
    assert entries[|r| - 1] == e;
  }

  // ---------------------------------------------------------------------
  // The client and its conversations

  /** `PerplexityClient`: its settings, the headers of its HTTP client,
      and the entries service's transport. */
  class PerplexityClient {
    const apiBase: string
    const authToken: Option<string>
    const headers: map<string, string>
    const transport: Entries.Transport

    /** `__init__`. */
    constructor (apiBase: string, authToken: Option<string>, defaultHeaders: Option<map<string, string>>,
                 transport: Entries.Transport)
      ensures this.apiBase == apiBase && this.authToken == authToken
      ensures headers == BuildHeaders(authToken, defaultHeaders)
      ensures this.transport == transport
    {
      this.apiBase := apiBase;
      this.authToken := authToken;
      headers := BuildHeaders(authToken, defaultHeaders);
      this.transport := transport;
    }

    /** `new_conversation`: a new thread and an empty history. */
    method NewConversation(title: Option<string>, newUuid: string) returns (c: Conversation)
      ensures fresh(c)
      ensures c.client == this && c.thread == NewConversationThread(title, newUuid) && c.entries == []
    {
      c := new Conversation(this, NewConversationThread(title, newUuid), []);
    }

    /** `conversation_from_thread`: the `ValueError` of a failed lookup. */
    method ConversationFromThread(slugOrUuid: string) returns (r: Result<Conversation, Fault>)
      ensures r.Failure? && r.error == ValueError("Thread not found: " + slugOrUuid)
    {
      var t := ThreadFor(slugOrUuid);
      match t
      case Failure(f) =>
        r := Failure(f);
      case Success(thread) =>
        var c := new Conversation(this, thread, []);
        r := Success(c);
    }
  }

  /** `ask` and `ask_stream` pass the thread's context id and the parent id
      by name next to `**kwargs`, so a keyword argument of either name is
      given twice. */
  predicate ConversationClash(extra: map<string, Json>) {
    "context_uuid" in extra || "parent_entry_uuid" in extra
  }

  /** The `TypeError` of that call (which of the two is named when both are
      depends on the order of `extra`, not modelled). */
  function ConversationClashFault(extra: map<string, Json>): Fault {
    TypeError("got multiple values for keyword argument '"
              + (if "context_uuid" in extra then "context_uuid" else "parent_entry_uuid") + "'")
  }

  /** `Conversation`: a thread and the entries asked in it so far. */
  class Conversation {
    const client: PerplexityClient
    const thread: Thread
    var entries: seq<Entry>

    constructor (client: PerplexityClient, thread: Thread, entries: seq<Entry>)
      ensures this.client == client && this.thread == thread && this.entries == entries
    {
      this.client := client;
      this.thread := thread;
      this.entries := entries;
    }

    /** `ask_stream`: the entries service's stream for this thread, asked
      as a follow-up of the last entry; the history is not touched. A
      keyword argument naming the context or the parent raises `TypeError`
      on the first step, before anything is sent. */
    method AskStream(query: string, mode: string, modelPreference: string, sources: Option<seq<string>>,
                     frontendUuid: Option<string>, extra: map<string, Json>, newUuid: string)
      returns (a: Attempt)
      ensures ConversationClash(extra) ==> a == Attempt([], Some(ConversationClashFault(extra)))
      ensures !ConversationClash(extra) ==>
        a == Entries.StreamAsk(client.transport, query, thread.contextUuid, mode, modelPreference, sources,
                               ParentOf(entries), frontendUuid, extra, newUuid)
    {
      if ConversationClash(extra) {
        return Attempt([], Some(ConversationClashFault(extra)));
      }
      var parent: Option<string> := None;
      if entries != [] {
        parent := Some(entries[|entries| - 1].backendUuid);
      }
      a := Entries.StreamAsk(client.transport, query, thread.contextUuid, mode, modelPreference, sources,
                             parent, frontendUuid, extra, newUuid);
    }

    /** `ask`: the entries service's answer, asked as a follow-up of the
      last entry and appended to the history; an exception leaves the
      history as it was. A keyword argument naming the context or the
      parent raises `TypeError` before anything is sent. */
    method Ask(query: string, mode: string, modelPreference: string, sources: Option<seq<string>>,
               frontendUuid: Option<string>, extra: map<string, Json>, newUuid: string)
      returns (r: Result<Entry, Fault>)
      modifies this
      ensures ConversationClash(extra) ==> r == Failure(ConversationClashFault(extra))
      ensures !ConversationClash(extra) ==>
        r == Entries.AskResult(client.transport, query, thread.contextUuid, mode, modelPreference, sources,
                               ParentOf(old(entries)), frontendUuid, extra, newUuid)
      ensures r.Success? ==> entries == old(entries) + [r.value]
      ensures r.Failure? ==> entries == old(entries)
    {
      if ConversationClash(extra) {
        return Failure(ConversationClashFault(extra));
      }
      var parent: Option<string> := None;
      if entries != [] {
        parent := Some(entries[|entries| - 1].backendUuid);
      }
      r := Entries.Ask(client.transport, query, thread.contextUuid, mode, modelPreference, sources,
                       parent, frontendUuid, extra, newUuid);
      if r.Success? {
        entries := entries + [r.value];
      }
    }

    /** `fork`: a new conversation of the same client, on a fork thread,
      with the history up to the fork point; this one is unchanged. */
    method Fork(from: Option<Entry>, newUuid: string) returns (c: Conversation)
      ensures fresh(c)
      ensures c.client == client && c.thread == ForkThread(thread, newUuid)
      ensures c.entries == ForkEntries(entries, from)
    {
      var forkEntries: seq<Entry>;
      if from.None? {
        forkEntries := entries;
      } else {
        var i := Find(entries, from.value);
        if i.Some? {
          forkEntries := entries[..i.value + 1];
        } else {
          forkEntries := [];
        }
      }
      c := new Conversation(client, ForkThread(thread, newUuid), forkEntries);
    }
  }
}
