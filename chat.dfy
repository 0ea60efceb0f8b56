/**
 * The chat endpoint: the client's history of role/content entries is turned
 * back into a transcript, the new user message is appended, the agent graph
 * is run with the recursion limit, and the reply and the extended history
 * are returned. A raised exception becomes a failure outcome (the web
 * framework answers it with a server error).
 */
module Chat {
  import opened Wrappers
  import opened Agent

  /** One history entry as the client sends it: a dictionary of strings. */
  type HistoryEntry = map<string, string>

  datatype ChatRequest = ChatRequest(sessionId: string, message: string, history: seq<HistoryEntry>)

  datatype ChatResponse = ChatResponse(response: string, sessionId: string, history: seq<HistoryEntry>)

  datatype Failure =
    | MalformedHistory       // a user or assistant entry without content fails message validation
    | RecursionLimitReached  // the graph needed more than RecursionLimit node executions

  datatype ChatOutcome = Answered(reply: ChatResponse) | Failed(reason: Failure)

  predicate HasRole(e: HistoryEntry, role: string) {
    "role" in e && e["role"] == role
  }

  /** Entries the conversion keeps; any other role, or none, is dropped. */
  predicate Kept(e: HistoryEntry) {
    HasRole(e, "user") || HasRole(e, "assistant")
  }

  /** The history entries with role user or assistant, in their order. */
  function KeptEntries(h: seq<HistoryEntry>): seq<HistoryEntry> {
    Filter(h, Kept)
  }

  /** Every kept entry carries a content, so that the message can be built. */
  predicate WellFormed(h: seq<HistoryEntry>) {
    forall i :: 0 <= i < |h| && Kept(h[i]) ==> "content" in h[i]
  }

  /** A user entry becomes a human message, an assistant entry an AI message without tool calls. */
  function MessageOf(e: HistoryEntry): Message
    requires Kept(e) && "content" in e
  {
    if HasRole(e, "user") then Human(e["content"]) else Ai(e["content"], [])
  }

  /** Every entry is kept and carries a content. */
  predicate Convertible(kept: seq<HistoryEntry>) {
    forall i :: 0 <= i < |kept| ==> Kept(kept[i]) && "content" in kept[i]
  }

  function Messages(kept: seq<HistoryEntry>): (r: seq<Message>)
    requires Convertible(kept)
    ensures |r| == |kept|
    ensures forall i :: 0 <= i < |kept| ==> r[i] == MessageOf(kept[i])
  {
    if kept == [] then [] else [MessageOf(kept[0])] + Messages(kept[1..])
  }

  /** The transcript rebuilt from the history, or None when building a message fails. */
  function Rebuild(h: seq<HistoryEntry>): Option<seq<Message>> {
    if WellFormed(h) then KeptConvertible(h); Some(Messages(KeptEntries(h))) else None
  }

  /** The filter keeps exactly the user and assistant entries. */
  lemma KeptMembers(h: seq<HistoryEntry>)
    ensures forall e :: e in KeptEntries(h) <==> e in h && Kept(e)
  {
    FilterMembers(h, Kept);
  }

  lemma {:induction false} KeptConvertible(h: seq<HistoryEntry>)
    requires WellFormed(h)
    ensures Convertible(KeptEntries(h))
  {
    if h != [] {
      assert WellFormed(h[1..]) by {
        assert forall i :: 0 <= i < |h[1..]| ==> h[1..][i] == h[i + 1];
      }
      KeptConvertible(h[1..]);
    }
  }

  function UserEntry(text: string): HistoryEntry {
    map["role" := "user", "content" := text]
  }

  function AssistantEntry(text: string): HistoryEntry {
    map["role" := "assistant", "content" := text]
  }

  /** What one request to the endpoint yields. */
  function ChatReply(request: ChatRequest, today: string, model: LanguageModel, exec: Executor): ChatOutcome {
    match Rebuild(request.history)
    case None => Failed(MalformedHistory)
    case Some(msgs) =>
      var input := msgs + [Human(request.message)];
      RunBounds(input, Entry, 0, today, model, exec);
      match Run(input, Entry, 0, today, model, exec)
      case LimitReached(_, _) => Failed(RecursionLimitReached)
      case Completed(final, _) =>
        var text := Last(final).content;
        Answered(ChatResponse(text, request.sessionId, request.history + [UserEntry(request.message), AssistantEntry(text)]))
  }

  // ---------------------------------------------------------------------
  // Filtering and conversion distribute over concatenation
  // ---------------------------------------------------------------------

  lemma KeptAppend(a: seq<HistoryEntry>, b: seq<HistoryEntry>)
    ensures KeptEntries(a + b) == KeptEntries(a) + KeptEntries(b)
  {
    FilterAppend(a, b, Kept);
  }

  lemma MessagesAppend(a: seq<HistoryEntry>, b: seq<HistoryEntry>)
    requires Convertible(a) && Convertible(b)
    ensures Messages(a + b) == Messages(a) + Messages(b)
  {
    assert forall i :: 0 <= i < |a| ==> (a + b)[i] == a[i];
    assert forall i :: 0 <= i < |b| ==> (a + b)[|a| + i] == b[i];
  }

  /** Extending the history by one entry extends the filter and the well-formedness test by that entry. */
  lemma KeptSnoc(h: seq<HistoryEntry>, i: int)
    requires 0 <= i < |h|
    ensures KeptEntries(h[..i + 1]) == KeptEntries(h[..i]) + (if Kept(h[i]) then [h[i]] else [])
    ensures WellFormed(h[..i + 1]) <==> WellFormed(h[..i]) && (Kept(h[i]) ==> "content" in h[i])
  {
    assert h[..i + 1] == h[..i] + [h[i]];
    KeptAppend(h[..i], [h[i]]);
    assert KeptEntries([h[i]]) == (if Kept(h[i]) then [h[i]] else []) + KeptEntries([]);
    assert h[..i + 1][i] == h[i];
    assert forall j :: 0 <= j < i ==> h[..i + 1][j] == h[..i][j];
  }

  /** A malformed prefix makes the whole history malformed. */
  lemma MalformedPrefix(h: seq<HistoryEntry>, i: int)
    requires 0 <= i < |h| && Kept(h[i]) && "content" !in h[i]
    ensures Rebuild(h) == None
  {
  }

  /** Converting one more entry appends its message, if it is kept. */
  lemma MessagesSnoc(h: seq<HistoryEntry>, i: int)
    requires 0 <= i < |h| && Convertible(KeptEntries(h[..i]))
    requires Kept(h[i]) ==> "content" in h[i]
    ensures Convertible(KeptEntries(h[..i + 1]))
    ensures Messages(KeptEntries(h[..i + 1]))
         == Messages(KeptEntries(h[..i])) + (if Kept(h[i]) then [MessageOf(h[i])] else [])
  {
    KeptSnoc(h, i);
    var extra := if Kept(h[i]) then [h[i]] else [];
    assert Convertible(extra);
    MessagesAppend(KeptEntries(h[..i]), extra);
    assert Convertible(KeptEntries(h[..i + 1])) by {
      var a, b := KeptEntries(h[..i]), extra;
      assert forall j :: 0 <= j < |a| ==> (a + b)[j] == a[j];
      assert forall j :: 0 <= j < |b| ==> (a + b)[|a| + j] == b[j];
    }
  }

  /** The conversion loop. */
  method BuildMessages(history: seq<HistoryEntry>) returns (r: Option<seq<Message>>)
    ensures r == Rebuild(history)
  {
    var messages: seq<Message> := [];
    var i := 0;
    while i < |history|
      invariant 0 <= i <= |history| && WellFormed(history[..i])
      invariant Convertible(KeptEntries(history[..i]))
      invariant messages == Messages(KeptEntries(history[..i]))
    {
      var entry := history[i];
      KeptSnoc(history, i);
      if Kept(entry) && "content" !in entry {
        MalformedPrefix(history, i);
        return None;
      }
      MessagesSnoc(history, i);
      if HasRole(entry, "user") || HasRole(entry, "assistant") {
        if HasRole(entry, "user") {
          messages := messages + [Human(entry["content"])];
        } else {
          messages := messages + [Ai(entry["content"], [])];
        }
      }
      i := i + 1;
    }
    assert history[..i] == history;
    r := Some(messages);
  }

  /** `chat_with_agent`. */
  method ChatWithAgent(request: ChatRequest, today: string, model: LanguageModel, exec: Executor)
    returns (outcome: ChatOutcome)
    ensures outcome == ChatReply(request, today, model, exec)
  {
    var rebuilt := BuildMessages(request.history);
    if rebuilt.None? {
      return Failed(MalformedHistory);
    }
    var messages := rebuilt.value + [Human(request.message)];
    var finalState := Invoke(messages, today, model, exec);
    RunBounds(messages, Entry, 0, today, model, exec);
    if finalState.LimitReached? {
      return Failed(RecursionLimitReached);
    }
    var responseText := Last(finalState.messages).content;
    var newHistory := request.history + [UserEntry(request.message), AssistantEntry(responseText)];
    outcome := Answered(ChatResponse(responseText, request.sessionId, newHistory));
  }

  // ---------------------------------------------------------------------
  // Properties of the endpoint
  // ---------------------------------------------------------------------

  /**
   * The rebuilt transcript keeps exactly the user and assistant entries, in
   * their order, with their content; the input to the graph ends with the
   * new user message and is one longer.
   */
  lemma GraphInput(h: seq<HistoryEntry>, message: string)
    requires WellFormed(h)
    ensures var input := Rebuild(h).value + [Human(message)];
      && |input| == |KeptEntries(h)| + 1
      && Last(input) == Human(message)
      && (forall i :: 0 <= i < |KeptEntries(h)| ==>
            "content" in KeptEntries(h)[i] && input[i].content == KeptEntries(h)[i]["content"]
            && (input[i].Human? <==> HasRole(KeptEntries(h)[i], "user")))
  {
    KeptConvertible(h);
  }

  /** Dropped entries do not affect the transcript: entries of other roles can be inserted anywhere. */
  lemma DroppedEntriesIgnored(a: seq<HistoryEntry>, other: HistoryEntry, b: seq<HistoryEntry>)
    requires !Kept(other)
    ensures KeptEntries(a + [other] + b) == KeptEntries(a + b)
    ensures WellFormed(a + [other] + b) <==> WellFormed(a + b)
  {
    KeptAppend(a + [other], b);
    KeptAppend(a, [other]);
    KeptAppend(a, b);
    assert KeptEntries([other]) == [] + KeptEntries([]);
    var x := a + [other] + b;
    var y := a + b;
    if WellFormed(y) {
      forall i | 0 <= i < |x| && Kept(x[i]) ensures "content" in x[i] {
        if i < |a| { assert x[i] == y[i]; }
        else if i > |a| { assert x[i] == y[i - 1]; }
      }
    }
    if WellFormed(x) {
      forall i | 0 <= i < |y| && Kept(y[i]) ensures "content" in y[i] {
        if i < |a| { assert y[i] == x[i]; } else { assert y[i] == x[i + 1]; }
      }
    }
  }

  /** A user or assistant entry without content makes the whole request fail. */
  lemma MissingContentFails(request: ChatRequest, today: string, model: LanguageModel, exec: Executor, i: int)
    requires 0 <= i < |request.history| && Kept(request.history[i]) && "content" !in request.history[i]
    ensures ChatReply(request, today, model, exec) == Failed(MalformedHistory)
  {
  }

  /**
   * An answered request echoes the session, returns the content of the final
   * model message, which asks for no tool, and extends the history by exactly
   * the user entry and the assistant entry.
   */
  lemma AnsweredShape(request: ChatRequest, today: string, model: LanguageModel, exec: Executor)
    requires ChatReply(request, today, model, exec).Answered?
    ensures var resp := ChatReply(request, today, model, exec).reply;
      && resp.sessionId == request.sessionId
      && |resp.history| == |request.history| + 2
      && resp.history[..|request.history|] == request.history
      && resp.history[|request.history|] == UserEntry(request.message)
      && resp.history[|request.history| + 1] == AssistantEntry(resp.response)
  {
  }

  /** The reply is the content of the model message that ended the run. */
  lemma AnswerIsFinalModelReply(request: ChatRequest, today: string, model: LanguageModel, exec: Executor)
    requires Rebuild(request.history).Some?
    ensures var input := Rebuild(request.history).value + [Human(request.message)];
      var run := Run(input, Entry, 0, today, model, exec);
      && (ChatReply(request, today, model, exec).Answered? <==> run.Completed?)
      && (run.Completed? ==>
            && input <= run.messages && |run.messages| > |input|
            && Last(run.messages).Ai? && Last(run.messages).toolCalls == []
            && run.steps <= RecursionLimit
            && ChatReply(request, today, model, exec).reply.response == Last(run.messages).content)
  {
    var input := Rebuild(request.history).value + [Human(request.message)];
    CompletedTurn(input, today, model, exec);
  }

  /** The request fails exactly on a malformed history or a run that reaches the limit. */
  lemma FailsIff(request: ChatRequest, today: string, model: LanguageModel, exec: Executor)
    ensures ChatReply(request, today, model, exec).Failed? <==>
      !WellFormed(request.history)
      || Run(Rebuild(request.history).value + [Human(request.message)], Entry, 0, today, model, exec).LimitReached?
  {
  }

  /** A model that answers at once is quoted verbatim. */
  lemma DirectReply(request: ChatRequest, today: string, model: LanguageModel, exec: Executor)
    requires WellFormed(request.history)
    requires model(Rebuild(request.history).value + [Human(request.message)], today).toolCalls == []
    ensures ChatReply(request, today, model, exec).Answered?
    ensures ChatReply(request, today, model, exec).reply.response
         == model(Rebuild(request.history).value + [Human(request.message)], today).content
  {
    DirectAnswer(Rebuild(request.history).value + [Human(request.message)], today, model, exec);
  }
}
