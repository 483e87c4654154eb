/** The developer agent use case: a process-wide store of conversations keyed by
    conversation id, each holding at most the ten most recent user/assistant turns.
    A request reads the conversation, hands its serialised text to the agent, and
    only once the agent has answered writes the new pair of turns back. */
module DeveloperAgent {
  import opened Results
  import Text
  import GoogleWebSearchTool

  datatype Role = User | Assistant

  /** One stored turn; the timestamp is an opaque ISO-8601 string. */
  datatype Message = Message(role: Role, content: string, timestamp: string)

  /** `MAX_HISTORY_SIZE` */
  const MaxHistorySize: nat := 10
  const DefaultModel: string := "gpt-4o-mini"
  const AgentName: string := "Developer Agent"
  const EmptyPromptMessage: string := "The prompt cannot be empty."
  const FailurePrefix: string := "Failed to process developer request: "
  const FallbackReply: string := "No se recibió una respuesta válida."

  /** The agent's instruction template, filled with the conversation id and the prompt;
      `InstructionsText` is the text it stands for. */
  datatype Instructions = DeveloperInstructions(conversationId: string, prompt: string)

  /** What the agent is constructed with. */
  datatype AgentConfig = AgentConfig(name: string, model: string, toolNames: seq<string>, instructions: Instructions)

  /** What a run of the agent yields; `finalOutput` may be absent. */
  datatype RunResult = RunResult(finalOutput: Option<string>)

  /** The record the use case logs before returning its `output`. */
  datatype AgentResponse = AgentResponse(output: Option<string>, conversationId: string, messageCount: nat, timestamp: string)

  function RoleName(role: Role): string
  {
    match role
    case User => "user"
    case Assistant => "assistant"
  }

  /** The fixed text before the conversation id, between it and the prompt, and after
      the prompt. */
  const InstructionsHead: string :=
    "\n        You are an expert software development assistant.\n"
    + "        Your role is to help developers with their technical queries,\n"
    + "        providing clean code, best practices, and clear explanations.\n\n"
    + "        If you don't have enough information to respond, search the web.\n\n"
    + "        Conversation context: "
  const InstructionsMiddle: string := "\n\n        Additional instructions: "
  const InstructionsTail: string := "\n      "

  /** The instruction text, with the conversation id and the prompt filled in. */
  function InstructionsText(instructions: Instructions): string
  {
    InstructionsHead + instructions.conversationId + InstructionsMiddle + instructions.prompt + InstructionsTail
  }

  /** The agent built for one request: the requested model or the default, and the
      web search tool. */
  function MakeAgent(model: Option<string>, conversationId: string, prompt: string): (agent: AgentConfig)
    ensures agent.model == if model.Some? then model.value else DefaultModel
    ensures agent.toolNames == [GoogleWebSearchTool.ToolName]
  {
    AgentConfig(AgentName, if model.Some? then model.value else DefaultModel,
                [GoogleWebSearchTool.ToolName], DeveloperInstructions(conversationId, prompt))
  }

  /** The agent is named "Developer Agent", and its instructions carry the conversation
      id and the prompt verbatim, between the fixed parts of the template. */
  lemma InstructionsCarryRequest(model: Option<string>, conversationId: string, prompt: string)
    ensures var agent := MakeAgent(model, conversationId, prompt);
            var text := InstructionsText(agent.instructions);
            var idEnd := |InstructionsHead| + |conversationId|;
            && agent.name == AgentName
            && |text| == idEnd + |InstructionsMiddle| + |prompt| + |InstructionsTail|
            && text[..|InstructionsHead|] == InstructionsHead
            && text[|InstructionsHead|..idEnd] == conversationId
            && text[idEnd..idEnd + |InstructionsMiddle|] == InstructionsMiddle
            && text[idEnd + |InstructionsMiddle|..|text| - |InstructionsTail|] == prompt
  {
    FillSlots(InstructionsHead, conversationId, InstructionsMiddle, prompt, InstructionsTail);
  }

  /** Each piece of a five-part concatenation sits at its place. */
  lemma FillSlots(head: string, first: string, middle: string, second: string, tail: string)
    ensures var text := head + first + middle + second + tail;
            var firstEnd := |head| + |first|;
            && |text| == firstEnd + |middle| + |second| + |tail|
            && text[..|head|] == head
            && text[|head|..firstEnd] == first
            && text[firstEnd..firstEnd + |middle|] == middle
            && text[firstEnd + |middle|..|text| - |tail|] == second
  {
    var text := head + first + middle + second + tail;
    var firstEnd := |head| + |first|;
    assert text[..|head|] == head;
    assert text[|head|..firstEnd] == first;
    assert text[firstEnd..firstEnd + |middle|] == middle;
    assert text[firstEnd + |middle|..|text| - |tail|] == second;
  }

  /** A stored turn as one line of the agent's input. */
  function HistoryLine(m: Message): string
  {
    RoleName(m.role) + ": " + m.content
  }

  function HistoryLines(history: seq<Message>): seq<string>
  {
    seq(|history|, i requires 0 <= i < |history| => HistoryLine(history[i]))
  }

  /** The input handed to the agent: one `role: content` line per stored turn, in
      stored order, then the new `user:` line, joined by newlines. */
  function PromptWithHistory(history: seq<Message>, prompt: string): string
  {
    Text.Join(HistoryLines(history) + ["user: " + prompt], "\n")
  }

  /** An unseen conversation sends the prompt line alone. */
  lemma PromptWithoutHistory(prompt: string)
    ensures PromptWithHistory([], prompt) == "user: " + prompt
  {
    assert HistoryLines([]) + ["user: " + prompt] == ["user: " + prompt];
  }

  /** With history, the input is the history's lines, a newline, and the prompt line. */
  lemma PromptAfterHistory(history: seq<Message>, prompt: string)
    requires |history| >= 1
    ensures PromptWithHistory(history, prompt)
            == Text.Join(HistoryLines(history), "\n") + "\n" + "user: " + prompt
  {
    Text.JoinSnoc(HistoryLines(history), "user: " + prompt, "\n");
  }

  /** In the agent's input, a turn stored after others comes after their lines, on its
      own line, and the new prompt's line comes last. */
  lemma HistoryLinesInStoredOrder(history: seq<Message>, m: Message, prompt: string)
    requires |history| >= 1
    ensures PromptWithHistory(history + [m], prompt)
            == Text.Join(HistoryLines(history), "\n") + "\n" + HistoryLine(m) + "\n" + "user: " + prompt
  {
    assert HistoryLines(history + [m]) == HistoryLines(history) + [HistoryLine(m)];
    Text.JoinSnoc(HistoryLines(history), HistoryLine(m), "\n");
    PromptAfterHistory(history + [m], prompt);
  }

  /** `finalOutput || 'No se recibió una respuesta válida.'`: the reply that is stored. */
  function StoredReply(finalOutput: Option<string>): (reply: string)
    ensures reply != ""
    ensures finalOutput.Some? && finalOutput.value != "" ==> reply == finalOutput.value
    ensures finalOutput.None? || finalOutput.value == "" ==> reply == FallbackReply
  {
    if finalOutput.Some? && finalOutput.value != "" then finalOutput.value else FallbackReply
  }

  /** The trim: a log longer than the bound keeps only its newest entries. */
  function Window(log: seq<Message>): (w: seq<Message>)
    ensures |w| == Text.Min(|log|, MaxHistorySize)
    ensures w == log[|log| - |w|..]
  {
    if |log| > MaxHistorySize then log[|log| - MaxHistorySize..] else log
  }

  /** The stored log after a successful request. */
  function AppendExchange(history: seq<Message>, user: Message, reply: Message): seq<Message>
  {
    Window(history + [user, reply])
  }

  /** The new log holds `min(|history| + 2, 10)` entries: the newest are the user turn
      and then the reply, and before them the newest of the old entries, in order. */
  lemma AppendExchangeShape(history: seq<Message>, user: Message, reply: Message)
    ensures var r := AppendExchange(history, user, reply);
            && |r| == Text.Min(|history| + 2, MaxHistorySize)
            && r[|r| - 2] == user && r[|r| - 1] == reply
            && r[..|r| - 2] == history[|history| - (|r| - 2)..]
  {
    var full := history + [user, reply];
    var r := Window(full);
    var d := |full| - |r|;
    assert r == full[d..];
    assert r[..|r| - 2] == full[d..|full| - 2];
    assert full[..|full| - 2] == history;
  }

  /** A conversation already at the bound loses its two oldest turns. */
  lemma AppendExchangeAtCapacity(history: seq<Message>, user: Message, reply: Message)
    requires |history| == MaxHistorySize
    ensures AppendExchange(history, user, reply) == history[2..] + [user, reply]
  {
    var full := history + [user, reply];
    assert full[2..] == history[2..] + [user, reply];
  }

  /** The role at a position of a stored log: user turns at even positions. */
  function RoleAt(i: nat): Role
  {
    if i % 2 == 0 then User else Assistant
  }

  ghost predicate Alternates(log: seq<Message>)
  {
    forall i | 0 <= i < |log| :: log[i].role == RoleAt(i)
  }

  /** The shape every stored log keeps: at most ten entries, alternating user and
      assistant turns, starting with a user turn and ending with a reply. */
  ghost predicate WellFormedLog(log: seq<Message>)
  {
    |log| <= MaxHistorySize && |log| % 2 == 0 && Alternates(log)
  }

  lemma RoleAtShift(i: nat, d: nat)
    requires d % 2 == 0
    ensures RoleAt(i + d) == RoleAt(i)
  {
  }

  lemma AlternatesAppendPair(log: seq<Message>, user: Message, reply: Message)
    requires Alternates(log) && |log| % 2 == 0
    requires user.role == User && reply.role == Assistant
    ensures Alternates(log + [user, reply])
  {
    var full := log + [user, reply];
    forall i | 0 <= i < |full| ensures full[i].role == RoleAt(i) {
      if i < |log| {
        assert full[i] == log[i];
      } else if i == |log| {
        RoleAtShift(0, |log|);
      } else {
        RoleAtShift(1, |log|);
      }
    }
  }

  lemma AlternatesDropEven(log: seq<Message>, d: nat)
    requires Alternates(log) && d % 2 == 0 && d <= |log|
    ensures Alternates(log[d..])
  {
    var rest := log[d..];
    forall i | 0 <= i < |rest| ensures rest[i].role == RoleAt(i) {
      assert rest[i] == log[i + d];
      RoleAtShift(i, d);
    }
  }

  /** Appending a user turn and a reply and trimming keeps a log well formed: the trim
      always drops an even number of entries. */
  lemma AppendExchangeKeepsWellFormed(history: seq<Message>, user: Message, reply: Message)
    requires WellFormedLog(history)
    requires user.role == User && reply.role == Assistant
    ensures WellFormedLog(AppendExchange(history, user, reply))
  {
    var full := history + [user, reply];
    AlternatesAppendPair(history, user, reply);
    var d := |full| - |Window(full)|;
    assert d == 0 || d == |history| + 2 - MaxHistorySize;
    AlternatesDropEven(full, d);
    assert Window(full) == full[d..];
  }

  /** One successful request: the user turn and the stored reply. */
  datatype Exchange = Exchange(user: Message, reply: Message)

  /** The store's entry after a sequence of successful requests on a fresh id. */
  function Replay(exchanges: seq<Exchange>): seq<Message>
  {
    if |exchanges| == 0 then []
    else
      var last := exchanges[|exchanges| - 1];
      AppendExchange(Replay(exchanges[..|exchanges| - 1]), last.user, last.reply)
  }

  /** Every turn of those requests, oldest first, with nothing dropped. */
  function AllTurns(exchanges: seq<Exchange>): seq<Message>
  {
    if |exchanges| == 0 then []
    else
      var last := exchanges[|exchanges| - 1];
      AllTurns(exchanges[..|exchanges| - 1]) + [last.user, last.reply]
  }

  /** Trimming before appending a tail is the same as trimming after it. */
  lemma WindowAbsorbs(log: seq<Message>, tail: seq<Message>)
    ensures Window(Window(log) + tail) == Window(log + tail)
  {
    var w := Window(log);
    var k := |log| - |w|;
    assert log + tail == log[..k] + (w + tail);
    var a := Window(w + tail);
    var b := Window(log + tail);
    assert |a| == |b|;
    assert a == (w + tail)[|w + tail| - |a|..];
    assert b == (log + tail)[|log + tail| - |b|..];
    forall i | 0 <= i < |a| ensures a[i] == b[i] {
      assert (log + tail)[|log + tail| - |b| + i] == (w + tail)[|w + tail| - |a| + i];
    }
  }

  /** The sliding window: after any number of successful requests the store holds
      exactly the ten most recent turns of all of them, in their original order. */
  lemma {:induction false} ReplayKeepsMostRecent(exchanges: seq<Exchange>)
    ensures Replay(exchanges) == Window(AllTurns(exchanges))
    ensures |AllTurns(exchanges)| == 2 * |exchanges|
  {
    if |exchanges| > 0 {
      var init := exchanges[..|exchanges| - 1];
      var last := exchanges[|exchanges| - 1];
      ReplayKeepsMostRecent(init);
      WindowAbsorbs(AllTurns(init), [last.user, last.reply]);
    }
  }

  /** After `k` successful requests a conversation holds `min(2k, 10)` turns. */
  lemma ReplayLength(exchanges: seq<Exchange>)
    ensures |Replay(exchanges)| == Text.Min(2 * |exchanges|, MaxHistorySize)
  {
    ReplayKeepsMostRecent(exchanges);
  }

  /** Every log of a store is well formed. */
  ghost predicate AllWellFormed(store: map<string, seq<Message>>)
  {
    forall id | id in store :: WellFormedLog(store[id])
  }

  lemma StoreUpdateKeepsWellFormed(store: map<string, seq<Message>>, id: string, log: seq<Message>)
    requires AllWellFormed(store) && WellFormedLog(log)
    ensures AllWellFormed(store[id := log])
  {
  }

  /** The process-wide `conversationHistory` map. */
  class ConversationStore {
    var conversationHistory: map<string, seq<Message>>

    ghost predicate Valid()
      reads this
    {
      AllWellFormed(conversationHistory)
    }

    constructor ()
      ensures Valid() && conversationHistory == map[]
    {
      conversationHistory := map[];
    }

    /** `conversationHistory.get(conversationId) || []` */
    function History(conversationId: string): seq<Message>
      reads this
    {
      if conversationId in conversationHistory then conversationHistory[conversationId] else []
    }

    /** The use case. `run` is the agent runtime, given the agent and its input;
        the three timestamps are the clock readings for the user turn, the reply and
        the logged record. `logged` is the record written to the console; `tools` is
        accepted and never read. */
    method Develop(prompt: string, conversationId: string, model: Option<string>, tools: Option<seq<string>>,
                   run: (AgentConfig, string) -> Result<RunResult>,
                   userTimestamp: string, replyTimestamp: string, responseTimestamp: string)
      returns (output: Result<Option<string>>, logged: Option<AgentResponse>)
      requires Valid()
      modifies this
      ensures Valid()
      // a blank prompt is refused before anything is read or run
      ensures Text.IsBlank(prompt) ==>
                output == Err(EmptyPromptMessage) && logged == None
                && conversationHistory == old(conversationHistory)
      ensures !Text.IsBlank(prompt) ==>
                var history := old(History(conversationId));
                var outcome := run(MakeAgent(model, conversationId, prompt), PromptWithHistory(history, prompt));
                // a failed run changes nothing and is reported with a prefix
                && (outcome.Err? ==>
                      output == Err(FailurePrefix + outcome.message) && logged == None
                      && conversationHistory == old(conversationHistory))
                // a successful run stores the pair, trimmed, and returns the raw output
                && (outcome.Ok? ==>
                      var finalOutput := outcome.value.finalOutput;
                      var user := Message(User, prompt, userTimestamp);
                      var reply := Message(Assistant, StoredReply(finalOutput), replyTimestamp);
                      && output == Ok(finalOutput)
                      && logged == Some(AgentResponse(finalOutput, conversationId, |history| + 2, responseTimestamp))
                      && conversationHistory == old(conversationHistory)[conversationId := AppendExchange(history, user, reply)])
    {
      Text.TrimEmptyIffBlank(prompt);
      if Text.Trim(prompt) == "" {
        output, logged := Err(EmptyPromptMessage), None;
        return;
      }
      var history := History(conversationId);
      var agent := MakeAgent(model, conversationId, prompt);
      var promptWithHistory := PromptWithHistory(history, prompt);
      var result := run(agent, promptWithHistory);
      if result.Err? {
        output, logged := Err(FailurePrefix + result.message), None;
        return;
      }
      var agentDeveloperReply := StoredReply(result.value.finalOutput);
      var response := [Message(User, prompt, userTimestamp), Message(Assistant, agentDeveloperReply, replyTimestamp)];
      var updatedHistory := history + response;
      ghost var newLog := AppendExchange(history, response[0], response[1]);
      AppendExchangeKeepsWellFormed(history, response[0], response[1]);
      conversationHistory := conversationHistory[conversationId := updatedHistory];
      if |updatedHistory| > MaxHistorySize {
        assert updatedHistory[|updatedHistory| - MaxHistorySize..] == newLog;
        conversationHistory := conversationHistory[conversationId := updatedHistory[|updatedHistory| - MaxHistorySize..]];
      } else {
        assert updatedHistory == newLog;
        conversationHistory := conversationHistory[conversationId := updatedHistory];
      }
      assert conversationHistory == old(conversationHistory)[conversationId := newLog];
      StoreUpdateKeepsWellFormed(old(conversationHistory), conversationId, newLog);
      logged := Some(AgentResponse(result.value.finalOutput, conversationId, |history| + 2, responseTimestamp));
      output := Ok(result.value.finalOutput);
    }
  }
}
