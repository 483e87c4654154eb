/** The JavaScript-developer chat use case: a process-wide record of chat logs keyed
    by conversation id. A log is seeded with one system message the first time its id
    is seen; each request appends the user message before asking for a completion and
    the assistant message after it. The log itself is never trimmed; only the messages
    sent along are cut to the system message and the ten newest entries. */
module JavascriptDeveloper {
  import opened Results

  datatype ChatRole = System | User | Assistant

  /** A chat message; an assistant message may come back without content (`null`). */
  datatype ChatMessage = ChatMessage(role: ChatRole, content: Option<string>)

  /** `MAX_HISTORY` */
  const MaxHistory: nat := 10
  const CompletionModel: string := "gpt-4.1-nano"

  const SystemContent: string :=
    "\n        Eres un asistente experto en desarrollo web y mobile. Mas enfocado en javascript y typescript. \n"
    + "          \n"
    + "        Brindando respuestas con clean code, ofreciendo soluciones simples y soluciones escalables\n"
    + "        "

  /** The message every log starts with. */
  const SystemMessage: ChatMessage := ChatMessage(System, Some(SystemContent))

  function UserMessage(prompt: string): ChatMessage
  {
    ChatMessage(User, Some(prompt))
  }

  /** `Array.prototype.slice(start)`: a negative start counts from the end, and a start
      outside the array is clamped to it. */
  function SliceFrom<T>(s: seq<T>, start: int): seq<T>
  {
    var from := if start < 0 then (if |s| + start < 0 then 0 else |s| + start)
                else (if start > |s| then |s| else start);
    s[from..]
  }

  /** `[log[0], ...log.slice(-MAX_HISTORY)]`: the first message of the log, then its
      ten newest messages (all of them while the log is short). */
  function MessagesToSend(log: seq<ChatMessage>): seq<ChatMessage>
    requires |log| >= 1
  {
    [log[0]] + SliceFrom(log, -(MaxHistory as int))
  }

  /** What is sent: the first message of the log, then the whole log while it holds at
      most ten messages, else exactly its ten newest. */
  lemma MessagesToSendShape(log: seq<ChatMessage>)
    requires |log| >= 1
    ensures var sent := MessagesToSend(log);
            && 2 <= |sent| <= MaxHistory + 1
            && sent[0] == log[0]
            && sent[|sent| - 1] == log[|log| - 1]
            && (|log| <= MaxHistory ==> sent[1..] == log)
            && (|log| > MaxHistory ==> |sent| == MaxHistory + 1 && sent[1..] == log[|log| - MaxHistory..])
  {
  }

  /** The log a request starts from: the stored one, or a fresh one holding only the
      system message. */
  function LogBefore(conversations: map<string, seq<ChatMessage>>, conversationId: string): seq<ChatMessage>
  {
    if conversationId in conversations then conversations[conversationId] else [SystemMessage]
  }

  /** The log after a request: the user message always stays, and the assistant message
      follows it when the completion succeeded. */
  function Step(log: seq<ChatMessage>, prompt: string, outcome: Result<Option<string>>): seq<ChatMessage>
  {
    var pending := log + [UserMessage(prompt)];
    if outcome.Ok? then pending + [ChatMessage(Assistant, outcome.value)] else pending
  }

  /** How many system messages a log holds. */
  function SystemCount(log: seq<ChatMessage>): nat
  {
    if |log| == 0 then 0
    else SystemCount(log[..|log| - 1]) + (if log[|log| - 1].role == System then 1 else 0)
  }

  lemma {:induction false} SystemCountAppend(a: seq<ChatMessage>, b: seq<ChatMessage>)
    ensures SystemCount(a + b) == SystemCount(a) + SystemCount(b)
    decreases |b|
  {
    if |b| > 0 {
      assert (a + b)[..|a + b| - 1] == a + b[..|b| - 1];
      SystemCountAppend(a, b[..|b| - 1]);
    } else {
      assert a + b == a;
    }
  }

  /** The shape every stored log keeps: the system message first and nowhere else. */
  ghost predicate WellFormedChat(log: seq<ChatMessage>)
  {
    |log| >= 1 && log[0] == SystemMessage && forall i | 1 <= i < |log| :: log[i].role != System
  }

  /** A request never shortens a log and never rewrites it: it adds the user message,
      and the assistant message only on success; a failed completion leaves the user
      message in place. */
  lemma StepNeverTrims(log: seq<ChatMessage>, prompt: string, outcome: Result<Option<string>>)
    ensures var next := Step(log, prompt, outcome);
            && next[..|log|] == log
            && next[|log|] == UserMessage(prompt)
            && |next| == |log| + (if outcome.Ok? then 2 else 1)
            && (outcome.Ok? ==> next[|log| + 1] == ChatMessage(Assistant, outcome.value))
  {
  }

  /** A request keeps a log well formed, so the seeded system message stays the only one. */
  lemma StepKeepsWellFormed(log: seq<ChatMessage>, prompt: string, outcome: Result<Option<string>>)
    requires WellFormedChat(log)
    ensures WellFormedChat(Step(log, prompt, outcome))
    ensures SystemCount(Step(log, prompt, outcome)) == 1
  {
    var next := Step(log, prompt, outcome);
    forall i | 1 <= i < |next| ensures next[i].role != System {
      if i < |log| {
        assert next[i] == log[i];
      }
    }
    WellFormedHasOneSystem(next);
  }

  lemma {:induction false} WellFormedHasOneSystem(log: seq<ChatMessage>)
    requires WellFormedChat(log)
    ensures SystemCount(log) == 1
  {
    NoSystemCount(log[1..]);
    SystemCountAppend([log[0]], log[1..]);
    assert [log[0]] + log[1..] == log;
    assert [log[0]][..0] == [];
  }

  lemma {:induction false} NoSystemCount(log: seq<ChatMessage>)
    requires forall i | 0 <= i < |log| :: log[i].role != System
    ensures SystemCount(log) == 0
  {
    if |log| > 0 {
      NoSystemCount(log[..|log| - 1]);
    }
  }

  /** While the log holds at most ten messages the system message is sent twice, first
      and second. */
  lemma SystemSentTwiceWhileShort(log: seq<ChatMessage>)
    requires WellFormedChat(log) && |log| <= MaxHistory
    ensures var sent := MessagesToSend(log);
            sent[0] == SystemMessage && sent[1] == SystemMessage
  {
    MessagesToSendShape(log);
  }

  /** Once the log is longer, the system message is sent once, at the front. */
  lemma SystemSentOnceWhenLong(log: seq<ChatMessage>)
    requires WellFormedChat(log) && |log| > MaxHistory
    ensures var sent := MessagesToSend(log);
            sent[0] == SystemMessage && forall i | 1 <= i < |sent| :: sent[i].role != System
  {
    var sent := MessagesToSend(log);
    MessagesToSendShape(log);
    forall i | 1 <= i < |sent| ensures sent[i].role != System {
      assert sent[i] == log[|log| - MaxHistory + i - 1];
    }
  }

  /** The newest message sent is the prompt just appended. */
  lemma LastSentIsPrompt(log: seq<ChatMessage>, prompt: string)
    ensures var sent := MessagesToSend(log + [UserMessage(prompt)]);
            sent[|sent| - 1] == UserMessage(prompt)
  {
    MessagesToSendShape(log + [UserMessage(prompt)]);
  }

  /** One request on a conversation: the prompt and what the completion returned. */
  datatype Request = Request(prompt: string, outcome: Result<Option<string>>)

  /** The log of a fresh conversation id after a sequence of requests. */
  function Replay(requests: seq<Request>): seq<ChatMessage>
  {
    if |requests| == 0 then [SystemMessage]
    else
      var last := requests[|requests| - 1];
      Step(Replay(requests[..|requests| - 1]), last.prompt, last.outcome)
  }

  function Successes(requests: seq<Request>): nat
  {
    if |requests| == 0 then 0
    else Successes(requests[..|requests| - 1]) + (if requests[|requests| - 1].outcome.Ok? then 1 else 0)
  }

  /** No bound: after `n` requests of which `k` succeeded, the log holds the system
      message, `n` user messages and `k` assistant messages. */
  lemma {:induction false} ReplayLength(requests: seq<Request>)
    ensures |Replay(requests)| == 1 + |requests| + Successes(requests)
    ensures WellFormedChat(Replay(requests))
  {
    if |requests| > 0 {
      var last := requests[|requests| - 1];
      ReplayLength(requests[..|requests| - 1]);
      StepKeepsWellFormed(Replay(requests[..|requests| - 1]), last.prompt, last.outcome);
    }
  }

  /** Members an empty object literal inherits from `Object.prototype`. */
  const ObjectPrototypeMembers: set<string> := {
    "constructor", "__proto__", "hasOwnProperty", "isPrototypeOf", "propertyIsEnumerable",
    "toLocaleString", "toString", "valueOf", "__defineGetter__", "__defineSetter__",
    "__lookupGetter__", "__lookupSetter__"
  }

  /** What reading `conversations[conversationId]` gives on the object literal. */
  datatype PropertyRead = Undefined | OwnLog(log: seq<ChatMessage>) | InheritedMember

  function ReadProperty(conversations: map<string, seq<ChatMessage>>, conversationId: string): PropertyRead
  {
    if conversationId in conversations then OwnLog(conversations[conversationId])
    else if conversationId in ObjectPrototypeMembers then InheritedMember
    else Undefined
  }

  /** As written: the array `push` is called on after the seeding check. An inherited
      member is truthy, so it is not replaced by a fresh log, and it has no `push`:
      `None` stands for the TypeError thrown then. Off the inherited names this is the
      intended lookup. */
  function PushTargetAsWritten(conversations: map<string, seq<ChatMessage>>, conversationId: string)
    : (target: Option<seq<ChatMessage>>)
    ensures conversationId !in ObjectPrototypeMembers ==> target == Some(LogBefore(conversations, conversationId))
    ensures conversationId !in conversations && conversationId in ObjectPrototypeMembers ==> target == None
  {
    match ReadProperty(conversations, conversationId)
    case Undefined => Some([SystemMessage])
    case OwnLog(log) => Some(log)
    case InheritedMember => None
  }

  /** The id "constructor" makes the first request fail as written, while every id,
      this one included, should start a fresh seeded conversation. */
  lemma ConstructorIdFailsAsWritten()
    ensures PushTargetAsWritten(map[], "constructor") == None
    ensures LogBefore(map[], "constructor") == [SystemMessage]
  {
  }

  /** Corrected lookup: an id never seen before, whatever its name, reads as a fresh log
      with exactly one system message, and a stored log is never re-seeded. */
  lemma LogBeforeSeedsOnce(conversations: map<string, seq<ChatMessage>>, conversationId: string)
    ensures conversationId !in conversations ==> LogBefore(conversations, conversationId) == [SystemMessage]
    ensures conversationId !in conversations ==> SystemCount(LogBefore(conversations, conversationId)) == 1
    ensures conversationId in conversations ==> LogBefore(conversations, conversationId) == conversations[conversationId]
  {
    if conversationId !in conversations {
      assert [SystemMessage][..0] == [];
    }
  }

  /** Every log of a store is well formed. */
  ghost predicate AllWellFormed(conversations: map<string, seq<ChatMessage>>)
  {
    forall id | id in conversations :: WellFormedChat(conversations[id])
  }

  lemma StoreUpdateKeepsWellFormed(conversations: map<string, seq<ChatMessage>>, id: string, log: seq<ChatMessage>)
    requires AllWellFormed(conversations) && WellFormedChat(log)
    ensures AllWellFormed(conversations[id := log])
  {
  }

  /** The process-wide `conversations` record, read through its own keys only. */
  class ChatStore {
    var conversations: map<string, seq<ChatMessage>>

    ghost predicate Valid()
      reads this
    {
      AllWellFormed(conversations)
    }

    constructor ()
      ensures Valid() && conversations == map[]
    {
      conversations := map[];
    }

    /** The use case. `complete` is the chat-completion call, given the model and the
        messages, yielding the assistant message's content or the error it throws. */
    method Develop(prompt: string, conversationId: string,
                   complete: (string, seq<ChatMessage>) -> Result<Option<string>>)
      returns (output: Result<Option<string>>)
      requires Valid()
      modifies this
      ensures Valid()
      ensures var log := LogBefore(old(conversations), conversationId);
              var outcome := complete(CompletionModel, MessagesToSend(log + [UserMessage(prompt)]));
              && output == outcome
              && conversations == old(conversations)[conversationId := Step(log, prompt, outcome)]
    {
      ghost var log := LogBefore(conversations, conversationId);
      if conversationId !in conversations {
        conversations := conversations[conversationId := [SystemMessage]];
      }
      var pending := conversations[conversationId] + [UserMessage(prompt)];
      conversations := conversations[conversationId := pending];
      var messagesToSend := MessagesToSend(pending);
      var completion := complete(CompletionModel, messagesToSend);
      ghost var next := Step(log, prompt, completion);
      StepKeepsWellFormed(log, prompt, completion);
      StoreUpdateKeepsWellFormed(old(conversations), conversationId, next);
      if completion.Err? {
        assert conversations == old(conversations)[conversationId := next];
        output := Err(completion.message);
        return;
      }
      var assistantMessage := ChatMessage(Assistant, completion.value);
      conversations := conversations[conversationId := pending + [assistantMessage]];
      assert conversations == old(conversations)[conversationId := next];
      output := Ok(assistantMessage.content);
    }
  }
}
