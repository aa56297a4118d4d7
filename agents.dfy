/** The tutoring agent: an orchestrator that extracts the student's intent, a
    router over that intent, and three worker nodes (answering, quiz generation,
    fallback) wired into a small graph. The language model is a function
    `llm` from prompts to raw replies; every node strips the reply it gets. */
module Agents {
  import opened Common
  import opened Text
  import opened ChatHistory

  /** The nodes of the graph. */
  datatype Node = Orchestrator | AnsweringNode | QuizGeneration | FallbackNode

  function NodeName(n: Node): string {
    match n
    case Orchestrator => "orchestrator"
    case AnsweringNode => "answering_node"
    case QuizGeneration => "quiz_generation"
    case FallbackNode => "fallback_node"
  }

  /** The number of messages a node's history object reads. */
  const RecentWindow: nat := 100
  /** The number of history entries a node passes to its prompt. */
  const PromptWindow: nat := 10

  /** The prompts the nodes send, with the values filled into their templates. */
  datatype Prompt =
    | IntentPrompt(text: string)
    | TutorPrompt(history: seq<(string, string)>, query: string, grade: string)
    | FallbackPrompt(history: seq<(string, string)>, question: string)
    | QuizPrompt(text: string)

  /** The agent state that the nodes read and update. */
  datatype AgentState = AgentState(
    question: string,
    userGrade: string,
    fullExplanation: string,
    messages: seq<Message>,
    stage: string,
    intent: string,
    quizQuestion: Option<string>)

  // ----- Routing -----

  /** `route_node`: a substring test on the lower-cased intent, in a fixed order. */
  function Route(intent: string): (n: Node)
    ensures n != Orchestrator
  {
    var i := LowerStr(intent);
    if Contains(i, "explanation") then AnsweringNode
    else if Contains(i, "quiz") then QuizGeneration
    else if Contains(i, "general") || Contains(i, "meta") then FallbackNode
    else FallbackNode
  }

  /** The route is the answering node exactly when the intent mentions
      "explanation", the quiz node exactly when it mentions "quiz" but not
      "explanation", and the fallback node otherwise. */
  lemma RouteSpec(intent: string)
    ensures Route(intent) == AnsweringNode <==> Contains(LowerStr(intent), "explanation")
    ensures Route(intent) == QuizGeneration <==>
      !Contains(LowerStr(intent), "explanation") && Contains(LowerStr(intent), "quiz")
    ensures Route(intent) == FallbackNode <==>
      !Contains(LowerStr(intent), "explanation") && !Contains(LowerStr(intent), "quiz")
  {
  }

  /** Routing does not depend on the case of the intent. */
  lemma RouteIgnoresCase(intent: string)
    ensures Route(LowerStr(intent)) == Route(intent)
  {
    LowerStrIdempotent(intent);
  }

  /** An empty intent goes to the fallback node. */
  lemma EmptyIntentFallsBack()
    ensures Route("") == FallbackNode
  {
    assert !Contains("", "explanation") && !Contains("", "quiz");
  }

  // ----- The graph -----

  /** The edges of `build_agent`: the orchestrator branches on the route, the
      answering node continues to quiz generation, and the other two end. */
  function Successor(n: Node, intent: string): (r: Option<Node>)
    ensures r.Some? ==> Rank(r.value) < Rank(n)
  {
    match n
    case Orchestrator => Some(Route(intent))
    case AnsweringNode => Some(QuizGeneration)
    case QuizGeneration => None
    case FallbackNode => None
  }

  function Rank(n: Node): nat {
    match n
    case Orchestrator => 3
    case AnsweringNode => 2
    case QuizGeneration => 1
    case FallbackNode => 1
  }

  /** The nodes visited from `n` until the graph ends. */
  function Walk(n: Node, intent: string): (r: seq<Node>)
    ensures r != [] && r[0] == n
    decreases Rank(n)
  {
    match Successor(n, intent)
    case None => [n]
    case Some(m) => [n] + Walk(m, intent)
  }

  /** One run of the graph, which starts at the orchestrator. */
  function Trace(intent: string): seq<Node> {
    Walk(Orchestrator, intent)
  }

  /** Every run is one of three: through the answering node into quiz
      generation, straight to quiz generation, or to the fallback node; a run
      that reaches the fallback node never reaches quiz generation. */
  lemma TraceShape(intent: string)
    ensures Trace(intent) in {[Orchestrator, AnsweringNode, QuizGeneration], [Orchestrator, QuizGeneration], [Orchestrator, FallbackNode]}
    ensures Trace(intent) == [Orchestrator, AnsweringNode, QuizGeneration] <==> Route(intent) == AnsweringNode
    ensures Trace(intent) == [Orchestrator, QuizGeneration] <==> Route(intent) == QuizGeneration
    ensures Trace(intent) == [Orchestrator, FallbackNode] <==> Route(intent) == FallbackNode
    ensures FallbackNode in Trace(intent) <==> QuizGeneration !in Trace(intent)
  {
    assert Walk(QuizGeneration, intent) == [QuizGeneration];
    assert Walk(FallbackNode, intent) == [FallbackNode];
    assert Walk(AnsweringNode, intent) == [AnsweringNode, QuizGeneration];
    var n := Route(intent);
    assert Trace(intent) == [Orchestrator] + Walk(n, intent);
    if n == AnsweringNode {
      assert Trace(intent) == [Orchestrator, AnsweringNode, QuizGeneration];
    } else if n == QuizGeneration {
      assert Trace(intent) == [Orchestrator, QuizGeneration];
    } else {
      assert Trace(intent) == [Orchestrator, FallbackNode];
    }
  }

  // ----- The history passed to the prompt -----

  /** The prompt entry of one message: human and AI messages become
      ("human", text) and ("assistant", text); other messages are dropped. */
  function Turn(m: Message): seq<(string, string)> {
    match m
    case Human(c) => [("human", c)]
    case Ai(c) => [("assistant", c)]
    case Other(_, _) => []
  }

  /** The history a node builds from its messages, in their order. */
  function Conversation(msgs: seq<Message>): (h: seq<(string, string)>)
    ensures |h| <= |msgs|
    ensures forall k :: 0 <= k < |h| ==> h[k].0 in {"human", "assistant"}
  {
    if msgs == [] then []
    else Conversation(msgs[..|msgs| - 1]) + Turn(msgs[|msgs| - 1])
  }

  /** The history of two logs one after the other is the two histories one after
      the other. */
  lemma {:induction false} ConversationAppend(a: seq<Message>, b: seq<Message>)
    ensures Conversation(a + b) == Conversation(a) + Conversation(b)
    decreases |b|
  {
    if b == [] {
      assert a + b == a;
    } else {
      var n := |b| - 1;
      assert (a + b)[..|a + b| - 1] == a + b[..n];
      assert (a + b)[|a + b| - 1] == b[n];
      ConversationAppend(a, b[..n]);
    }
  }

  /** A log of human and AI messages keeps every message: the history has one
      entry per message, with the message's text and its role. */
  lemma {:induction false} ConversationKeepsAll(msgs: seq<Message>)
    requires forall k :: 0 <= k < |msgs| ==> !msgs[k].Other?
    ensures |Conversation(msgs)| == |msgs|
    ensures forall k :: 0 <= k < |msgs| ==> Conversation(msgs)[k] == Turn(msgs[k])[0]
  {
    if msgs != [] {
      var n := |msgs| - 1;
      ConversationKeepsAll(msgs[..n]);
      assert forall k :: 0 <= k < n ==> msgs[..n][k] == msgs[k];
    }
  }

  /** The `for` loop over the messages that collects the prompt history. */
  method CollectHistory(msgs: seq<Message>) returns (h: seq<(string, string)>)
    ensures h == Conversation(msgs)
  {
    h := [];
    var i := 0;
    while i < |msgs|
      invariant 0 <= i <= |msgs|
      invariant h == Conversation(msgs[..i])
    {
      assert msgs[..i + 1][..i] == msgs[..i];
      match msgs[i] {
        case Human(c) => h := h + [("human", c)];
        case Ai(c) => h := h + [("assistant", c)];
        case Other(_, _) =>
      }
      i := i + 1;
    }
    assert msgs[..i] == msgs;
  }

  // ----- The nodes -----

  /** `orchestrator_node`: asks for the intent of the question and stores the
      stripped reply, changing nothing else. */
  function OrchestratorNode(s: AgentState, llm: Prompt -> string): (r: AgentState)
    ensures r.(intent := s.intent) == s
    ensures r.intent == Strip(llm(IntentPrompt(s.question)))
  {
    s.(intent := Strip(llm(IntentPrompt(s.question))))
  }

  /** `quiz_generation_node`: a quiz is generated from the full explanation; the
      history and every other field are left as they are. */
  function QuizGenerationNode(s: AgentState, llm: Prompt -> string): (r: AgentState)
    ensures r.(quizQuestion := s.quizQuestion) == s
    ensures r.quizQuestion == Some(Strip(llm(QuizPrompt(s.fullExplanation))))
  {
    s.(quizQuestion := Some(Strip(llm(QuizPrompt(s.fullExplanation)))))
  }

  /** Opens the session's history (creating it when missing) and reads its recent
      messages followed by the messages already in the state. */
  method LoadMessages(s: AgentState, sessionId: string, sessions: SessionStore)
    returns (history: MongoChatHistory, loaded: Result<seq<Message>>)
    modifies sessions
    ensures history.sessionId == sessionId && history.store == sessions && history.maxRecent == RecentWindow
    ensures sessions.docs == OpenSession(old(sessions.docs), sessionId)
    ensures loaded.Ok? <==> RecentMessages(sessions.docs, sessionId, RecentWindow).Ok?
    ensures loaded.Ok? ==> loaded.value == RecentMessages(sessions.docs, sessionId, RecentWindow).value + s.messages
    ensures loaded.Err? ==> loaded.error == RecentMessages(sessions.docs, sessionId, RecentWindow).error
  {
    history := new MongoChatHistory(sessionId, RecentWindow, sessions);
    match history.Messages()
    case Err(e) => loaded := Err(e);
    case Ok(ms) => loaded := Ok(ms + s.messages);
  }

  /** The stripped answer of the tutor prompt built from the last ten history
      entries of `msgs`. */
  function TutorAnswer(s: AgentState, msgs: seq<Message>, llm: Prompt -> string): string {
    Strip(llm(TutorPrompt(Tail(Conversation(msgs), PromptWindow), s.question, s.userGrade)))
  }

  /** The stripped reply of the fallback prompt built from the last ten history
      entries of `msgs`. */
  function FallbackReply(s: AgentState, msgs: seq<Message>, llm: Prompt -> string): string {
    Strip(llm(FallbackPrompt(Tail(Conversation(msgs), PromptWindow), s.question)))
  }

  /** The session's log after a node records a turn: the question, then the reply. */
  function LoggedTurn(docs: map<string, seq<StoredMessage>>, id: string, question: string, reply: string, t1: int, t2: int)
    : (r: map<string, seq<StoredMessage>>)
    ensures r.Keys == docs.Keys
    ensures id in docs ==> r[id] == docs[id] + [StoredMessage("human", question, t1), StoredMessage("ai", reply, t2)]
    ensures forall k :: k in docs && k != id ==> r[k] == docs[k]
  {
    Append(Append(docs, id, MessageToDict(Human(question), t1)), id, MessageToDict(Ai(reply), t2))
  }

  /** `answering_node`: answers the question from the last ten history entries,
      appends the question and then the answer to the session's log, stores the
      answer as the full explanation and moves to the quiz stage. */
  method RunAnsweringNode(s: AgentState, sessionId: string, sessions: SessionStore, llm: Prompt -> string, t1: int, t2: int)
    returns (r: Result<AgentState>)
    modifies sessions
    ensures var base := OpenSession(old(sessions.docs), sessionId);
      r.Err? ==>
        sessions.docs == base && RecentMessages(base, sessionId, RecentWindow).Err? &&
        r.error == RecentMessages(base, sessionId, RecentWindow).error
    ensures var base := OpenSession(old(sessions.docs), sessionId);
      r.Ok? ==>
        RecentMessages(base, sessionId, RecentWindow).Ok? &&
        var msgs := RecentMessages(base, sessionId, RecentWindow).value + s.messages;
        var answer := TutorAnswer(s, msgs, llm);
        r.value == s.(messages := msgs, fullExplanation := answer, stage := "quiz_generation") &&
        sessions.docs == LoggedTurn(base, sessionId, s.question, answer, t1, t2)
  {
    var history, loaded := LoadMessages(s, sessionId, sessions);
    if loaded.Err? {
      return Err(loaded.error);
    }
    var msgs := loaded.value;
    var h := CollectHistory(msgs);
    var answer := Strip(llm(TutorPrompt(Tail(h, PromptWindow), s.question, s.userGrade)));
    history.AddUserMessage(s.question, t1);
    history.AddAiMessage(answer, t2);
    r := Ok(s.(messages := msgs, fullExplanation := answer, stage := "quiz_generation"));
  }

  /** `fallback_node`: replies from the last ten history entries, stores the reply
      as the full explanation, appends the question and then the reply to the
      session's log, and completes. */
  method RunFallbackNode(s: AgentState, sessionId: string, sessions: SessionStore, llm: Prompt -> string, t1: int, t2: int)
    returns (r: Result<AgentState>)
    modifies sessions
    ensures var base := OpenSession(old(sessions.docs), sessionId);
      r.Err? ==>
        sessions.docs == base && RecentMessages(base, sessionId, RecentWindow).Err? &&
        r.error == RecentMessages(base, sessionId, RecentWindow).error
    ensures var base := OpenSession(old(sessions.docs), sessionId);
      r.Ok? ==>
        RecentMessages(base, sessionId, RecentWindow).Ok? &&
        var msgs := RecentMessages(base, sessionId, RecentWindow).value + s.messages;
        var reply := FallbackReply(s, msgs, llm);
        r.value == s.(messages := msgs, fullExplanation := reply, stage := "completed") &&
        sessions.docs == LoggedTurn(base, sessionId, s.question, reply, t1, t2)
  {
    var history, loaded := LoadMessages(s, sessionId, sessions);
    if loaded.Err? {
      return Err(loaded.error);
    }
    var msgs := loaded.value;
    var h := CollectHistory(msgs);
    var reply := Strip(llm(FallbackPrompt(Tail(h, PromptWindow), s.question)));
    history.AddUserMessage(s.question, t1);
    history.AddAiMessage(reply, t2);
    r := Ok(s.(messages := msgs, fullExplanation := reply, stage := "completed"));
  }

  /** One run of the compiled graph on a state: the orchestrator, then the nodes
      the edges lead to. `trace` lists the nodes that ran. */
  method RunGraph(s: AgentState, sessionId: string, sessions: SessionStore, llm: Prompt -> string, t1: int, t2: int)
    returns (r: Result<AgentState>, trace: seq<Node>)
    modifies sessions
    ensures var intent := Strip(llm(IntentPrompt(s.question)));
      r.Ok? ==> trace == Trace(intent) && r.value.intent == intent
    ensures var intent := Strip(llm(IntentPrompt(s.question)));
      Route(intent) == QuizGeneration ==>
        sessions.docs == old(sessions.docs) &&
        r == Ok(s.(intent := intent, quizQuestion := Some(Strip(llm(QuizPrompt(s.fullExplanation))))))
    ensures var intent := Strip(llm(IntentPrompt(s.question)));
      Route(intent) == FallbackNode && r.Ok? ==> r.value.quizQuestion == s.quizQuestion && r.value.stage == "completed"
    ensures r.Ok? && r.value.quizQuestion != s.quizQuestion ==>
      r.value.quizQuestion == Some(Strip(llm(QuizPrompt(r.value.fullExplanation))))
    ensures var state := OrchestratorNode(s, llm);
      var base := OpenSession(old(sessions.docs), sessionId);
      var loaded := RecentMessages(base, sessionId, RecentWindow);
      Route(state.intent) == AnsweringNode ==>
        if loaded.Err? then r == Err(loaded.error) && sessions.docs == base
        else
          var msgs := loaded.value + s.messages;
          var answer := TutorAnswer(s, msgs, llm);
          r == Ok(QuizGenerationNode(state.(messages := msgs, fullExplanation := answer, stage := "quiz_generation"), llm)) &&
          sessions.docs == LoggedTurn(base, sessionId, s.question, answer, t1, t2)
    ensures var state := OrchestratorNode(s, llm);
      var base := OpenSession(old(sessions.docs), sessionId);
      var loaded := RecentMessages(base, sessionId, RecentWindow);
      Route(state.intent) == FallbackNode ==>
        if loaded.Err? then r == Err(loaded.error) && sessions.docs == base
        else
          var msgs := loaded.value + s.messages;
          var reply := FallbackReply(s, msgs, llm);
          r == Ok(state.(messages := msgs, fullExplanation := reply, stage := "completed")) &&
          sessions.docs == LoggedTurn(base, sessionId, s.question, reply, t1, t2)
  {
    var state := OrchestratorNode(s, llm);
    TraceShape(state.intent);
    var next := Route(state.intent);
    if next == AnsweringNode {
      var answered := RunAnsweringNode(state, sessionId, sessions, llm, t1, t2);
      if answered.Err? {
        return Err(answered.error), [Orchestrator, AnsweringNode];
      }
      r := Ok(QuizGenerationNode(answered.value, llm));
      trace := [Orchestrator, AnsweringNode, QuizGeneration];
    } else if next == QuizGeneration {
      r := Ok(QuizGenerationNode(state, llm));
      trace := [Orchestrator, QuizGeneration];
    } else {
      r := RunFallbackNode(state, sessionId, sessions, llm, t1, t2);
      trace := [Orchestrator, FallbackNode];
    }
  }
}
