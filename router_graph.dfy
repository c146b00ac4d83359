/**
 * backend/app/engine/agents/langgraph/src/agent/graph.py: the
 * router-driven interview graph. A run starts at `load_state`, goes
 * through `router`, and then follows the edges; every edge leads to a node
 * of smaller rank, so a run ends after at most five nodes. The user service
 * in this file is a local mock, modelled as written.
 */
module RouterGraph {
  import opened Wrappers
  import opened Session

  const Answer := "ANSWER"
  const NextQuestion := "NEXT_QUESTION"
  const ChangeTopic := "CHANGE_TOPIC"
  const Consult := "CONSULT"
  const Quit := "QUIT"
  const Wait := "WAIT"

  /** The id the mock user service hands out for every email. */
  const MockUserId := "mock_user_id_123"

  /** The mock `update_skill_status`: a star for a pass with a score of at least 80. */
  const MockUpdateSkill := (userId: string, subject: string, passed: bool, score: int) => passed && score >= 80

  const NoQuestionToEvaluate := "평가할 질문이 없습니다. 넘어갑니다."
  const EmptyQueue := "질문 목록이 비어있습니다."

  /** The apology when the generator returns no question. */
  function Apology(topic: string): string {
    "죄송합니다. '" + topic + "' 주제에 대한 질문을 생성하는데 일시적인 문제가 발생했습니다."
  }

  /**
   * `load_state_node`: a guest user id, the mock database id and a limit
   * of 5 questions, each written only where the state has none (or a
   * falsy one); nothing else changes.
   */
  function LoadState(s: State): (u: Update)
    ensures var t := Apply(s, u);
      && Truthy(t.userId) && Truthy(t.userDbId)
      && t.maxQuestions.Some? && t.maxQuestions.value != 0
      && (Truthy(s.userId) ==> t.userId == s.userId)
      && (Truthy(s.userDbId) ==> t.userDbId == s.userDbId)
      && (s.maxQuestions.Some? && s.maxQuestions.value != 0 ==> t.maxQuestions == s.maxQuestions)
      && (!Truthy(s.userId) ==> t.userId == Some("guest"))
      && (!Truthy(s.userDbId) ==> t.userDbId == Some(MockUserId))
      && (!(s.maxQuestions.Some? && s.maxQuestions.value != 0) ==> t.maxQuestions == Some(5))
      && t == s.(userId := t.userId, userDbId := t.userDbId, maxQuestions := t.maxQuestions)
  {
    NoChange.(
      userId := if Truthy(s.userId) then None else Some("guest"),
      userDbId := if Truthy(s.userDbId) then None else Some(MockUserId),
      maxQuestions := if s.maxQuestions.Some? && s.maxQuestions.value != 0 then None else Some(5))
  }

  /** What the router agent says about the last message. */
  function Classify(s: State, agents: Agents): RouteResult
    requires s.messages != []
  {
    agents.route(Last(s.messages).content, s.topic.GetOr("General"), if s.current.Some? then s.current.value.text else "")
  }

  /** The update writes at most the intent, the topic and the question queue. */
  predicate RoutingOnly(u: Update) {
    u == NoChange.(intent := u.intent, topic := u.topic, questions := u.questions)
  }

  /**
   * `router_node`: CONSULT for an empty history, WAIT (without asking the
   * agent) when the AI spoke last, otherwise the agent's intent (CONSULT
   * when it gives none); only a CHANGE_TOPIC with a non-empty topic
   * switches the topic and empties the queue.
   */
  function Route(s: State, agents: Agents): (u: Update)
    ensures RoutingOnly(u) && u.intent.Some?
    ensures s.messages == [] ==> u == NoChange.(intent := Some(Consult))
    ensures s.messages != [] && Last(s.messages).role == Ai ==> u == NoChange.(intent := Some(Wait))
    ensures s.messages != [] && Last(s.messages).role == Human ==>
      && u.intent == Some(Classify(s, agents).intent.GetOr(Consult))
      && (u.topic.Some? <==> u.intent == Some(ChangeTopic) && Truthy(Classify(s, agents).topic))
    ensures u.topic.Some? ==> u.topic == Classify(s, agents).topic && u.questions == Some([])
    ensures u.topic.None? ==> u.questions.None?
    ensures u.intent == Some(Answer) ==> s.messages != [] && Last(s.messages).role == Human
  {
    if s.messages == [] then NoChange.(intent := Some(Consult))
    else if Last(s.messages).role == Ai then NoChange.(intent := Some(Wait))
    else
      assert Last(s.messages).role == Human;
      var res := Classify(s, agents);
      var intent := res.intent.GetOr(Consult);
      if intent == ChangeTopic && Truthy(res.topic) then
        NoChange.(intent := Some(intent), topic := res.topic, questions := Some([]))
      else
        NoChange.(intent := Some(intent))
  }

  /** `consult_node` as written: it reads the last message, so it raises on an empty history. */
  function ConsultAsWritten(s: State, agents: Agents): (r: Result<Update>)
    ensures r.Crash? <==> s.messages == []
    ensures r.Ok? ==> r.value == Say(agents.recommend(Last(s.messages).content))
  {
    if s.messages == [] then Crash(IndexError)
    else Ok(Say(agents.recommend(Last(s.messages).content)))
  }

  /** The input the consultation answers when there is no message, as the keyword-driven graph does. */
  const DefaultInput := "Help me choose a topic."

  /**
   * `consult_node` with the empty history the router sends here handled:
   * one recommendation message, and the same reply as `ConsultAsWritten`
   * whenever that one does not raise.
   */
  function ConsultReply(s: State, agents: Agents): (u: Update)
    ensures |u.messages| == 1 && u == Say(u.messages[0].content)
    ensures s.messages != [] ==> Ok(u) == ConsultAsWritten(s, agents)
  {
    Say(agents.recommend(if s.messages == [] then DefaultInput else Last(s.messages).content))
  }

  /** The batch the generator produces for the state's track, topic and level. */
  function Batch(s: State, agents: Agents): seq<Question> {
    agents.generate(s.track.GetOr("Common"), s.topic.GetOr("General"), s.level.GetOr("Intermediate"))
  }

  /**
   * `generate_question_node`: deliver the head of the queue, refilling an
   * empty queue from the generator first; when the generator returns
   * nothing, only the apology is said. The branch for a queue still empty
   * after the refill cannot be taken: the contract leaves no room for it.
   */
  function GenerateQuestion(s: State, agents: Agents): (u: Update)
    ensures s.questions != [] ==> u == Deliver(s.questions)
    ensures s.questions == [] && Batch(s, agents) != [] ==> u == Deliver(Batch(s, agents))
    ensures s.questions == [] && Batch(s, agents) == [] ==> u == Say(Apology(s.topic.GetOr("General")))
  {
    var queue := if s.questions != [] then s.questions else Batch(s, agents);
    if s.questions == [] && queue == [] then Say(Apology(s.topic.GetOr("General")))
    else if queue == [] then Say(EmptyQueue)
    else Deliver(queue)
  }

  /**
   * A generation step either asks the next question of the queue (or of a
   * fresh batch), keeping the others queued in order, or only apologises;
   * it never touches the counter or the completion flag.
   */
  lemma GenerateQuestionEffect(s: State, agents: Agents)
    ensures var t := Apply(s, GenerateQuestion(s, agents));
      var source := if s.questions != [] then s.questions else Batch(s, agents);
      && t.count == s.count && t.complete == s.complete
      && (source != [] ==>
        && source == [t.current.value] + t.questions
        && t.messages == s.messages + [Message(Ai, t.current.value.text)]
        && !t.starGained)
      && (source == [] ==> t == s.(messages := s.messages + [Message(Ai, Apology(s.topic.GetOr("General")))]))
  {
    var source := if s.questions != [] then s.questions else Batch(s, agents);
    if source != [] {
      DeliverIsFifo(s, source);
    } else {
      ApplyOnlyMessages(s, Apology(s.topic.GetOr("General")));
    }
  }

  /** `evaluate_answer_node` with the mock star rule. */
  function Evaluate(s: State, agents: Agents): (r: Result<Update>)
    ensures s.current.None? ==> r == Ok(Say(NoQuestionToEvaluate))
    ensures r.Ok? && s.current.Some? && s.messages != [] ==>
      var q := s.current.value;
      var e := agents.evaluate(q.text, Last(s.messages).content, q.modelAnswer.GetOr("N/A"), q.criteria);
      && r.value.count == Some(s.count + 1)
      && r.value.evaluation == Some(e)
      && r.value.starGained == Some(Truthy(s.userDbId) && e.passed && e.score >= 80)
  {
    EvaluateAnswer(s, agents, NoQuestionToEvaluate, MockUpdateSkill)
  }

  /** The labels of the router's conditional edges. */
  datatype Branch = ToEvaluate | ToGenerate | ToConsult | ToReport | ToEnd

  /**
   * `check_router_intent`: ANSWER evaluates only with an active question
   * and otherwise asks one, NEXT_QUESTION and CHANGE_TOPIC ask one, QUIT
   * reports, and every other intent (CONSULT, WAIT, none, unknown)
   * consults; the END label is never chosen.
   */
  function CheckRouterIntent(s: State): (r: Branch)
    ensures r != ToEnd
    ensures r == ToEvaluate <==> s.intent == Some(Answer) && s.current.Some?
    ensures r == ToGenerate <==>
      (s.intent == Some(Answer) && s.current.None?) || s.intent == Some(NextQuestion) || s.intent == Some(ChangeTopic)
    ensures r == ToReport <==> s.intent == Some(Quit)
    ensures r == ToConsult <==> s.intent !in {Some(Answer), Some(NextQuestion), Some(ChangeTopic), Some(Quit)}
  {
    if s.intent == Some(Answer) then
      if s.current.Some? then ToEvaluate else ToGenerate
    else if s.intent == Some(NextQuestion) || s.intent == Some(ChangeTopic) then ToGenerate
    else if s.intent == Some(Consult) then ToConsult
    else if s.intent == Some(Quit) then ToReport
    else ToConsult
  }

  /** `check_continue_interview`: report once the count reaches the limit (10 when unset), otherwise ask on. */
  function CheckContinueInterview(s: State): (r: Branch)
    ensures r == ToReport || r == ToGenerate
    ensures r == ToReport <==> s.count >= s.maxQuestions.GetOr(10)
  {
    if s.count >= s.maxQuestions.GetOr(10) then ToReport else ToGenerate
  }

  datatype Node = LoadStateNode | RouterNode | ConsultNode | GenerateNode | EvaluateNode | FeedbackNode | ReportNode | Done

  /** How many nodes at most are still to run. */
  function Rank(n: Node): nat {
    match n
    case LoadStateNode => 5
    case RouterNode => 4
    case EvaluateNode => 3
    case FeedbackNode => 2
    case ConsultNode => 1
    case GenerateNode => 1
    case ReportNode => 1
    case Done => 0
  }

  /** The graph's edges, read in the state the node has just produced. */
  function Successor(n: Node, s: State): (next: Node)
    requires n != Done
    ensures Rank(next) < Rank(n)
  {
    match n
    case LoadStateNode => RouterNode
    case RouterNode =>
      (match CheckRouterIntent(s)
       case ToEvaluate => EvaluateNode
       case ToGenerate => GenerateNode
       case ToConsult => ConsultNode
       case ToReport => ReportNode
       case ToEnd => Done)
    case EvaluateNode => FeedbackNode
    case FeedbackNode => if CheckContinueInterview(s) == ToReport then ReportNode else GenerateNode
    case _ => Done
  }

  /** The update a node returns, or the exception it raises. */
  function Step(n: Node, s: State, agents: Agents): Result<Update>
    requires n != Done
  {
    match n
    case LoadStateNode => Ok(LoadState(s))
    case RouterNode => Ok(Route(s, agents))
    case ConsultNode => Ok(ConsultReply(s, agents))
    case GenerateNode => Ok(GenerateQuestion(s, agents))
    case EvaluateNode => Evaluate(s, agents)
    case FeedbackNode => FeedbackMessage(s, agents)
    case ReportNode => Ok(FinalReport(s, agents))
  }

  /** Running the graph from node `n`: each node's update is merged before its edge is followed. */
  function Run(n: Node, s: State, agents: Agents): Outcome
    decreases Rank(n)
  {
    if n == Done then Outcome(s, None)
    else match Step(n, s, agents)
      case Crash(e) => Outcome(s, Some(e))
      case Ok(u) => var t := Apply(s, u); Run(Successor(n, t), t, agents)
  }

  /** A thread of the compiled graph: its saved state, and one invocation at a time. */
  class Thread {
    var state: State

    constructor (initial: State)
      ensures state == initial
    {
      state := initial;
    }

    /** `graph.ainvoke(input)`: merges the input and runs the nodes from `load_state` to the end. */
    method Invoke(input: seq<Message>, agents: Agents) returns (error: Option<string>)
      modifies this
      ensures Outcome(state, error) == Run(LoadStateNode, Apply(old(state), Input(input)), agents)
    {
      state := Apply(state, Input(input));
      ghost var start := state;
      var node := LoadStateNode;
      while node != Done
        invariant Run(node, state, agents) == Run(LoadStateNode, start, agents)
        decreases Rank(node)
      {
        var r := Step(node, state, agents);
        if r.Crash? {
          return Some(r.error);
        }
        state := Apply(state, r.value);
        node := Successor(node, state);
      }
      return None;
    }
  }

  // ---------------------------------------------------------------
  // What one run does
  // ---------------------------------------------------------------

  /** The last node of a run: it never raises and never counts. */
  lemma {:induction false} RunFromLast(n: Node, s: State, agents: Agents)
    requires n in {ConsultNode, GenerateNode, ReportNode}
    ensures Run(n, s, agents).error.None?
    ensures Keeps(s, Run(n, s, agents).state) && Run(n, s, agents).state.count == s.count
  {
    var u := Step(n, s, agents).value;
    var t := Apply(s, u);
    assert Successor(n, t) == Done;
    assert Run(n, s, agents) == Outcome(t, None);
    if n == GenerateNode {
      GenerateQuestionEffect(s, agents);
    }
  }

  lemma {:induction false} RunFromFeedback(s: State, agents: Agents)
    requires s.messages != []
    ensures Run(FeedbackNode, s, agents).error.None?
    ensures Keeps(s, Run(FeedbackNode, s, agents).state) && Run(FeedbackNode, s, agents).state.count == s.count
  {
    var t := Apply(s, FeedbackMessage(s, agents).value);
    RunFromLast(Successor(FeedbackNode, t), t, agents);
  }

  lemma {:induction false} RunFromEvaluate(s: State, agents: Agents)
    requires s.messages != [] && s.current.Some?
    ensures Run(EvaluateNode, s, agents).error.None?
    ensures Keeps(s, Run(EvaluateNode, s, agents).state) && Run(EvaluateNode, s, agents).state.count == s.count + 1
  {
    var t := Apply(s, Evaluate(s, agents).value);
    assert t.messages == s.messages + [];
    RunFromFeedback(t, agents);
  }

  /**
   * From the router on, a run never raises; it counts one answer exactly
   * when the router reads the message as ANSWER while a question is
   * active, and it never clears the question or the completion flag.
   */
  lemma {:induction false} RunFromRouter(s: State, agents: Agents)
    ensures Run(RouterNode, s, agents).error.None?
    ensures Keeps(s, Run(RouterNode, s, agents).state)
    ensures Run(RouterNode, s, agents).state.count ==
      if Route(s, agents).intent == Some(Answer) && s.current.Some? then s.count + 1 else s.count
  {
    var t := Apply(s, Route(s, agents));
    var next := Successor(RouterNode, t);
    assert t.current == s.current && t.count == s.count && t.complete == s.complete;
    if next == EvaluateNode {
      RunFromEvaluate(t, agents);
    } else {
      RunFromLast(next, t, agents);
    }
  }

  /** The state the router sees in an invocation with the given input. */
  function AtRouter(s: State, input: seq<Message>): (t: State)
    ensures t.messages == s.messages + input
    ensures t.current == s.current && t.count == s.count && t.complete == s.complete
  {
    var s1 := Apply(s, Input(input));
    Apply(s1, LoadState(s1))
  }

  /**
   * An invocation never raises, keeps the history, the active question
   * and the completion flag, and adds one to `question_count` exactly when
   * the router reads the input as an answer to the active question. No
   * node compares the count with `max_questions` before counting, and no
   * node clears the question or resets `interview_complete`, so a finished
   * interview still counts answers beyond the limit.
   */
  lemma Invocation(s: State, input: seq<Message>, agents: Agents)
    ensures var r := Run(LoadStateNode, Apply(s, Input(input)), agents);
      && r.error.None?
      && Keeps(s, r.state)
      && r.state.count == if Route(AtRouter(s, input), agents).intent == Some(Answer) && s.current.Some? then s.count + 1 else s.count
  {
    var s1 := Apply(s, Input(input));
    var t := AtRouter(s, input);
    assert Run(LoadStateNode, s1, agents) == Run(RouterNode, t, agents);
    RunFromRouter(t, agents);
  }

  /**
   * When the AI spoke last, the router's WAIT falls through to the
   * consultation, which answers the AI's own message.
   */
  lemma WaitFallsThroughToConsult(s: State, agents: Agents)
    requires s.messages != [] && Last(s.messages).role == Ai
    ensures var t := Apply(s, Route(s, agents));
      && t.intent == Some(Wait)
      && Successor(RouterNode, t) == ConsultNode
      && ConsultReply(t, agents) == Say(agents.recommend(Last(s.messages).content))
  {
    var t := Apply(s, Route(s, agents));
    assert Last(t.messages) == Last(s.messages);
  }

  /**
   * As written, invoking the graph with an empty history raises: the
   * router answers CONSULT, the edge leads to `consult_node`, and that
   * node reads `messages[-1]`.
   */
  lemma EmptyHistoryRaisesAsWritten(s: State, agents: Agents)
    requires s.messages == []
    ensures var t := Apply(s, Route(s, agents));
      && CheckRouterIntent(t) == ToConsult
      && ConsultAsWritten(t, agents) == Crash(IndexError)
  {
  }
}
