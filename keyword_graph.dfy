/**
 * backend/app/engine/graphs/interview_graph.py: the keyword-driven
 * interview graph. A conditional entry point chooses the first node from
 * the last message. The user service is a parameter: `interview_service`
 * as written fails to import, and module Progress models the service it
 * evidently intends, but the two are not linked here.
 */
module KeywordGraph {
  import opened Wrappers
  import opened Text
  import opened Session

  /** `interview_service`: `get_or_create_user(email, nickname)` gives the user's id; `update_skill_status` says whether a star was granted. */
  datatype Service = Service(
    createUser: (string, string) -> string,
    updateSkill: (string, string, bool, int) -> bool)

  const StartReply := "네, 면접을 시작합니다!"
  const GenerationFailed := "질문 생성에 실패했습니다. 다시 시도해주세요."
  const NoMoreQuestions := "더 이상 질문을 생성할 수 없습니다. 면접을 종료합니다."
  const NoActiveQuestion := "현재 진행 중인 질문이 없습니다. 새로운 질문을 준비하겠습니다."
  const NoEvaluation := "평가 결과를 불러오지 못했습니다."
  const DefaultInput := "Help me choose a topic."

  /** `"start" in text.lower() or "시작" in text` */
  predicate WantsStart(text: string) {
    Contains(Lower(text), "start") || Contains(text, "시작")
  }

  /** The text the consultation answers: the last message if the user wrote it, the default otherwise. */
  function ConsultInput(s: State): string {
    if s.messages != [] && Last(s.messages).role == Human then Last(s.messages).content else DefaultInput
  }

  /**
   * `consult_curriculum_node`: one message, the start confirmation when
   * the input asks to start and the recommender's answer otherwise.
   */
  function ConsultCurriculum(s: State, agents: Agents): (u: Update)
    ensures |u.messages| == 1 && u == Say(u.messages[0].content)
    ensures WantsStart(ConsultInput(s)) ==> u == Say(StartReply)
    ensures !WantsStart(ConsultInput(s)) ==> u == Say(agents.recommend(ConsultInput(s)))
  {
    var input := ConsultInput(s);
    if WantsStart(input) then Say(StartReply) else Say(agents.recommend(input))
  }

  function Email(s: State): string {
    "guest_" + s.userId.GetOr("anon") + "@techtree.com"
  }

  function Nickname(s: State): string {
    "User_" + s.userId.GetOr("anon")
  }

  /** The batch the generator produces for the state's track, topic and level. */
  function Batch(s: State, agents: Agents): seq<Question> {
    agents.generate(s.track.GetOr("Python"), s.topic.GetOr("General"), s.level.GetOr("Intermediate"))
  }

  /** The database id the node works with: the state's, or the one the service creates. */
  function DbId(s: State, service: Service): string {
    if Truthy(s.userDbId) then s.userDbId.value else service.createUser(Email(s), Nickname(s))
  }

  /**
   * `generate_question_node`: deliver the head of the queue (refilled from
   * the generator when empty) together with the user's database id; a
   * generator that returns nothing leaves only the failure message, and
   * the id it may have created is lost with the node's local state. The
   * branch that completes the interview for an empty queue cannot be
   * taken, so this node never sets `interview_complete`.
   */
  function GenerateQuestion(s: State, agents: Agents, service: Service): (u: Update)
    ensures u.complete.None? && u.count.None?
    ensures s.questions == [] && Batch(s, agents) == [] ==> u == Say(GenerationFailed)
    ensures s.questions != [] || Batch(s, agents) != [] ==>
      var source := if s.questions != [] then s.questions else Batch(s, agents);
      u == Deliver(source).(userDbId := Some(DbId(s, service)))
  {
    var dbId := DbId(s, service);
    var queue := if s.questions != [] then s.questions else Batch(s, agents);
    if s.questions == [] && queue == [] then Say(GenerationFailed)
    else if queue == [] then Say(NoMoreQuestions).(complete := Some(true))
    else Deliver(queue).(userDbId := Some(dbId))
  }

  /** A delivery asks the head of the source queue, keeps the rest in order and records a database id. */
  lemma GenerateQuestionEffect(s: State, agents: Agents, service: Service)
    requires s.questions != [] || Batch(s, agents) != []
    ensures var t := Apply(s, GenerateQuestion(s, agents, service));
      var source := if s.questions != [] then s.questions else Batch(s, agents);
      && source == [t.current.value] + t.questions
      && t.messages == s.messages + [Message(Ai, t.current.value.text)]
      && !t.starGained && t.count == s.count && t.complete == s.complete
      && t.userDbId == Some(DbId(s, service))
  {
  }

  /** `evaluate_answer_node` with the service's star decision. */
  function Evaluate(s: State, agents: Agents, service: Service): (r: Result<Update>)
    ensures s.current.None? ==> r == Ok(Say(NoActiveQuestion))
    ensures s.current.Some? ==> (r.Ok? <==> s.messages != [])
    ensures r.Ok? && s.current.Some? && s.messages != [] ==>
      && r.value.count == Some(s.count + 1)
      && r.value.evaluation == Some(agents.evaluate(s.current.value.text, Last(s.messages).content,
           s.current.value.modelAnswer.GetOr("N/A"), s.current.value.criteria))
      && r.value.starGained == Some(Truthy(s.userDbId) && service.updateSkill(s.userDbId.value,
           s.current.value.topic.GetOr(s.topic.GetOr("General")), r.value.evaluation.value.passed, r.value.evaluation.value.score))
  {
    EvaluateAnswer(s, agents, NoActiveQuestion, service.updateSkill)
  }

  /** `feedback_node`: without an evaluation only the error message; otherwise the feedback message. */
  function Feedback(s: State, agents: Agents): (r: Result<Update>)
    ensures s.evaluation.None? ==> r == Ok(Say(NoEvaluation))
    ensures s.evaluation.Some? ==> r == FeedbackMessage(s, agents)
  {
    if s.evaluation.None? then Ok(Say(NoEvaluation)) else FeedbackMessage(s, agents)
  }

  datatype Node = ConsultNode | GenerateNode | EvaluateNode | FeedbackNode | ReportNode | Done

  /**
   * `route_input`: consult on an empty history and after an AI message;
   * a user message is an answer while a question is active, a request to
   * start when it asks to, and otherwise a consultation.
   */
  function RouteInput(s: State): (n: Node)
    ensures n in {ConsultNode, EvaluateNode, GenerateNode}
    ensures n == EvaluateNode <==> s.messages != [] && Last(s.messages).role == Human && s.current.Some?
    ensures n == GenerateNode <==>
      s.messages != [] && Last(s.messages).role == Human && s.current.None? && WantsStart(Last(s.messages).content)
  {
    if s.messages == [] then ConsultNode
    else if Last(s.messages).role == Human then
      if s.current.Some? then EvaluateNode
      else if WantsStart(Last(s.messages).content) then GenerateNode
      else ConsultNode
    else ConsultNode
  }

  /** `check_consult_result`: always the end, after reading the last message (which raises on an empty history). */
  function CheckConsultResult(s: State): (r: Result<Node>)
    ensures r.Ok? <==> s.messages != []
    ensures r.Ok? ==> r.value == Done
  {
    if s.messages == [] then Crash(IndexError) else Ok(Done)
  }

  /** `check_next_step`: the report once the count reaches the limit (3 when unset), otherwise the next question. */
  function CheckNextStep(s: State): (n: Node)
    ensures n == ReportNode || n == GenerateNode
    ensures n == ReportNode <==> s.count >= s.maxQuestions.GetOr(3)
  {
    if s.count >= s.maxQuestions.GetOr(3) then ReportNode else GenerateNode
  }

  function Rank(n: Node): nat {
    match n
    case EvaluateNode => 3
    case FeedbackNode => 2
    case ConsultNode => 1
    case GenerateNode => 1
    case ReportNode => 1
    case Done => 0
  }

  /** The graph's edges, read in the state the node has just produced. */
  function Successor(n: Node, s: State): (r: Result<Node>)
    requires n != Done
    ensures r.Ok? ==> Rank(r.value) < Rank(n)
  {
    match n
    case ConsultNode => CheckConsultResult(s)
    case EvaluateNode => Ok(FeedbackNode)
    case FeedbackNode => Ok(CheckNextStep(s))
    case _ => Ok(Done)
  }

  function Step(n: Node, s: State, agents: Agents, service: Service): Result<Update>
    requires n != Done
  {
    match n
    case ConsultNode => Ok(ConsultCurriculum(s, agents))
    case GenerateNode => Ok(GenerateQuestion(s, agents, service))
    case EvaluateNode => Evaluate(s, agents, service)
    case FeedbackNode => Feedback(s, agents)
    case ReportNode => Ok(FinalReport(s, agents))
  }

  /** Running the graph from node `n`: each node's update is merged before its edge is followed. */
  function Run(n: Node, s: State, agents: Agents, service: Service): Outcome
    decreases Rank(n)
  {
    if n == Done then Outcome(s, None)
    else match Step(n, s, agents, service)
      case Crash(e) => Outcome(s, Some(e))
      case Ok(u) =>
        var t := Apply(s, u);
        match Successor(n, t)
        case Crash(e) => Outcome(t, Some(e))
        case Ok(next) => Run(next, t, agents, service)
  }

  /** A thread of the compiled graph: its saved state, and one invocation at a time. */
  class Thread {
    var state: State

    constructor (initial: State)
      ensures state == initial
    {
      state := initial;
    }

    /** `app.ainvoke(input)`: merges the input, picks the entry node and runs to the end. */
    method Invoke(input: seq<Message>, agents: Agents, service: Service) returns (error: Option<string>)
      modifies this
      ensures var s := Apply(old(state), Input(input)); Outcome(state, error) == Run(RouteInput(s), s, agents, service)
    {
      state := Apply(state, Input(input));
      ghost var start := state;
      var node := RouteInput(state);
      while node != Done
        invariant Run(node, state, agents, service) == Run(RouteInput(start), start, agents, service)
        decreases Rank(node)
      {
        var r := Step(node, state, agents, service);
        if r.Crash? {
          return Some(r.error);
        }
        state := Apply(state, r.value);
        var next := Successor(node, state);
        if next.Crash? {
          return Some(next.error);
        }
        node := next.value;
      }
      return None;
    }
  }

  // ---------------------------------------------------------------
  // What one run does
  // ---------------------------------------------------------------

  lemma {:induction false} RunFromLast(n: Node, s: State, agents: Agents, service: Service)
    requires n in {ConsultNode, GenerateNode, ReportNode}
    ensures Run(n, s, agents, service).error.None?
    ensures Keeps(s, Run(n, s, agents, service).state) && Run(n, s, agents, service).state.count == s.count
  {
    var u := Step(n, s, agents, service).value;
    var t := Apply(s, u);
    assert |u.messages| == 1;
    assert Successor(n, t) == Ok(Done);
    assert Run(n, s, agents, service) == Outcome(t, None);
  }

  lemma {:induction false} RunFromEvaluate(s: State, agents: Agents, service: Service)
    requires s.messages != [] && s.current.Some?
    ensures Run(EvaluateNode, s, agents, service).error.None?
    ensures Keeps(s, Run(EvaluateNode, s, agents, service).state)
    ensures Run(EvaluateNode, s, agents, service).state.count == s.count + 1
  {
    var t := Apply(s, Evaluate(s, agents, service).value);
    assert t.messages == s.messages + [];
    var t2 := Apply(t, Feedback(t, agents).value);
    assert Run(EvaluateNode, s, agents, service) == Run(FeedbackNode, t, agents, service);
    assert Run(FeedbackNode, t, agents, service) == Run(CheckNextStep(t2), t2, agents, service);
    RunFromLast(CheckNextStep(t2), t2, agents, service);
  }

  /**
   * An invocation never raises, keeps the history, the active question
   * and the completion flag, and adds one to `question_count` exactly when
   * the last message is the user's and a question is active.
   */
  lemma Invocation(s: State, input: seq<Message>, agents: Agents, service: Service)
    ensures var s1 := Apply(s, Input(input));
      var r := Run(RouteInput(s1), s1, agents, service);
      && r.error.None?
      && Keeps(s, r.state)
      && r.state.count == if RouteInput(s1) == EvaluateNode then s.count + 1 else s.count
  {
    var s1 := Apply(s, Input(input));
    var n := RouteInput(s1);
    if n == EvaluateNode {
      RunFromEvaluate(s1, agents, service);
    } else {
      RunFromLast(n, s1, agents, service);
    }
  }

  /**
   * A user message that asks to start while no question is active is
   * answered with the next question of the queue (or of a fresh batch),
   * which becomes the active question.
   */
  lemma StartAsksQuestion(s: State, text: string, agents: Agents, service: Service)
    requires s.current.None? && WantsStart(text)
    requires s.questions != [] || Batch(s, agents) != []
    ensures var s1 := Apply(s, Input([Message(Human, text)]));
      var r := Run(RouteInput(s1), s1, agents, service);
      var source := if s.questions != [] then s.questions else Batch(s, agents);
      && r.state.current == Some(source[0])
      && r.state.messages == s.messages + [Message(Human, text), Message(Ai, source[0].text)]
  {
    var s1 := Apply(s, Input([Message(Human, text)]));
    assert Last(s1.messages) == Message(Human, text);
    assert Batch(s1, agents) == Batch(s, agents);
    GenerateQuestionEffect(s1, agents, service);
    RunFromLast(GenerateNode, s1, agents, service);
    var t := Apply(s1, GenerateQuestion(s1, agents, service));
    assert Run(GenerateNode, s1, agents, service) == Outcome(t, None);
  }
}
