/**
 * The interview state shared by both LangGraph interview graphs
 * (backend/app/engine/agents/langgraph/src/agent/graph.py and
 * backend/app/engine/graphs/interview_graph.py): the state record, the
 * partial updates the nodes return, LangGraph's merge of an update into
 * the state (`add_messages` appends, every other key is overwritten), and
 * the nodes whose code is the same in both graphs. The language-model
 * agents are parameters.
 */
module Session {
  import opened Wrappers

  datatype Role = Human | Ai

  datatype Message = Message(role: Role, content: string)

  /** A question dictionary: `question_text`, and the optional `topic`, `model_answer` and `evaluation_criteria`. */
  datatype Question = Question(text: string, topic: Option<string>, modelAnswer: Option<string>, criteria: seq<string>)

  /** An evaluation dictionary: `score`, `is_passed` and `feedback`. */
  datatype Evaluation = Evaluation(score: int, passed: bool, feedback: string)

  /** What the router agent answers: the `intent` and `topic` keys, each possibly absent. */
  datatype RouteResult = RouteResult(intent: Option<string>, topic: Option<string>)

  /**
   * The hosted language-model agents, as functions of their inputs:
   * the intent router (input, topic, last question text), the question
   * generator (track, topic, level), the evaluator (question text, answer,
   * model answer, criteria), the feedback writer (question text, answer,
   * evaluation), the topic recommender (input) and the report writer
   * (the transcript lines).
   */
  datatype Agents = Agents(
    route: (string, string, string) -> RouteResult,
    generate: (string, string, string) -> seq<Question>,
    evaluate: (string, string, string, seq<string>) -> Evaluation,
    feedback: (string, string, Evaluation) -> string,
    recommend: string -> string,
    report: seq<string> -> string)

  /**
   * `InterviewState`; an absent key is `None`, except that an absent
   * message list, question queue or counter reads as empty or 0 wherever
   * the source reads it, so those are plain values.
   */
  datatype State = State(
    messages: seq<Message>,
    userId: Option<string>,
    userDbId: Option<string>,
    track: Option<string>,
    topic: Option<string>,
    level: Option<string>,
    questions: seq<Question>,
    current: Option<Question>,
    evaluation: Option<Evaluation>,
    starGained: bool,
    intent: Option<string>,
    count: int,
    maxQuestions: Option<int>,
    complete: bool)

  /** The dictionary a node returns: the messages to add, and the keys it writes. */
  datatype Update = Update(
    messages: seq<Message>,
    userId: Option<string>,
    userDbId: Option<string>,
    topic: Option<string>,
    questions: Option<seq<Question>>,
    current: Option<Question>,
    evaluation: Option<Evaluation>,
    starGained: Option<bool>,
    intent: Option<string>,
    count: Option<int>,
    maxQuestions: Option<int>,
    complete: Option<bool>)

  /** What Python raises on `messages[-1]` for an empty list. */
  const IndexError := "IndexError: list index out of range"

  /** `{}` */
  const NoChange := Update([], None, None, None, None, None, None, None, None, None, None, None)

  /** `{"messages": [AIMessage(content=text)]}` */
  function Say(text: string): (u: Update)
    ensures u.messages == [Message(Ai, text)]
  {
    NoChange.(messages := [Message(Ai, text)])
  }

  /** A Python truth test on an optional string: present and non-empty. */
  predicate Truthy(o: Option<string>) {
    o.Some? && o.value != ""
  }

  /** A key the update may write: its new value is the written one, or the old one when the update does not write it. */
  predicate Written<T(==)>(now: T, before: T, written: Option<T>) {
    && (written.None? ==> now == before)
    && (written.Some? ==> now == written.value)
  }

  /** An optional key the update may write: a key the update holds replaces the old entry. */
  predicate WrittenOption<T(==)>(now: Option<T>, before: Option<T>, written: Option<T>) {
    && (written.None? ==> now == before)
    && (written.Some? ==> now == written)
  }

  function Overwrite<T(==)>(old_: T, written: Option<T>): (r: T)
    ensures Written(r, old_, written)
  {
    if written.Some? then written.value else old_
  }

  function OverwriteOption<T(==)>(old_: Option<T>, written: Option<T>): (r: Option<T>)
    ensures WrittenOption(r, old_, written)
  {
    if written.Some? then written else old_
  }

  /** LangGraph's merge of a node's update into the state. */
  function Apply(s: State, u: Update): (t: State)
    ensures t.messages == s.messages + u.messages
    ensures t.track == s.track && t.level == s.level
    ensures WrittenOption(t.userId, s.userId, u.userId)
    ensures WrittenOption(t.userDbId, s.userDbId, u.userDbId)
    ensures WrittenOption(t.topic, s.topic, u.topic)
    ensures Written(t.questions, s.questions, u.questions)
    ensures WrittenOption(t.current, s.current, u.current)
    ensures WrittenOption(t.evaluation, s.evaluation, u.evaluation)
    ensures Written(t.starGained, s.starGained, u.starGained)
    ensures WrittenOption(t.intent, s.intent, u.intent)
    ensures Written(t.count, s.count, u.count)
    ensures WrittenOption(t.maxQuestions, s.maxQuestions, u.maxQuestions)
    ensures Written(t.complete, s.complete, u.complete)
  {
    State(
      s.messages + u.messages,
      OverwriteOption(s.userId, u.userId),
      OverwriteOption(s.userDbId, u.userDbId),
      s.track,
      OverwriteOption(s.topic, u.topic),
      s.level,
      Overwrite(s.questions, u.questions),
      OverwriteOption(s.current, u.current),
      OverwriteOption(s.evaluation, u.evaluation),
      Overwrite(s.starGained, u.starGained),
      OverwriteOption(s.intent, u.intent),
      Overwrite(s.count, u.count),
      OverwriteOption(s.maxQuestions, u.maxQuestions),
      Overwrite(s.complete, u.complete))
  }

  lemma ApplyOnlyMessages(s: State, text: string)
    ensures Apply(s, NoChange) == s
    ensures Apply(s, Say(text)) == s.(messages := s.messages + [Message(Ai, text)])
  {
    assert s.messages + [] == s.messages;
  }

  /** The input dictionary of an invocation: the new messages. */
  function Input(messages: seq<Message>): (u: Update)
    ensures u.messages == messages
  {
    NoChange.(messages := messages)
  }

  /** The state after a run of a graph, and the exception that stopped it, if any. */
  datatype Outcome = Outcome(state: State, error: Option<string>)

  /** A run keeps the history as a prefix, the active question, and the completion flag. */
  predicate Keeps(s: State, t: State) {
    && s.messages <= t.messages
    && (s.current.Some? ==> t.current.Some?)
    && (s.complete ==> t.complete)
  }

  function Last(messages: seq<Message>): Message
    requires messages != []
  {
    messages[|messages| - 1]
  }

  /** `m.type`: "human" or "ai". */
  function TypeName(r: Role): string {
    match r
    case Human => "human"
    case Ai => "ai"
  }

  /** `[f"{m.type}: {m.content}" for m in state["messages"]]` */
  function Transcript(messages: seq<Message>): (lines: seq<string>)
    ensures |lines| == |messages|
    ensures forall i :: 0 <= i < |messages| ==> lines[i] == TypeName(messages[i].role) + ": " + messages[i].content
  {
    seq(|messages|, i requires 0 <= i < |messages| => TypeName(messages[i].role) + ": " + messages[i].content)
  }

  /** The congratulation line put in front of the feedback when a star was gained. */
  function Banner(topic: string): string {
    "🎉 **[별 획득!]** 축하합니다! 해당 주제(" + topic + ")의 숙련도가 상승했습니다. ⭐\n\n"
  }

  /** The feedback behind the banner: the banner is a prefix and the feedback is kept whole. */
  function StarBanner(topic: string, feedback: string): (r: string)
    ensures Banner(topic) <= r && r[|Banner(topic)|..] == feedback
  {
    Banner(topic) + feedback
  }

  /**
   * `evaluate_answer_node`, the same in both graphs up to the message for
   * a missing question and the star service: without an active question
   * only that message; otherwise the evaluation of the last message, the
   * counter plus one and whether the service granted a star (asked only
   * when the user's database id is set).
   */
  function EvaluateAnswer(s: State, agents: Agents, noQuestion: string, grant: (string, string, bool, int) -> bool): (r: Result<Update>)
    ensures s.current.None? ==> r == Ok(Say(noQuestion))
    ensures s.current.Some? ==> (r.Ok? <==> s.messages != [])
    ensures r.Ok? && s.current.Some? ==>
      && r.value.messages == []
      && r.value.count == Some(s.count + 1)
      && r.value.current.None? && r.value.questions.None?
      && (r.value.starGained == Some(true) ==> Truthy(s.userDbId))
    ensures r.Ok? && s.current.Some? ==>
      var q := s.current.value;
      var e := agents.evaluate(q.text, Last(s.messages).content, q.modelAnswer.GetOr("N/A"), q.criteria);
      && r.value.evaluation == Some(e)
      && r.value.starGained == Some(Truthy(s.userDbId) && grant(s.userDbId.value, q.topic.GetOr(s.topic.GetOr("General")), e.passed, e.score))
  {
    if s.current.None? then Ok(Say(noQuestion))
    else if s.messages == [] then Crash(IndexError)
    else
      var q := s.current.value;
      var e := agents.evaluate(q.text, Last(s.messages).content, q.modelAnswer.GetOr("N/A"), q.criteria);
      var star :=
        if Truthy(s.userDbId) then grant(s.userDbId.value, q.topic.GetOr(s.topic.GetOr("General")), e.passed, e.score)
        else false;
      Ok(NoChange.(evaluation := Some(e), count := Some(s.count + 1), starGained := Some(star)))
  }

  /** `eval_result` read with its defaults: score 0, not passed, empty feedback. */
  const DefaultEvaluation := Evaluation(0, false, "")

  /** `current_q.get("question_text", "")` */
  function QuestionText(s: State): string {
    if s.current.Some? then s.current.value.text else ""
  }

  /** `current_q.get('topic', 'General')` */
  function QuestionTopic(s: State): string {
    if s.current.Some? then s.current.value.topic.GetOr("General") else "General"
  }

  /**
   * The feedback message of `feedback_node`: the feedback agent's text
   * about the last message, behind the star banner when a star was gained.
   */
  function FeedbackMessage(s: State, agents: Agents): (r: Result<Update>)
    ensures r.Ok? <==> s.messages != []
    ensures r.Ok? ==> |r.value.messages| == 1 && r.value == Say(r.value.messages[0].content)
    ensures r.Ok? && s.starGained ==> Banner(QuestionTopic(s)) <= r.value.messages[0].content
    ensures r.Ok? ==>
      var f := agents.feedback(QuestionText(s), Last(s.messages).content, s.evaluation.GetOr(DefaultEvaluation));
      r.value.messages[0].content == (if s.starGained then StarBanner(QuestionTopic(s), f) else f)
  {
    if s.messages == [] then Crash(IndexError)
    else
      var f := agents.feedback(QuestionText(s), Last(s.messages).content, s.evaluation.GetOr(DefaultEvaluation));
      Ok(Say(if s.starGained then StarBanner(QuestionTopic(s), f) else f))
  }

  /** `final_report_node`: the report written from the whole transcript, and the interview marked complete. */
  function FinalReport(s: State, agents: Agents): (u: Update)
    ensures |u.messages| == 1 && u.complete == Some(true)
    ensures u.current.None? && u.count.None? && u.questions.None?
    ensures u.messages == [Message(Ai, agents.report(Transcript(s.messages)))]
  {
    NoChange.(messages := [Message(Ai, agents.report(Transcript(s.messages)))], complete := Some(true))
  }

  /**
   * Delivering the head of a non-empty queue: it becomes the current
   * question and is asked, the rest stays queued, and the star flag is
   * reset.
   */
  function Deliver(queue: seq<Question>): (u: Update)
    requires queue != []
    ensures u.current == Some(queue[0]) && u.questions == Some(queue[1..])
    ensures u.messages == [Message(Ai, queue[0].text)] && u.starGained == Some(false)
    ensures u.count.None? && u.complete.None?
  {
    NoChange.(questions := Some(queue[1..]), current := Some(queue[0]), starGained := Some(false), messages := [Message(Ai, queue[0].text)])
  }

  /** After a delivery the queue loses exactly its head, which is now the current question (first in, first out). */
  lemma DeliverIsFifo(s: State, queue: seq<Question>)
    requires queue != []
    ensures var t := Apply(s, Deliver(queue)); queue == [t.current.value] + t.questions
  {
  }
}
