/**
 * The chatbot question cursor of backend/app/api/chatbot.py: a module-level
 * `sessions` dictionary of per-session records, each holding the question
 * list, a `current_index` cursor and the `responses` recorded so far.
 */
module Chatbot {
  import opened Wrappers
  import opened Json
  import opened Http

  type SessionId = string

  /** A follow-up question as `q.dict()` gives it. */
  type Question = map<string, Json>

  /** One entry of `sessions`: `{'questions': ..., 'current_index': ..., 'responses': ...}`. */
  datatype ChatSession = ChatSession(questions: seq<Question>, currentIndex: nat, responses: seq<string>)

  /** `ChatbotRequest`: `user_input` and `session_id` are required, `context` is unused here. */
  datatype ChatbotRequest = ChatbotRequest(userInput: string, sessionId: SessionId, context: Option<Json>)

  /**
   * `ChatbotResponse` with its defaults. The model declares no `session_id`
   * field, so the `session_id=` keyword the endpoints pass is dropped.
   */
  datatype ChatbotResponse = ChatbotResponse(
    message: string,
    currentQuestion: Option<Question>,
    remainingQuestions: seq<string>,
    isComplete: bool,
    diagnosis: Option<string>,
    treatmentPlan: Option<seq<string>>)

  /** The cursor never runs past the end of the question list. */
  predicate CursorInRange(s: ChatSession) {
    s.currentIndex <= |s.questions|
  }

  /** The record a new session starts from. */
  function NewSession(questions: seq<Question>): ChatSession {
    ChatSession(questions, 0, [])
  }

  /**
   * One call of `QuestionManager.get_next_question` on a session record:
   * the record afterwards and the question returned (`None` when exhausted).
   */
  function NextQuestionStep(s: ChatSession, answer: Option<string>): (ChatSession, Option<Question>) {
    var recorded := if answer.Some? then s.(responses := s.responses + [answer.value]) else s;
    if recorded.currentIndex >= |recorded.questions| then (recorded, None)
    else (recorded.(currentIndex := recorded.currentIndex + 1), Some(recorded.questions[recorded.currentIndex]))
  }

  /** What one call promises: the answer is recorded first, then the cursor either advances by one or stays. */
  lemma NextQuestionStepFacts(s: ChatSession, answer: Option<string>)
    ensures var (t, q) := NextQuestionStep(s, answer);
      && t.questions == s.questions
      && t.responses == (if answer.Some? then s.responses + [answer.value] else s.responses)
      && (s.currentIndex >= |s.questions| ==> q == None && t.currentIndex == s.currentIndex)
      && (s.currentIndex < |s.questions| ==>
            q == Some(s.questions[s.currentIndex]) && t.currentIndex == s.currentIndex + 1)
      && (CursorInRange(s) ==> CursorInRange(t))
  {
  }

  /** The answers a sequence of calls records: the non-`None` ones, in order. */
  function Recorded(answers: seq<Option<string>>): seq<string> {
    if answers == [] then []
    else (if answers[0].Some? then [answers[0].value] else []) + Recorded(answers[1..])
  }

  /** A sequence of calls: the record reached and the question each call returned. */
  function Run(s: ChatSession, answers: seq<Option<string>>): (ChatSession, seq<Option<Question>>)
    decreases |answers|
  {
    if answers == [] then (s, [])
    else
      var (s1, q) := NextQuestionStep(s, answers[0]);
      var (s2, qs) := Run(s1, answers[1..]);
      (s2, [q] + qs)
  }

  function Min(a: int, b: int): int {
    if a <= b then a else b
  }

  /**
   * Over any sequence of calls the questions come out in list order, each
   * exactly once, then `None` for ever; every non-`None` answer is recorded
   * in order, and the question list is never changed.
   */
  lemma {:induction false} RunHandsOutQuestionsInOrder(s: ChatSession, answers: seq<Option<string>>)
    requires CursorInRange(s)
    ensures var (t, qs) := Run(s, answers);
      && t.questions == s.questions
      && t.currentIndex == Min(s.currentIndex + |answers|, |s.questions|)
      && t.responses == s.responses + Recorded(answers)
      && |qs| == |answers|
      && (forall k | 0 <= k < |answers| ::
            qs[k] == if s.currentIndex + k < |s.questions| then Some(s.questions[s.currentIndex + k]) else None)
    decreases |answers|
  {
    if answers != [] {
      var (s1, q) := NextQuestionStep(s, answers[0]);
      NextQuestionStepFacts(s, answers[0]);
      RunHandsOutQuestionsInOrder(s1, answers[1..]);
      var (s2, qs) := Run(s1, answers[1..]);
      assert Run(s, answers) == (s2, [q] + qs);
      assert Recorded(answers) == (if answers[0].Some? then [answers[0].value] else []) + Recorded(answers[1..]);
      forall k | 0 <= k < |answers|
        ensures ([q] + qs)[k] == if s.currentIndex + k < |s.questions| then Some(s.questions[s.currentIndex + k]) else None
      {
        if k > 0 {
          assert ([q] + qs)[k] == qs[k - 1];
        }
      }
    }
  }

  /** `handle_response`'s choice: `if not next_q` ends the assessment, otherwise the next question is sent. */
  function ResponseFor(next: Option<Question>): (r: ChatbotResponse)
    ensures r.isComplete <==> (next.None? || next.value == map[])
    ensures r.isComplete ==> r.currentQuestion.None? && r.message == "Assessment complete"
    ensures !r.isComplete ==> r.currentQuestion == next && r.message == "Thank you for your response"
    ensures r.remainingQuestions == [] && r.diagnosis.None? && r.treatmentPlan.None?
  {
    if next.None? || !PyTruthy(JObj(next.value)) then
      ChatbotResponse("Assessment complete", None, [], true, None, None)
    else
      ChatbotResponse("Thank you for your response", next, [], false, None, None)
  }

  /**
   * Python truthiness of the returned question: a question whose dictionary
   * is empty is falsy, so it is reported as completion although it was
   * consumed and later questions may remain.
   */
  lemma EmptyQuestionReadsAsCompletion(s: ChatSession, answer: Option<string>)
    requires s.currentIndex < |s.questions| && s.questions[s.currentIndex] == map[]
    ensures ResponseFor(NextQuestionStep(s, answer).1).isComplete
    ensures NextQuestionStep(s, answer).0.currentIndex == s.currentIndex + 1
  {
  }

  /** The module-level `sessions` dictionary and the endpoints that use it. */
  class ChatbotService {
    var sessions: map<SessionId, ChatSession>

    ghost predicate Valid()
      reads this
    {
      forall sid | sid in sessions :: CursorInRange(sessions[sid])
    }

    constructor ()
      ensures Valid() && sessions == map[]
    {
      sessions := map[];
    }

    /**
     * `QuestionManager.get_next_question`: an unknown id raises `KeyError`
     * before anything changes; otherwise the session's record takes one step.
     */
    method GetNextQuestion(sid: SessionId, answer: Option<string>) returns (r: Result<Option<Question>, SessionId>)
      requires Valid()
      modifies this
      ensures Valid()
      ensures sid !in old(sessions) ==> r == Err(sid) && sessions == old(sessions)
      ensures sid in old(sessions) ==>
        var (t, q) := NextQuestionStep(old(sessions[sid]), answer);
        r == Ok(q) && sessions == old(sessions)[sid := t]
    {
      if sid !in sessions {
        return Err(sid);
      }
      var session := sessions[sid];
      if answer.Some? {
        session := session.(responses := session.responses + [answer.value]);
      }
      if session.currentIndex >= |session.questions| {
        sessions := sessions[sid := session];
        return Ok(None);
      }
      var nextQ := session.questions[session.currentIndex];
      session := session.(currentIndex := session.currentIndex + 1);
      sessions := sessions[sid := session];
      r := Ok(Some(nextQ));
    }

    /**
     * `start_session`: the session id (a per-process `hash`) is a parameter.
     * A new record starts at index 0 with no responses and the first
     * question is fetched at once, so the cursor is 1 when there are questions.
     */
    method StartSession(sid: SessionId, questions: seq<Question>) returns (resp: ChatbotResponse)
      requires Valid()
      modifies this
      ensures Valid()
      ensures sessions == old(sessions)[sid := ChatSession(questions, if questions == [] then 0 else 1, [])]
      ensures resp.message == "Let's begin your assessment" && !resp.isComplete
      ensures resp.currentQuestion == if questions == [] then None else Some(questions[0])
    {
      sessions := sessions[sid := NewSession(questions)];
      var first := GetNextQuestion(sid, None);
      resp := ChatbotResponse("Let's begin your assessment", first.value, [], false, None, None);
    }

    /**
     * `handle_response`: records the user's input and answers with the next
     * question, or with completion; an unknown session becomes 404.
     */
    method HandleResponse(req: ChatbotRequest) returns (r: Result<ChatbotResponse, HttpException>)
      requires Valid()
      modifies this
      ensures Valid()
      ensures req.sessionId !in old(sessions) ==>
        r == Err(HttpException(404, JStr("Session not found"))) && sessions == old(sessions)
      ensures req.sessionId in old(sessions) ==>
        var (t, q) := NextQuestionStep(old(sessions[req.sessionId]), Some(req.userInput));
        sessions == old(sessions)[req.sessionId := t] && r == Ok(ResponseFor(q))
    {
      var next := GetNextQuestion(req.sessionId, Some(req.userInput));
      if next.Err? {
        return Err(HttpException(404, JStr("Session not found")));
      }
      r := Ok(ResponseFor(next.value));
    }
  }
}
