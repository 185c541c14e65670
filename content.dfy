/** Value types shared by the study screens: the question list that the study
    builder produces and both session components consume, and the session
    result that a finished session reports. */
module Content {

  datatype Option<+T> = None | Some(value: T)

  /** A computation that either yields a value or throws with a message. */
  datatype Result<+T> = Ok(value: T) | Err(message: string)

  /** One entry of `StudyContent.questions`. A quiz item carries `options`; a
      flashcard has none (the field is absent). */
  datatype Question = Question(question: string, answer: string, options: Option<seq<string>>)

  predicate IsFlashcard(q: Question) {
    q.options.None?
  }

  datatype StudyContent = StudyContent(
    topic: string,
    content: string,
    topicId: Option<string>,
    questions: seq<Question>)

  datatype SessionType = Flashcards | Quiz

  /** The row `saveSessionResult` writes when a session ends. */
  datatype SessionResult = SessionResult(
    topicId: string,
    sessionType: SessionType,
    score: int,
    totalQuestions: int)

  /** `if (content.topicId)`: an absent id and the empty string are both
      falsy, so neither gets a result written. */
  predicate HasTopicId(c: StudyContent) {
    c.topicId.Some? && c.topicId.value != ""
  }

  /** The result a finishing session hands to `saveSessionResult`, if any. */
  function Report(c: StudyContent, kind: SessionType, score: int, total: int): (r: Option<SessionResult>)
    ensures r.Some? <==> c.topicId.Some? && c.topicId.value != ""
    ensures r.Some? ==> r.value == SessionResult(c.topicId.value, kind, score, total)
  {
    if HasTopicId(c) then Some(SessionResult(c.topicId.value, kind, score, total)) else None
  }

  /** What a session handler tells the parent screen: nothing, or
      `onComplete` together with the session result it saved first. */
  datatype Signal = Continue | Complete(saved: Option<SessionResult>)

  /** The session result a signal carries, as a list of zero or one. */
  function Saved(s: Signal): seq<SessionResult> {
    if s.Complete? && s.saved.Some? then [s.saved.value] else []
  }
}
