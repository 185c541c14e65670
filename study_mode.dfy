/** The study-mode screen: the user either pastes text or names a topic, and
    starting a session builds the study content. The build stores the topic,
    asks the generator for flashcards and then for quiz questions, stores both
    sets, and merges them into one question list, flashcards first. Each of
    the five backend calls either succeeds or throws, and a throw abandons
    the steps after it. The backend is given to the model as the outcome of
    each call. */
module StudyMode {
  import opened Content
  import Text

  /** `mode`: `null` until the user picks a way in. */
  datatype Mode = Unchosen | Upload | TopicMode

  /** One element of the flashcard generator's JSON array. */
  datatype FlashcardRecord = FlashcardRecord(question: string, answer: string)

  /** One element of the quiz generator's JSON array. */
  datatype QuizRecord = QuizRecord(
    question: string,
    correctAnswer: string,
    optionA: string,
    optionB: string,
    optionC: string,
    optionD: string)

  /** The row inserted into `study_topics`. */
  datatype TopicRow = TopicRow(title: string, content: string, description: Option<string>)

  /** A row inserted into `flashcards`. */
  datatype FlashcardRow = FlashcardRow(topicId: string, question: string, answer: string)

  /** A row inserted into `quiz_questions`. */
  datatype QuizRow = QuizRow(
    topicId: string,
    question: string,
    correctAnswer: string,
    optionA: string,
    optionB: string,
    optionC: string,
    optionD: string)

  /** The body sent to the `generate-content` function: `{ prompt, type }`. */
  datatype Invocation = Invocation(prompt: string, kind: string)

  /** A backend call, as the build issues it. */
  datatype Call =
    | InsertTopic(topic: TopicRow)
    | Generate(request: Invocation)
    | InsertFlashcards(cards: seq<FlashcardRow>)
    | InsertQuiz(items: seq<QuizRow>)

  /** How the backend answers the five calls: the new topic's id or an insert
      error, the generated flashcards or an invocation error, the generated
      quiz items or an invocation error, and whether each bulk insert
      succeeded. */
  datatype Backend = Backend(
    topicId: Option<string>,
    flashcards: Option<seq<FlashcardRecord>>,
    quiz: Option<seq<QuizRecord>>,
    flashcardsStored: bool,
    quizStored: bool)

  function FlashcardPrompt(topicName: string, text: string): string {
    "Create 10 flashcard questions and answers from this content about \"" + topicName + "\":\n\n" + text
  }

  function QuizPrompt(topicName: string, text: string): string {
    "Create 10 multiple choice quiz questions from this content about \"" + topicName + "\":\n\n" + text
  }

  function FlashcardRows(id: string, cards: seq<FlashcardRecord>): seq<FlashcardRow> {
    seq(|cards|, i requires 0 <= i < |cards| => FlashcardRow(id, cards[i].question, cards[i].answer))
  }

  function QuizRows(id: string, quiz: seq<QuizRecord>): seq<QuizRow> {
    seq(|quiz|, i requires 0 <= i < |quiz| =>
      QuizRow(id, quiz[i].question, quiz[i].correctAnswer,
              quiz[i].optionA, quiz[i].optionB, quiz[i].optionC, quiz[i].optionD))
  }

  function AsFlashcard(r: FlashcardRecord): Question {
    Question(r.question, r.answer, None)
  }

  function AsQuizItem(r: QuizRecord): Question {
    Question(r.question, r.correctAnswer, Some([r.optionA, r.optionB, r.optionC, r.optionD]))
  }

  /** The merged `questions`: every flashcard, without options, in generator
      order, then every quiz item, with its four options in slot order and the
      correct answer as its answer. */
  function Questions(cards: seq<FlashcardRecord>, quiz: seq<QuizRecord>): (qs: seq<Question>)
    ensures |qs| == |cards| + |quiz|
    ensures forall i :: 0 <= i < |cards| ==>
              IsFlashcard(qs[i]) && qs[i].question == cards[i].question && qs[i].answer == cards[i].answer
    ensures forall j :: 0 <= j < |quiz| ==>
              && qs[|cards| + j].options == Some([quiz[j].optionA, quiz[j].optionB, quiz[j].optionC, quiz[j].optionD])
              && qs[|cards| + j].question == quiz[j].question
              && qs[|cards| + j].answer == quiz[j].correctAnswer
  {
    seq(|cards|, i requires 0 <= i < |cards| => AsFlashcard(cards[i]))
    + seq(|quiz|, j requires 0 <= j < |quiz| => AsQuizItem(quiz[j]))
  }

  /** What is stored is what is studied: each stored flashcard row and quiz
      row carries the same question, answer and options as the merged entry
      at its place, all under the new topic's id. */
  lemma StoredMatchesStudied(id: string, cards: seq<FlashcardRecord>, quiz: seq<QuizRecord>)
    ensures |FlashcardRows(id, cards)| + |QuizRows(id, quiz)| == |Questions(cards, quiz)|
    ensures forall i :: 0 <= i < |cards| ==>
              var row := FlashcardRows(id, cards)[i];
              row.topicId == id && Questions(cards, quiz)[i] == Question(row.question, row.answer, None)
    ensures forall j :: 0 <= j < |quiz| ==>
              var row := QuizRows(id, quiz)[j];
              row.topicId == id
              && Questions(cards, quiz)[|cards| + j]
                 == Question(row.question, row.correctAnswer, Some([row.optionA, row.optionB, row.optionC, row.optionD]))
  {
  }

  /** A quiz item's answer is among its options exactly when the generator's
      correct answer is one of its four option slots; nothing in the build
      checks this. */
  lemma AnswerAmongOptions(r: QuizRecord)
    ensures AsQuizItem(r).answer in AsQuizItem(r).options.value
            <==> r.correctAnswer in {r.optionA, r.optionB, r.optionC, r.optionD}
    ensures |AsQuizItem(r).options.value| == 4
  {
  }

  /** The error each step throws. */
  function StepError(step: nat): string {
    if step == 0 then "Failed to store topic"
    else if step == 1 then "Failed to generate flashcards"
    else if step == 2 then "Failed to generate quiz questions"
    else if step == 3 then "Failed to store flashcards"
    else "Failed to store quiz questions"
  }

  /** The first of the five steps that fails, or 5 when all succeed. */
  function FirstFailure(b: Backend): nat {
    if b.topicId.None? then 0
    else if b.flashcards.None? then 1
    else if b.quiz.None? then 2
    else if !b.flashcardsStored then 3
    else if !b.quizStored then 4
    else 5
  }

  /** The step a call belongs to: topic insert, flashcard generation, quiz
      generation, flashcard insert, quiz insert. */
  function StepOf(c: Call): nat {
    match c
    case InsertTopic(_) => 0
    case Generate(req) => if req.kind == "flashcards" then 1 else 2
    case InsertFlashcards(_) => 3
    case InsertQuiz(_) => 4
  }

  /** `generateAndStoreContent`: the outcome and the calls made, in order. */
  function Build(text: string, topicName: string, description: Option<string>, b: Backend): (Result<StudyContent>, seq<Call>) {
    var storeTopic := InsertTopic(TopicRow(topicName, text, description));
    var askCards := Generate(Invocation(FlashcardPrompt(topicName, text), "flashcards"));
    var askQuiz := Generate(Invocation(QuizPrompt(topicName, text), "quiz"));
    if b.topicId.None? then (Err("Failed to store topic"), [storeTopic])
    else if b.flashcards.None? then (Err("Failed to generate flashcards"), [storeTopic, askCards])
    else if b.quiz.None? then (Err("Failed to generate quiz questions"), [storeTopic, askCards, askQuiz])
    else
      var id := b.topicId.value;
      var storeCards := InsertFlashcards(FlashcardRows(id, b.flashcards.value));
      var storeQuiz := InsertQuiz(QuizRows(id, b.quiz.value));
      if !b.flashcardsStored then (Err("Failed to store flashcards"), [storeTopic, askCards, askQuiz, storeCards])
      else if !b.quizStored then (Err("Failed to store quiz questions"), [storeTopic, askCards, askQuiz, storeCards, storeQuiz])
      else
        (Ok(StudyContent(topicName, text, Some(id), Questions(b.flashcards.value, b.quiz.value))),
         [storeTopic, askCards, askQuiz, storeCards, storeQuiz])
  }

  /** The steps run in their fixed order and the first failing one is the
      last to run: the build succeeds exactly when all five do, and otherwise
      reports the error of the step that failed. */
  lemma BuildStopsAtFirstFailure(text: string, topicName: string, description: Option<string>, b: Backend)
    ensures var (r, calls) := Build(text, topicName, description, b);
            && |calls| == (if FirstFailure(b) == 5 then 5 else FirstFailure(b) + 1)
            && (forall i :: 0 <= i < |calls| ==> StepOf(calls[i]) == i)
            && (r.Ok? <==> FirstFailure(b) == 5)
            && (r.Err? ==> r.message == StepError(FirstFailure(b)))
  {
    var (r, calls) := Build(text, topicName, description, b);
    if b.topicId.None? {
      assert |calls| == 1;
    } else if b.flashcards.None? {
      assert |calls| == 2;
    } else if b.quiz.None? {
      assert |calls| == 3;
    } else if !b.flashcardsStored {
      assert |calls| == 4;
    } else {
      assert |calls| == 5;
    }
  }

  /** A successful build carries the topic name, the text, the new topic's id
      and the merged questions; the topic is stored with the given
      description, the generator is asked with the given topic name and
      text, and the generated items are stored under the new id. */
  lemma BuildResult(text: string, topicName: string, description: Option<string>, b: Backend)
    requires FirstFailure(b) == 5
    ensures var (r, calls) := Build(text, topicName, description, b);
            && r == Ok(StudyContent(topicName, text, b.topicId, Questions(b.flashcards.value, b.quiz.value)))
            && calls[0] == InsertTopic(TopicRow(topicName, text, description))
            && calls[1] == Generate(Invocation(FlashcardPrompt(topicName, text), "flashcards"))
            && calls[2] == Generate(Invocation(QuizPrompt(topicName, text), "quiz"))
            && calls[3] == InsertFlashcards(FlashcardRows(b.topicId.value, b.flashcards.value))
            && calls[4] == InsertQuiz(QuizRows(b.topicId.value, b.quiz.value))
  {
  }

  /** `generateAndStoreContent`, step by step; a failing step returns its
      error at once. */
  method GenerateAndStoreContent(text: string, topicName: string, description: Option<string>, backend: Backend)
    returns (r: Result<StudyContent>, calls: seq<Call>)
    ensures (r, calls) == Build(text, topicName, description, backend)
  {
    var storeTopic := InsertTopic(TopicRow(topicName, text, description));
    calls := [storeTopic];
    if backend.topicId.None? {
      return Err("Failed to store topic"), calls;
    }
    var id := backend.topicId.value;

    var askCards := Generate(Invocation(FlashcardPrompt(topicName, text), "flashcards"));
    calls := [storeTopic, askCards];
    if backend.flashcards.None? {
      return Err("Failed to generate flashcards"), calls;
    }

    var askQuiz := Generate(Invocation(QuizPrompt(topicName, text), "quiz"));
    calls := [storeTopic, askCards, askQuiz];
    if backend.quiz.None? {
      return Err("Failed to generate quiz questions"), calls;
    }

    var flashcards := backend.flashcards.value;
    var quizQuestions := backend.quiz.value;

    var storeCards := InsertFlashcards(FlashcardRows(id, flashcards));
    calls := [storeTopic, askCards, askQuiz, storeCards];
    if !backend.flashcardsStored {
      return Err("Failed to store flashcards"), calls;
    }

    var storeQuiz := InsertQuiz(QuizRows(id, quizQuestions));
    calls := [storeTopic, askCards, askQuiz, storeCards, storeQuiz];
    if !backend.quizStored {
      return Err("Failed to store quiz questions"), calls;
    }

    r := Ok(StudyContent(topicName, text, Some(id), Questions(flashcards, quizQuestions)));
  }

  /** `!s.trim()`. */
  predicate Blank(s: string) {
    Text.Trim(s) == []
  }

  /** The guard of `handleStart` refuses exactly when the content and the
      topic fields are both all white space (whatever the mode). */
  lemma GuardRefusesOnlyWhitespace(content: string, topic: string)
    ensures Blank(content) && Blank(topic) <==>
              (forall i :: 0 <= i < |content| ==> Text.IsWhitespace(content[i]))
              && (forall i :: 0 <= i < |topic| ==> Text.IsWhitespace(topic[i]))
  {
    Text.TrimEmptyIff(content);
    Text.TrimEmptyIff(topic);
  }

  /** A build `handleStart` has begun and not yet seen finish: the session
      type asked for, and the text, topic name and stored description it
      chose from the form. */
  datatype Started = Started(sessionType: SessionType, text: string, topicName: string, description: Option<string>)

  /** The form's state hooks, and the build in flight, if any. */
  class Form {
    var mode: Mode
    var content: string
    var topic: string
    var description: string
    var isLoading: bool
    var building: Option<Started>

    /** The loading screen is up exactly while a build is in flight. */
    ghost predicate Valid()
      reads this
    {
      isLoading <==> building.Some?
    }

    constructor ()
      ensures Valid()
      ensures mode == Unchosen && content == "" && topic == "" && description == "" && !isLoading
    {
      mode, content, topic, description, isLoading, building := Unchosen, "", "", "", false, None;
    }

    /** The two choice cards and the Back button: `setMode`. */
    method ChooseMode(m: Mode)
      requires Valid()
      modifies this`mode
      ensures Valid() && mode == m
    {
      mode := m;
    }

    /** The text inputs: `setContent`, `setTopic`, `setDescription`. */
    method Edit(newContent: string, newTopic: string, newDescription: string)
      requires Valid()
      modifies this`content, this`topic, this`description
      ensures Valid() && content == newContent && topic == newTopic && description == newDescription
    {
      content, topic, description := newContent, newTopic, newDescription;
    }

    /** `handleStart` up to the awaited build: refuse when both fields are
        blank, otherwise raise the loading flag and start the build with the
        inputs of the current mode. The start buttons are only on screen
        while nothing is loading. */
    method HandleStart(sessionType: SessionType) returns (started: bool)
      requires Valid() && !isLoading
      modifies this`isLoading, this`building
      ensures Valid()
      ensures started <==> !(Blank(content) && Blank(topic))
      ensures !started ==> !isLoading && building == old(building)
      ensures started ==> isLoading
      ensures started && mode == Upload ==>
                building == Some(Started(sessionType, content, "Uploaded Content", None))
      ensures started && mode == TopicMode ==>
                building == Some(Started(sessionType, description, topic, Some(description)))
      ensures started && mode == Unchosen ==>
                building == Some(Started(sessionType, description, topic, None))
    {
      if Blank(content) && Blank(topic) {
        return false;
      }
      isLoading := true;
      var textContent := if mode == Upload then content else description;
      var topicName := if mode == Upload then "Uploaded Content" else topic;
      var stored := if mode == TopicMode then Some(description) else None;
      building := Some(Started(sessionType, textContent, topicName, stored));
      started := true;
    }

    /** The awaited build settles: `onStartStudy` with the new content on
        success, a notice on failure, and in both cases the loading flag
        drops (`finally`). */
    method BuildSettles(backend: Backend) returns (start: Option<(SessionType, StudyContent)>, calls: seq<Call>)
      requires Valid() && building.Some?
      modifies this`isLoading, this`building
      ensures Valid() && !isLoading && building.None?
      ensures var b := old(building).value;
              var (r, made) := Build(b.text, b.topicName, b.description, backend);
              && calls == made
              && (start.Some? <==> r.Ok?)
              && (start.Some? ==> start.value == (b.sessionType, r.value))
    {
      var b := building.value;
      var r;
      r, calls := GenerateAndStoreContent(b.text, b.topicName, b.description, backend);
      if r.Ok? {
        start := Some((b.sessionType, r.value));
      } else {
        start := None;
      }
      isLoading := false;
      building := None;
    }
  }
}
