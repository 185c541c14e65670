/** The page that switches between the welcome screen, the study-mode form,
    a study session and the progress dashboard. It holds three state hooks
    and hands its handlers to the screen it shows. */
module Index {
  import opened Content
  import FlashcardSession
  import QuizSession
  import StudyMode

  /** `currentScreen`: `'welcome' | 'study-mode' | 'session' | 'dashboard'`. */
  datatype Screen = Welcome | StudyModeScreen | SessionScreen | Dashboard

  /** What the page shows: one screen component, or nothing at all. */
  datatype View =
    | WelcomeView
    | StudyModeView
    | FlashcardView(content: StudyContent)
    | QuizView(content: StudyContent)
    | DashboardView
    | Empty

  /** The page's render: a session component appears only on the session
      screen with content present, and the session type picks which. */
  function Render(screen: Screen, sessionType: SessionType, studyContent: Option<StudyContent>): (v: View)
    ensures v.FlashcardView? <==> screen == SessionScreen && studyContent.Some? && sessionType.Flashcards?
    ensures v.QuizView? <==> screen == SessionScreen && studyContent.Some? && sessionType.Quiz?
    ensures (v.FlashcardView? || v.QuizView?) ==> studyContent == Some(v.content)
    ensures v == Empty <==> screen == SessionScreen && studyContent.None?
    ensures v == WelcomeView <==> screen == Welcome
    ensures v == StudyModeView <==> screen == StudyModeScreen
    ensures v == DashboardView <==> screen == Dashboard
  {
    match screen
    case Welcome => WelcomeView
    case StudyModeScreen => StudyModeView
    case SessionScreen =>
      if studyContent.None? then Empty
      else if sessionType.Flashcards? then FlashcardView(studyContent.value)
      else QuizView(studyContent.value)
    case Dashboard => DashboardView
  }

  /** The handlers the page passes down. */
  datatype Action =
    | StartPressed
    | StartStudy(kind: SessionType, content: StudyContent)
    | SessionCompleted
    | BackToStudy

  /** Which handlers each view is given: `onStart` on the welcome screen,
      `onStartStudy` on the form, `onComplete` and `onBack` in a session,
      `onBackToStudy` on the dashboard. */
  predicate Offers(v: View, a: Action) {
    match v
    case WelcomeView => a.StartPressed?
    case StudyModeView => a.StartStudy?
    case FlashcardView(_) => a.SessionCompleted? || a.BackToStudy?
    case QuizView(_) => a.SessionCompleted? || a.BackToStudy?
    case DashboardView => a.BackToStudy?
    case Empty => false
  }

  datatype Page = Page(currentScreen: Screen, sessionType: SessionType, studyContent: Option<StudyContent>)

  const Start := Page(Welcome, Flashcards, None)

  function ViewOf(p: Page): View {
    Render(p.currentScreen, p.sessionType, p.studyContent)
  }

  /** One handler run to completion. */
  function Apply(p: Page, a: Action): Page {
    match a
    case StartPressed => p.(currentScreen := StudyModeScreen)
    case StartStudy(kind, content) => Page(SessionScreen, kind, Some(content))
    case SessionCompleted => p.(currentScreen := Dashboard)
    case BackToStudy => p.(currentScreen := StudyModeScreen)
  }

  function Run(p: Page, actions: seq<Action>): Page
    decreases |actions|
  {
    if actions == [] then p else Run(Apply(p, actions[0]), actions[1..])
  }

  /** The session screen always has content to show. */
  ghost predicate Inv(p: Page) {
    p.currentScreen == SessionScreen ==> p.studyContent.Some?
  }

  /** Every handler keeps the invariant, so the page is never empty; only
      starting a study session touches the session type or the content, and
      then it sets both and shows that content in the matching component. */
  lemma ApplyKeepsInv(p: Page, a: Action)
    requires Inv(p)
    ensures Inv(Apply(p, a)) && ViewOf(Apply(p, a)) != Empty
    ensures !a.StartStudy? ==> Apply(p, a).sessionType == p.sessionType && Apply(p, a).studyContent == p.studyContent
    ensures a.StartStudy? ==>
              ViewOf(Apply(p, a)) == (if a.kind == Flashcards then FlashcardView(a.content) else QuizView(a.content))
  {
  }

  /** Along any run from the initial page: the invariant holds, nothing is
      ever empty, the welcome screen is never shown again once left, and
      content once chosen is never cleared. */
  lemma {:induction false} RunKeepsInv(p: Page, actions: seq<Action>)
    requires Inv(p)
    ensures Inv(Run(p, actions)) && ViewOf(Run(p, actions)) != Empty
    ensures Run(p, actions).currentScreen == Welcome ==> actions == [] && p.currentScreen == Welcome
    ensures p.studyContent.Some? ==> Run(p, actions).studyContent.Some?
    decreases |actions|
  {
    if actions != [] {
      ApplyKeepsInv(p, actions[0]);
      RunKeepsInv(Apply(p, actions[0]), actions[1..]);
    }
  }

  /** The screens the page moves between, following only the handlers each
      view is given: welcome leads to the form, the form to a session, a
      session to the dashboard or back to the form, the dashboard back to the
      form. */
  lemma OfferedMoves(p: Page, a: Action)
    requires Inv(p) && Offers(ViewOf(p), a)
    ensures p.currentScreen == Welcome ==> Apply(p, a).currentScreen == StudyModeScreen
    ensures p.currentScreen == StudyModeScreen ==> Apply(p, a).currentScreen == SessionScreen
    ensures p.currentScreen == SessionScreen ==> Apply(p, a).currentScreen in {Dashboard, StudyModeScreen}
    ensures p.currentScreen == Dashboard ==> Apply(p, a).currentScreen == StudyModeScreen
  {
  }

  /** Finishing a session twice is the same as finishing it once. */
  lemma SessionCompletedIdempotent(p: Page)
    ensures Apply(Apply(p, SessionCompleted), SessionCompleted) == Apply(p, SessionCompleted)
  {
  }

  /** A freshly built study content, handed to a session screen: the
      flashcard session sees exactly the generated flashcards and the quiz
      session exactly the generated quiz items, each in generator order. */
  lemma SessionsSeeTheirGroups(cards: seq<StudyMode.FlashcardRecord>, quiz: seq<StudyMode.QuizRecord>)
    ensures FlashcardSession.FlashcardItems(StudyMode.Questions(cards, quiz))
            == seq(|cards|, i requires 0 <= i < |cards| => StudyMode.AsFlashcard(cards[i]))
    ensures QuizSession.QuizItems(StudyMode.Questions(cards, quiz))
            == seq(|quiz|, j requires 0 <= j < |quiz| => StudyMode.AsQuizItem(quiz[j]))
  {
    var flashcards := seq(|cards|, i requires 0 <= i < |cards| => StudyMode.AsFlashcard(cards[i]));
    var quizItems := seq(|quiz|, j requires 0 <= j < |quiz| => StudyMode.AsQuizItem(quiz[j]));
    assert StudyMode.Questions(cards, quiz) == flashcards + quizItems;
    FlashcardSession.FlashcardItemsAppend(flashcards, quizItems);
    FlashcardSession.FlashcardItemsKeepsFlashcards(flashcards);
    FlashcardSession.FlashcardItemsDropsQuizItems(quizItems);
    QuizSession.QuizItemsAppend(flashcards, quizItems);
    QuizSession.QuizItemsDropsFlashcards(flashcards);
    QuizSession.QuizItemsKeepsQuizItems(quizItems);
  }

  /** The page's state hooks. */
  class App {
    var currentScreen: Screen
    var sessionType: SessionType
    var studyContent: Option<StudyContent>

    function State(): Page
      reads this
    {
      Page(currentScreen, sessionType, studyContent)
    }

    ghost predicate Valid()
      reads this
    {
      Inv(State())
    }

    /** What the page shows now. */
    function View(): (v: View)
      reads this
      requires Valid()
      ensures v != Empty
    {
      Render(currentScreen, sessionType, studyContent)
    }

    constructor ()
      ensures Valid() && State() == Start && View() == WelcomeView
    {
      currentScreen, sessionType, studyContent := Welcome, Flashcards, None;
    }

    /** The welcome screen's `onStart`. */
    method HandleStart()
      requires Valid()
      modifies this`currentScreen
      ensures Valid() && State() == Apply(old(State()), StartPressed)
      ensures currentScreen == StudyModeScreen && View() == StudyModeView
    {
      currentScreen := StudyModeScreen;
    }

    /** `handleStartStudy`: session type, content and screen together. */
    method HandleStartStudy(kind: SessionType, content: StudyContent)
      requires Valid()
      modifies this
      ensures Valid() && State() == Apply(old(State()), StartStudy(kind, content))
      ensures sessionType == kind && studyContent == Some(content) && currentScreen == SessionScreen
      ensures View() == (if kind == Flashcards then FlashcardView(content) else QuizView(content))
    {
      sessionType := kind;
      studyContent := Some(content);
      currentScreen := SessionScreen;
    }

    /** `handleSessionComplete`. */
    method HandleSessionComplete()
      requires Valid()
      modifies this`currentScreen
      ensures Valid() && State() == Apply(old(State()), SessionCompleted)
      ensures currentScreen == Dashboard && View() == DashboardView
    {
      currentScreen := Dashboard;
    }

    /** `handleBackToStudy`, from a session or from the dashboard. */
    method HandleBackToStudy()
      requires Valid()
      modifies this`currentScreen
      ensures Valid() && State() == Apply(old(State()), BackToStudy)
      ensures currentScreen == StudyModeScreen && View() == StudyModeView
    {
      currentScreen := StudyModeScreen;
    }
  }
}
