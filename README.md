# Study assistant: verified model of the session and content logic

The application is a study assistant. The user pastes text or names a topic.
The app asks a chat-completion service for ten flashcards and ten
multiple-choice questions, stores them, and runs a flashcard session or a quiz
session over them. A finished session stores a score.

This project models the sequential logic of that application in Dafny:

- **`FlashcardSession`** (`flashcard_session.dfy`): the flashcard deck.
  - The deck is the questions without options.
  - The state is a cursor, an answer-side flag and a set of completed cards.
  - Handlers: next, previous, "Got it", and the flip toggle.
  - "Got it" schedules an advance with a timer.
  - On the last card, the session ends and saves `|completedCards|` of `totalCards`.
- **`QuizSession`** (`quiz_session.dfy`): the quiz.
  - The quiz is the questions with options.
  - Handlers: select, submit, and the delayed advance or finish.
  - The score counts the right answers. The last question saves `score + (isCorrect ? 1 : 0)`.
- **`StudyMode`** (`study_mode.dfy`): the study-mode form.
  - The build makes five backend calls in a fixed order, and the first failure aborts the rest. The calls are: insert the topic, generate flashcards, generate the quiz, insert the flashcards, insert the quiz items.
  - It merges the questions: flashcards first, then quiz items whose options are `option_a..d`.
  - The start guard refuses when both fields are blank.
  - The mode decides the text, the topic name and the stored description.
  - The loading flag is raised for the whole build.
- **`GenerateContent`** (`generate_content.dfy`): the `generate-content` edge function.
  - `OPTIONS` is answered at once.
  - The system prompt is chosen by `type`.
  - The Markdown fence is stripped from the reply before `JSON.parse`.
  - Every failure maps to a 500 response.
- **`Index`** (`index.dfy`): the page that switches between the welcome screen, the form, a session and the dashboard.
- **`Text`** (`text.dfy`) and **`Content`** (`content.dfy`): the string functions these rely on, and the shared value types.
  - The string functions are `trim`, `includes` and `split`, with their JavaScript meaning.
  - `Content.Report` is the guard `if (content.topicId)`: an absent id and the empty string both skip the save.

**How state is modelled.** `FlashcardSession`, `QuizSession` and `Index`
each have three parts:

- a `class` whose fields are the component's state hooks, with one method per handler;
- a pure value of the same state (`Deck`, `QuizState`, `Page`) with one function per handler;
- an invariant that every handler keeps, proved over any sequence of events (`RunKeepsInv`).

In these three, each method's `ensures` ties the new state to the function on
the old state. `StudyMode.Form` is a class over the form's state hooks whose
methods state the new fields directly. Its build is proved equal to the pure
function `StudyMode.Build`, and the properties are proved about that function.

A handler reads the state of the render that created it. So a `setTimeout`
callback is modelled as a pending record of what it captured, and a
`TimerFired` event runs that record later.

The backend (Supabase inserts, function invocations), the completion call,
`req.json()` and `JSON.parse` are parameters. Each is given as its outcome:
a value or an error.

## Model

| member | source | states |
|---|---|---|
| Text.Trim | supabase/functions/generate-content/index.ts:41 | the result is the slice of the input between its leading and trailing white space; everything cut off is white space, and the result neither starts nor ends with white space |
| Text.TrimEmptyIff | src/components/StudyMode.tsx:122 | trimming gives the empty string exactly when every character is white space |
| Text.Split | supabase/functions/generate-content/index.ts:51-53 | `split` yields at least one part; part 0 is the text before the first separator; there is a part 1 exactly when the separator occurs, and it runs to the next separator; no part contains the separator; joining the parts with it gives back the input |
| Text.ContainsIffOccurs | supabase/functions/generate-content/index.ts:50-52 | `includes` holds exactly when the pattern occurs at some position of the text |
| Content.Report | src/components/FlashcardSession.tsx:28-34 | the guard `if (content.topicId)`: a result is saved exactly when the id is present and not the empty string, and it carries that id, the session type, the score and the total; the quiz uses the same guard (src/components/QuizSession.tsx:47-53) |
| GenerateContent.SystemPrompt | supabase/functions/generate-content/index.ts:30-32 | the flashcard instruction exactly when `type` is `flashcards`, the quiz instruction for every other value |
| GenerateContent.Block | supabase/functions/generate-content/index.ts:51-53 | the trimmed block after the opening marker, cut at the next fence, never contains a fence |
| GenerateContent.CleanContent | supabase/functions/generate-content/index.ts:46-54 | a reply containing a fence cleans to text without any fence; a reply without a fence is passed through unchanged |
| GenerateContent.JsonFenceIsFence | supabase/functions/generate-content/index.ts:50-52 | a reply with a `json` fence also contains a plain fence, so the `json` branch is taken first |
| GenerateContent.CleanJsonFenced | supabase/functions/generate-content/index.ts:50-51 | with a `json` fence the cleaned text is the trimmed segment after the first tag, up to the next tagged fence and then the next fence; with no second tag it is the trimmed segment between the tag and the next fence |
| GenerateContent.CleanPlainFenced | supabase/functions/generate-content/index.ts:52-53 | with only plain fences the cleaned text is the trimmed segment between the first two fences, or everything after the fence when there is one |
| GenerateContent.CleanIdempotent | supabase/functions/generate-content/index.ts:46-54 | cleaning a cleaned reply changes nothing |
| GenerateContent.Serve | supabase/functions/generate-content/index.ts:11-72 | `OPTIONS` answers 200 with no body and no upstream call; exactly one completion call (model, system prompt by type, the prompt) is made iff the body parsed; 200 with the parsed content iff body, reply and parse all succeed; otherwise 500 with an error, and a parse failure has the message `Failed to parse generated content as JSON: ` plus the parser's message |
| FlashcardSession.FlashcardItems | src/components/FlashcardSession.tsx:19 | the deck is no longer than the questions, and a question is in it exactly when it is in the questions and has no options |
| FlashcardSession.FlashcardItemsAppend | src/components/FlashcardSession.tsx:19 | the filter distributes over concatenation, so it keeps the original order |
| FlashcardSession.FlashcardItemsKeepsFlashcards | src/components/FlashcardSession.tsx:19 | a list of flashcards only is kept whole |
| FlashcardSession.FlashcardItemsDropsQuizItems | src/components/FlashcardSession.tsx:19 | a list of quiz items only yields an empty deck |
| FlashcardSession.BoundedSetSize | src/components/FlashcardSession.tsx:32-33 | a set of card indices below `k` has at most `k` members, which bounds the saved score |
| FlashcardSession.StepKeepsInv | src/components/FlashcardSession.tsx:15-50 | with "Got it" as intended (see Findings): every handler and timer keeps the cursor and the completed cards within `Slots(totalCards)`, which is the deck size, or 1 for an empty deck where "Got it" still marks card 0; a saved result has type flashcards, `totalQuestions = totalCards` and a score of at most `Slots(totalCards)` |
| FlashcardSession.RunKeepsInv | src/components/FlashcardSession.tsx:15-50 | with "Got it" as intended (see Findings): along any sequence of events the invariant holds, every saved result has a score of at most `Slots(totalCards)`, and `score <= totalQuestions` whenever the deck is not empty (an empty deck can save 1 of 0, see Left out) |
| FlashcardSession.CardCompleteAsWritten | src/components/FlashcardSession.tsx:47-49 | as written: the card joins the completed set, cursor and side stay, and the scheduled advance captures the completed set from before the mark |
| FlashcardSession.StepAsWrittenKeepsInv | src/components/FlashcardSession.tsx:15-50 | with "Got it" as written: every handler and timer keeps the same invariant, and a saved result has type flashcards, `totalQuestions = totalCards` and a score of at most `Slots(totalCards)` |
| FlashcardSession.RunAsWrittenKeepsInv | src/components/FlashcardSession.tsx:15-50 | with "Got it" as written: along any sequence of events the invariant holds, every saved result has a score of at most `Slots(totalCards)`, and `score <= totalQuestions` whenever the deck is not empty |
| FlashcardSession.FlipTwice | src/components/FlashcardSession.tsx:95 | flipping twice restores the side shown; flipping changes the side and never the cursor |
| FlashcardSession.CardCompleteMarksOnce | src/components/FlashcardSession.tsx:48 | "Got it" adds the current card to the completed set and nothing else; repeating it adds nothing |
| FlashcardSession.GotItOnLastCardLeavesItOut | src/components/FlashcardSession.tsx:47-49 | as written, "Got it" on an unmarked last card saves one less than the number of completed cards |
| FlashcardSession.OneCardDeckSavesZero | src/components/FlashcardSession.tsx:47-49 | as written, a one-card deck run through reveal, "Got it" and the timer ends with the card marked and saves exactly one result, 0 of 1 |
| FlashcardSession.GotItCountsLastCard | src/components/FlashcardSession.tsx:47-49 | as intended, "Got it" on the last card of a non-empty deck saves exactly the number of completed cards, which is at most the deck size |
| FlashcardSession.OneCardDeckSavesOne | src/components/FlashcardSession.tsx:47-49 | as intended, the same one-card run saves 1 of 1 and leaves the card marked |
| FlashcardSession.EmptyDeckSavesOneOfZero | src/components/FlashcardSession.tsx:19-49 | as written, a deck with no flashcards still offers "Got it", which marks card 0; pressing Next before the timer fires saves exactly one result, 1 of 0 |
| FlashcardSession.EmptyDeckGotItSavesOneOfZero | src/components/FlashcardSession.tsx:19-49 | with "Got it" as intended, the same empty deck saves 1 of 0 when the timer fires |
| FlashcardSession.EmptyDeckTimerSavesZeroOfZero | src/components/FlashcardSession.tsx:19-49 | as written, the same empty deck left to the timer saves exactly one result, 0 of 0, because the scheduled advance sees the completed set from before the mark |
| FlashcardSession.GotItTwiceSavesTwice | src/components/FlashcardSession.tsx:22-49 | on a one-card deck, "Got it" pressed twice before its timer fires schedules two advances, and each finishes the session: the run saves two results, 1 of 1 each |
| FlashcardSession.CompleteThenTimerSavesTwice | src/components/FlashcardSession.tsx:22-49 | as written, on a one-card deck, "Got it" then "Complete Session" before the timer fires saves two results: 1 of 1 from the button, then 0 of 1 from the timer |
| FlashcardSession.Session.constructor | src/components/FlashcardSession.tsx:15-20 | a session starts on card 0 with the question side up and nothing completed |
| FlashcardSession.Session.HandleNext | src/components/FlashcardSession.tsx:22-38 | before the last card: the next card, question side up; at the last card: the cursor stays and the session completes, saving `completedCards.size` of `totalCards` when there is a topic id; the completed set is untouched |
| FlashcardSession.Session.HandlePrevious | src/components/FlashcardSession.tsx:40-45 | at card 0 nothing changes; otherwise the previous card, question side up |
| FlashcardSession.Session.ToggleAnswer | src/components/FlashcardSession.tsx:95 | the side shown flips and the cursor stays |
| FlashcardSession.Session.HandleCardComplete | src/components/FlashcardSession.tsx:47-50 | as intended (see Findings): the current card joins the completed set, an advance from this card is scheduled, and the cursor and side are unchanged |
| FlashcardSession.Session.TimerFires | src/components/FlashcardSession.tsx:49 | the oldest scheduled `handleNext` runs from the card it captured; on the last card it saves the size of the completed set it captured |
| QuizSession.QuizItems | src/components/QuizSession.tsx:21 | the quiz is no longer than the questions, and a question is in it exactly when it is in the questions and has options |
| QuizSession.QuizItemsAppend | src/components/QuizSession.tsx:21 | the filter distributes over concatenation, so it keeps the original order |
| QuizSession.QuizItemsKeepsQuizItems | src/components/QuizSession.tsx:21 | a list of quiz items only is kept whole |
| QuizSession.QuizItemsDropsFlashcards | src/components/QuizSession.tsx:21 | a list of flashcards only yields an empty quiz |
| QuizSession.CountTrue | src/components/QuizSession.tsx:19 | the number of right answers is at most the number of answers |
| QuizSession.CountTrueAppend | src/components/QuizSession.tsx:31-36 | appending a verdict adds one to the count exactly when it is right |
| QuizSession.ScoreBounds | src/components/QuizSession.tsx:18-19 | `score <= |answers| <= totalQuestions` |
| QuizSession.CompletionOnlyWhenEmpty | src/components/QuizSession.tsx:63-78 | the completion screen shows exactly when the quiz has no questions |
| QuizSession.SubmitOncePerQuestion | src/components/QuizSession.tsx:30-38 | submit appends `selectedAnswer == answer` as the entry of the question on screen; the score goes up by one exactly when it is right; once the result is shown, Submit is no longer offered |
| QuizSession.FinalScoreCountsRightAnswers | src/components/QuizSession.tsx:45-55 | after the last question the saved score `score + (isCorrect ? 1 : 0)` is the number of right answers over the whole quiz, out of the quiz count, and the index is not incremented |
| QuizSession.StepKeepsInv | src/components/QuizSession.tsx:24-58 | every event keeps the invariant, never lowers the score, only appends to the answers, and a saved result counts the right answers |
| QuizSession.RunKeepsInv | src/components/QuizSession.tsx:24-58 | along any sequence of events: the invariant holds, the score never decreases, the answer log only grows, and every saved result has `0 <= score <= totalQuestions` |
| QuizSession.Session.constructor | src/components/QuizSession.tsx:15-19 | a session starts on question 0 with nothing selected, no result shown, score 0 and no answers |
| QuizSession.Session.HandleAnswerSelect | src/components/QuizSession.tsx:24-27 | while the result is shown nothing changes; otherwise only the selected answer is set |
| QuizSession.Session.HandleSubmitAnswer | src/components/QuizSession.tsx:29-40 | `isCorrect` iff the selected answer equals the question's answer; it is appended to the answers, the score goes up by one iff correct, the result is shown, and the advance is scheduled with this render's index and score |
| QuizSession.Session.TimerFires | src/components/QuizSession.tsx:40-57 | before the last question: next question, selection cleared, result hidden; at the last question: the index stays and the session completes, saving the final score out of the quiz count when there is a topic id |
| StudyMode.Questions | src/components/StudyMode.tsx:107-117 | the merged list has one entry per flashcard and per quiz item; the flashcards come first in generator order without options; each quiz item follows with options `[a, b, c, d]` and `correct_answer` as its answer |
| StudyMode.StoredMatchesStudied | src/components/StudyMode.tsx:67-91 | every stored flashcard row and quiz row has the new topic id and the same question, answer and options as the merged entry at its place |
| StudyMode.AnswerAmongOptions | src/components/StudyMode.tsx:112-116 | a quiz item has exactly four options, and its answer is among them exactly when `correct_answer` equals one of `option_a..d` |
| StudyMode.BuildStopsAtFirstFailure | src/components/StudyMode.tsx:25-100 | the calls run in the fixed order topic, flashcards, quiz, flashcard rows, quiz rows; the first failing step is the last call made; the build succeeds exactly when all five steps do, and otherwise throws that step's message |
| StudyMode.BuildResult | src/components/StudyMode.tsx:25-106 | a successful build returns the topic name, the text, the inserted topic's id and the merged questions; the topic is stored with the given description; both prompts name the topic and carry the text; the flashcard rows and quiz rows stored are those of the generated items under the new id |
| StudyMode.GenerateAndStoreContent | src/components/StudyMode.tsx:23-119 | the step-by-step build with early throws returns the same outcome and makes the same calls as `Build` |
| StudyMode.GuardRefusesOnlyWhitespace | src/components/StudyMode.tsx:122-128 | the start guard refuses exactly when the content and the topic are both entirely white space |
| StudyMode.Form.constructor | src/components/StudyMode.tsx:16-20 | no mode chosen, all fields empty, not loading |
| StudyMode.Form.ChooseMode | src/components/StudyMode.tsx:190-282 | the mode is set: to a mode by the two mode cards (lines 190 and 209), and back to none by the Back button (line 282) |
| StudyMode.Form.Edit | src/components/StudyMode.tsx:240-271 | the text fields take the typed values |
| StudyMode.Form.HandleStart | src/components/StudyMode.tsx:120-136 | blank content and topic: nothing starts; otherwise loading starts with the upload text and "Uploaded Content" in upload mode, else the description and the topic, and a stored description only in topic mode |
| StudyMode.Form.BuildSettles | src/components/StudyMode.tsx:136-146 | the build's outcome decides: success starts the chosen session with the built content, failure starts nothing; loading is off in both cases |
| Index.Render | src/pages/Index.tsx:39-76 | each screen shows its component; a session component shows only on the session screen with content, flashcards or quiz by session type; nothing shows only on a session screen without content |
| Index.ApplyKeepsInv | src/pages/Index.tsx:25-37 | every handler keeps "session screen implies content", so the page is never empty; only `handleStartStudy` touches the session type and content, setting both and showing the matching session |
| Index.RunKeepsInv | src/pages/Index.tsx:21-37 | along any sequence of handlers: never an empty page, the welcome screen never comes back, and chosen content is never cleared |
| Index.OfferedMoves | src/pages/Index.tsx:41-75 | following the handlers each screen offers: welcome to the form, the form to a session, a session to the dashboard or the form, the dashboard to the form |
| Index.SessionCompletedIdempotent | src/pages/Index.tsx:31-33 | completing twice is the same as completing once |
| Index.SessionsSeeTheirGroups | src/pages/Index.tsx:53-67 | for freshly built content, the flashcard session sees exactly the generated flashcards and the quiz session exactly the generated quiz items, each in generator order |
| Index.App.constructor | src/pages/Index.tsx:21-23 | the welcome screen, session type flashcards, no content |
| Index.App.HandleStart | src/pages/Index.tsx:43 | the study-mode screen |
| Index.App.HandleStartStudy | src/pages/Index.tsx:25-29 | session type, content and the session screen together; the matching session component shows |
| Index.App.HandleSessionComplete | src/pages/Index.tsx:31-33 | the dashboard, with session type and content unchanged |
| Index.App.HandleBackToStudy | src/pages/Index.tsx:35-37 | the study-mode screen, with session type and content unchanged |

## Left out

- Network and storage are not modelled. These are the Supabase inserts and function invocations, the `fetch` to the completion service, and `req.json()`. Each is a parameter giving its outcome: a value or an error.
- `JSON.parse` is a parameter of `GenerateContent.Serve` (a parse function giving a value or a message). The shape of the generated JSON is not checked; the generator's records are taken as already shaped.
- The `data.choices[0].message.content` access is folded into the reply outcome. A reply without that field is an error.
- `saveSessionResult` (src/components/SessionTracker.tsx) is not modelled. The sessions emit the result they would save. Its errors are logged and swallowed, so they cannot change the session.
- The `setTimeout` delays (300 ms, 2000 ms, 1500 ms) are not modelled as time. A scheduled callback runs as a later `TimerFired` event, in scheduling order. The quiz's 1500 ms wait before `onComplete` is folded into the same event.
- Unmounting is not modelled as such. A session run does not stop when the session completes or leaves the screen: a callback scheduled before still fires as a later `TimerFired`, and any result it saves is in the run's output. Which of those results belong to a session still on screen is not tracked.
- A late `onComplete` moves the page to the dashboard from any screen. For example, submit the last quiz answer and press "Back to Study" within 3.5 s: the 2000 ms timer still saves the result, and 1500 ms later it calls `onComplete` (src/components/QuizSession.tsx:40-55). That moves the page from the study-mode form to the dashboard (src/pages/Index.tsx:31-33). `Index.Apply` runs this move for `SessionCompleted` on any screen, but `Index.OfferedMoves` lists only the moves the shown view's own handlers make, so it does not include this one.
- The `temperature` setting, the CORS headers and the HTTP headers are constants outside the model.
- Progress percentages and `Math.round` are floating-point display and are left out, as are the score header text, toasts, console logging, icons and styling.
- The welcome screen and the dashboard are static markup with hard-coded numbers. They are reduced to the screens they are and the handlers they are given.
- Strings are sequences of characters, while JavaScript strings are UTF-16 code units. The two agree except on text with unpaired surrogates, which is not modelled.
- FlashcardSession.StepKeepsInv: proved for the corrected "Got it" the model runs; the code as written is covered by `FlashcardSession.StepAsWrittenKeepsInv`.
- FlashcardSession.RunKeepsInv: proved for the corrected "Got it" the model runs; the code as written is covered by `FlashcardSession.RunAsWrittenKeepsInv`.
- FlashcardSession.RunKeepsInv: proves `score <= totalQuestions` only for a non-empty deck, and the same holds for `FlashcardSession.RunAsWrittenKeepsInv`. A deck with no flashcards still shows the card and its "Got it" button (src/components/FlashcardSession.tsx:132-140), which marks card 0. `handleNext` then completes at once, because card 0 is not below `totalCards - 1 = -1`. Pressed from the Next button after the mark, it saves `completedCards.size = 1` of `totalCards = 0` (`FlashcardSession.EmptyDeckSavesOneOfZero`). The model's corrected timer saves the same (`FlashcardSession.EmptyDeckGotItSavesOneOfZero`). The timer as written sees the set from before the mark and saves 0 of 0 (`FlashcardSession.EmptyDeckTimerSavesZeroOfZero`). `Slots(totalCards)` is the deck size, or 1 for an empty deck, and it is the bound the invariant can state for every deck. The model keeps this behaviour because the code does not say what an empty deck should do.
- FlashcardSession.GotItCountsLastCard: requires a non-empty deck; on an empty deck the count is 1 of 0, as above.
- FlashcardSession.RunKeepsInv: bounds every saved result but not how many a run saves. On the last card the session can finish more than once, saving a result and calling `onComplete` each time. "Got it" stays on screen until its 300 ms timer fires (src/components/FlashcardSession.tsx:132-140), so it can be pressed again. "Complete Session" can also be pressed while an advance is pending. Each such `handleNext` saves and completes (src/components/FlashcardSession.tsx:22-37). `FlashcardSession.GotItTwiceSavesTwice` and `FlashcardSession.CompleteThenTimerSavesTwice` show two saves from one run. The model keeps this behaviour: the code has no guard against a second completion, and the model does not add one.
- FlashcardSession.Session.HandleCardComplete: schedules an advance that sees the card just marked, as intended, where the code schedules one that sees the completed set from before the mark (`FlashcardSession.CardCompleteAsWritten`).
- StudyMode.Form.HandleStart: requires that nothing is loading. While loading, the form is replaced by the loading screen (src/components/StudyMode.tsx:150), so the start buttons cannot be pressed.
- QuizSession.Session.HandleSubmitAnswer: requires `CanSubmit`, because the Submit button is only drawn while an answer is selected and no result is shown (src/components/QuizSession.tsx:152-162).

## Findings

| source | as written | input that shows it | evidently intended | confidence | as-written member | corrected member |
|---|---|---|---|---|---|---|
| src/components/FlashcardSession.tsx:47-49 | "Got it" marks the card, then schedules `handleNext` from the same render. On the last card, `handleNext` saves `completedCards.size` from before the mark, so the card just marked is not counted | a deck with one flashcard and a topic id: reveal the answer, press "Got it", let the timer fire. The card is marked, but the saved score is 0 of 1 | the saved score counts the card just marked, as the quiz does with `score + (isCorrect ? 1 : 0)` (src/components/QuizSession.tsx:51) | high, not executed | FlashcardSession.OneCardDeckSavesZero | FlashcardSession.GotItCountsLastCard |

The flashcard model runs the corrected "Got it" (`FlashcardSession.CardComplete`).
The code as it stands is `FlashcardSession.CardCompleteAsWritten`.
`FlashcardSession.GotItOnLastCardLeavesItOut` states its general effect.
`FlashcardSession.OneCardDeckSavesOne` shows the same one-card run giving 1 of 1 under the correction.
