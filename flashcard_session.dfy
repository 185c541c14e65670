/** The flashcard session: one card at a time, a question side and an answer
    side, moving forward and back through the flashcards of the study content
    and reporting a result when the last card is passed.

    React hands each event handler the state of the render that created it.
    The handlers here run one after another on the current state, except the
    advance that "Got it" schedules 300 ms later: it is kept as a pending
    record of the render it came from and runs when its timer fires. */
module FlashcardSession {
  import opened Content

  /** `content.questions.filter(q => !q.options)`. */
  function FlashcardItems(qs: seq<Question>): (r: seq<Question>)
    ensures |r| <= |qs|
    ensures forall q :: q in r <==> q in qs && IsFlashcard(q)
  {
    if qs == [] then []
    else if IsFlashcard(qs[0]) then [qs[0]] + FlashcardItems(qs[1..])
    else FlashcardItems(qs[1..])
  }

  /** The filter keeps the original order: it distributes over concatenation. */
  lemma {:induction false} FlashcardItemsAppend(a: seq<Question>, b: seq<Question>)
    ensures FlashcardItems(a + b) == FlashcardItems(a) + FlashcardItems(b)
  {
    if a == [] {
      assert a + b == b;
    } else {
      assert (a + b)[1..] == a[1..] + b;
      FlashcardItemsAppend(a[1..], b);
    }
  }

  /** A list of flashcards only is kept whole. */
  lemma {:induction false} FlashcardItemsKeepsFlashcards(qs: seq<Question>)
    requires forall i :: 0 <= i < |qs| ==> IsFlashcard(qs[i])
    ensures FlashcardItems(qs) == qs
  {
    if qs != [] {
      FlashcardItemsKeepsFlashcards(qs[1..]);
    }
  }

  /** A list of quiz items only yields no flashcards. */
  lemma {:induction false} FlashcardItemsDropsQuizItems(qs: seq<Question>)
    requires forall i :: 0 <= i < |qs| ==> !IsFlashcard(qs[i])
    ensures FlashcardItems(qs) == []
  {
    if qs != [] {
      FlashcardItemsDropsQuizItems(qs[1..]);
    }
  }

  /** `totalCards`. */
  function Total(c: StudyContent): nat {
    |FlashcardItems(c.questions)|
  }

  /** The positions the cursor can take: with no flashcards it rests at 0. */
  function Slots(total: nat): nat {
    if total == 0 then 1 else total
  }

  /** The advance that "Got it" schedules: `handleNext` as seen from the render
      that scheduled it, with that render's card index and completed set. */
  datatype PendingNext = PendingNext(card: nat, completed: set<nat>)

  /** The state hooks `currentCard`, `showAnswer` and `completedCards`, and the
      scheduled advances that have not run yet, oldest first. */
  datatype Deck = Deck(
    currentCard: nat,
    showAnswer: bool,
    completedCards: set<nat>,
    pending: seq<PendingNext>)

  const Start: Deck := Deck(0, false, {}, [])

  /** `handleNext` run with the given card index and completed set. */
  function NextFrom(d: Deck, card: nat, completed: set<nat>, c: StudyContent): (Deck, Signal) {
    if card < Total(c) - 1 then (d.(currentCard := card + 1, showAnswer := false), Continue)
    else (d, Complete(Report(c, Flashcards, |completed|, Total(c))))
  }

  /** The Next / Complete Session button. */
  function Next(d: Deck, c: StudyContent): (Deck, Signal) {
    NextFrom(d, d.currentCard, d.completedCards, c)
  }

  /** `handlePrevious`. */
  function Previous(d: Deck): Deck {
    if d.currentCard > 0 then d.(currentCard := d.currentCard - 1, showAnswer := false) else d
  }

  /** `setShowAnswer(!showAnswer)`, from the card and from the flip button. */
  function Flip(d: Deck): Deck {
    d.(showAnswer := !d.showAnswer)
  }

  /** `handleCardComplete` as written: mark the card, and schedule an advance
      that still sees the completed set from before the mark. */
  function CardCompleteAsWritten(d: Deck): (r: Deck)
    ensures r.completedCards == d.completedCards + {d.currentCard}
    ensures r.currentCard == d.currentCard && r.showAnswer == d.showAnswer
    ensures |r.pending| == |d.pending| + 1 && r.pending[..|d.pending|] == d.pending
    ensures r.pending[|d.pending|] == PendingNext(d.currentCard, d.completedCards)
  {
    d.(completedCards := d.completedCards + {d.currentCard},
       pending := d.pending + [PendingNext(d.currentCard, d.completedCards)])
  }

  /** `handleCardComplete` as intended, and as the rest of this model runs
      it: mark the card, and schedule an advance that sees the completed set
      including the card just marked. */
  function CardComplete(d: Deck): Deck {
    var completed := d.completedCards + {d.currentCard};
    d.(completedCards := completed, pending := d.pending + [PendingNext(d.currentCard, completed)])
  }

  /** The oldest scheduled advance runs. */
  function FireTimer(d: Deck, c: StudyContent): (Deck, Signal)
    requires d.pending != []
  {
    NextFrom(d.(pending := d.pending[1..]), d.pending[0].card, d.pending[0].completed, c)
  }

  datatype Event = NextPressed | PreviousPressed | Flipped | GotIt | TimerFired

  function Step(d: Deck, e: Event, c: StudyContent): (Deck, Signal) {
    match e
    case NextPressed => Next(d, c)
    case PreviousPressed => (Previous(d), Continue)
    case Flipped => (Flip(d), Continue)
    case GotIt => (CardComplete(d), Continue)
    case TimerFired => if d.pending == [] then (d, Continue) else FireTimer(d, c)
  }

  /** A sequence of events from state `d`: the final state and every session
      result saved on the way. */
  function Run(d: Deck, es: seq<Event>, c: StudyContent): (Deck, seq<SessionResult>)
    decreases |es|
  {
    if es == [] then (d, [])
    else
      var step := Step(d, es[0], c);
      var rest := Run(step.0, es[1..], c);
      (rest.0, Saved(step.1) + rest.1)
  }

  /** The cursor stays on a card, completed cards are cards, and every
      scheduled advance starts from a card and sees a subset of the completed
      cards. */
  ghost predicate Inv(d: Deck, total: nat) {
    && d.currentCard < Slots(total)
    && (forall k :: k in d.completedCards ==> k < Slots(total))
    && (forall i :: 0 <= i < |d.pending| ==>
          d.pending[i].card < Slots(total) && d.pending[i].completed <= d.completedCards)
  }

  /** A set of card indices below `k` has at most `k` members. */
  lemma {:induction false} BoundedSetSize(s: set<nat>, k: nat)
    requires forall x :: x in s ==> x < k
    ensures |s| <= k
  {
    if k == 0 {
      assert s == {};
    } else {
      BoundedSetSize(s - {k - 1}, k - 1);
    }
  }

  /** A result saved from a valid state counts at most one card per position. */
  ghost predicate WellScored(r: SessionResult, total: nat) {
    r.sessionType == Flashcards && r.totalQuestions == total && 0 <= r.score <= Slots(total)
  }

  /** Every event keeps the invariant, and a result it saves scores at most
      the number of cards (one, for an empty deck). */
  lemma StepKeepsInv(d: Deck, e: Event, c: StudyContent)
    requires Inv(d, Total(c))
    ensures Inv(Step(d, e, c).0, Total(c))
    ensures forall r :: r in Saved(Step(d, e, c).1) ==> WellScored(r, Total(c))
  {
    if e == NextPressed {
      BoundedSetSize(d.completedCards, Slots(Total(c)));
    } else if e == TimerFired && d.pending != [] {
      assert d.pending[0].completed <= d.completedCards;
      BoundedSetSize(d.pending[0].completed, Slots(Total(c)));
    }
  }

  /** From a valid state, any sequence of events keeps the invariant, and
      every saved result has `score <= totalQuestions` whenever there are
      flashcards at all. */
  lemma {:induction false} RunKeepsInv(d: Deck, es: seq<Event>, c: StudyContent)
    requires Inv(d, Total(c))
    ensures Inv(Run(d, es, c).0, Total(c))
    ensures forall r :: r in Run(d, es, c).1 ==> WellScored(r, Total(c))
    ensures Total(c) > 0 ==> forall r :: r in Run(d, es, c).1 ==> r.score <= r.totalQuestions
    decreases |es|
  {
    if es != [] {
      StepKeepsInv(d, es[0], c);
      RunKeepsInv(Step(d, es[0], c).0, es[1..], c);
    }
  }

  /** One event with "Got it" as the code stands. */
  function StepAsWritten(d: Deck, e: Event, c: StudyContent): (Deck, Signal) {
    if e == GotIt then (CardCompleteAsWritten(d), Continue) else Step(d, e, c)
  }

  function RunAsWritten(d: Deck, es: seq<Event>, c: StudyContent): (Deck, seq<SessionResult>)
    decreases |es|
  {
    if es == [] then (d, [])
    else
      var step := StepAsWritten(d, es[0], c);
      var rest := RunAsWritten(step.0, es[1..], c);
      (rest.0, Saved(step.1) + rest.1)
  }

  /** The code as it stands keeps the same invariant: its scheduled advance
      sees an older, hence smaller, completed set. */
  lemma StepAsWrittenKeepsInv(d: Deck, e: Event, c: StudyContent)
    requires Inv(d, Total(c))
    ensures Inv(StepAsWritten(d, e, c).0, Total(c))
    ensures forall r :: r in Saved(StepAsWritten(d, e, c).1) ==> WellScored(r, Total(c))
  {
    if e != GotIt {
      StepKeepsInv(d, e, c);
    }
  }

  /** As written, too, any sequence of events keeps the cursor on a card, and
      every saved result has `score <= totalQuestions` whenever there are
      flashcards at all. */
  lemma {:induction false} RunAsWrittenKeepsInv(d: Deck, es: seq<Event>, c: StudyContent)
    requires Inv(d, Total(c))
    ensures Inv(RunAsWritten(d, es, c).0, Total(c))
    ensures forall r :: r in RunAsWritten(d, es, c).1 ==> WellScored(r, Total(c))
    ensures Total(c) > 0 ==> forall r :: r in RunAsWritten(d, es, c).1 ==> r.score <= r.totalQuestions
    decreases |es|
  {
    if es != [] {
      StepAsWrittenKeepsInv(d, es[0], c);
      RunAsWrittenKeepsInv(StepAsWritten(d, es[0], c).0, es[1..], c);
    }
  }

  /** Flipping twice shows the same side again and never moves the cursor. */
  lemma FlipTwice(d: Deck)
    ensures Flip(Flip(d)) == d
    ensures Flip(d).currentCard == d.currentCard && Flip(d).showAnswer != d.showAnswer
  {
  }

  /** Marking a card twice marks it once. */
  lemma CardCompleteMarksOnce(d: Deck)
    ensures CardComplete(CardComplete(d)).completedCards == CardComplete(d).completedCards
    ensures CardComplete(d).completedCards == d.completedCards + {d.currentCard}
  {
  }

  /** As written, "Got it" on the last card saves a score that leaves out the
      card it has just marked: the scheduled `handleNext` reads the completed
      set of the render before the mark. */
  lemma GotItOnLastCardLeavesItOut(d: Deck, c: StudyContent)
    requires Inv(d, Total(c)) && Total(c) > 0 && d.currentCard == Total(c) - 1
    requires d.currentCard !in d.completedCards && d.pending == [] && HasTopicId(c)
    ensures FireTimer(CardCompleteAsWritten(d), c).1
            == Complete(Some(SessionResult(c.topicId.value, Flashcards,
                                           |CardCompleteAsWritten(d).completedCards| - 1, Total(c))))
  {
  }

  /** As written, on a one-card deck: reveal the answer, press "Got it", let
      the timer fire. The card is marked, yet the saved score is 0 of 1. */
  lemma OneCardDeckSavesZero()
    ensures var c := StudyContent("Topic", "Text", Some("id"), [Question("Q", "A", None)]);
            RunAsWritten(Start, [Flipped, GotIt, TimerFired], c)
            == (Deck(0, true, {0}, []), [SessionResult("id", Flashcards, 0, 1)])
  {
    var c := StudyContent("Topic", "Text", Some("id"), [Question("Q", "A", None)]);
    FlashcardItemsKeepsFlashcards(c.questions);
    assert Total(c) == 1 && HasTopicId(c);
    var d1 := Flip(Start);
    assert d1 == Deck(0, true, {}, []);
    var marked: set<nat> := {0};
    assert d1.completedCards + {d1.currentCard} == marked;
    var d2 := CardCompleteAsWritten(d1);
    assert d2.completedCards == marked && d2.pending == [PendingNext(0, {})];
    var d3 := Deck(0, true, {0}, []);
    var saved := SessionResult("id", Flashcards, 0, 1);
    assert d2.pending[1..] == [] && |d2.pending[0].completed| == 0;
    assert StepAsWritten(d2, TimerFired, c) == (d3, Complete(Some(saved)));
    var e3: seq<Event> := [TimerFired];
    assert e3[0] == TimerFired && e3[1..] == [];
    assert RunAsWritten(d3, e3[1..], c) == (d3, []);
    assert Saved(StepAsWritten(d2, e3[0], c).1) == [saved];
    assert RunAsWritten(d2, e3, c).0 == d3;
    assert RunAsWritten(d2, e3, c).1 == [saved];
    var e2: seq<Event> := [GotIt, TimerFired];
    assert e2[0] == GotIt && e2[1..] == e3;
    assert StepAsWritten(d1, e2[0], c) == (d2, Continue);
    assert RunAsWritten(d1, e2, c).0 == d3;
    assert RunAsWritten(d1, e2, c).1 == [saved];
    var e1: seq<Event> := [Flipped, GotIt, TimerFired];
    assert e1[0] == Flipped && e1[1..] == e2;
  }

  /** With "Got it" as intended, the last card counts: the saved score is
      exactly the number of completed cards, which is within the deck. */
  lemma GotItCountsLastCard(d: Deck, c: StudyContent)
    requires Inv(d, Total(c)) && Total(c) > 0 && d.currentCard == Total(c) - 1
    requires d.pending == [] && HasTopicId(c)
    ensures FireTimer(CardComplete(d), c).1
            == Complete(Some(SessionResult(c.topicId.value, Flashcards,
                                           |CardComplete(d).completedCards|, Total(c))))
    ensures |CardComplete(d).completedCards| <= Total(c)
  {
    BoundedSetSize(CardComplete(d).completedCards, Total(c));
  }

  /** The same one-card deck run through the model: the saved score is 1 of 1. */
  lemma OneCardDeckSavesOne()
    ensures var c := StudyContent("Topic", "Text", Some("id"), [Question("Q", "A", None)]);
            Run(Start, [Flipped, GotIt, TimerFired], c)
            == (Deck(0, true, {0}, []), [SessionResult("id", Flashcards, 1, 1)])
  {
    var c := StudyContent("Topic", "Text", Some("id"), [Question("Q", "A", None)]);
    FlashcardItemsKeepsFlashcards(c.questions);
    assert Total(c) == 1 && HasTopicId(c);
    var d1 := Flip(Start);
    assert d1 == Deck(0, true, {}, []);
    var marked: set<nat> := {0};
    assert d1.completedCards + {d1.currentCard} == marked;
    var d2 := CardComplete(d1);
    assert d2.completedCards == marked && d2.pending == [PendingNext(0, marked)];
    var d3 := Deck(0, true, {0}, []);
    var saved := SessionResult("id", Flashcards, 1, 1);
    assert d2.pending[1..] == [] && |d2.pending[0].completed| == 1;
    assert Step(d2, TimerFired, c) == (d3, Complete(Some(saved)));
    var e3: seq<Event> := [TimerFired];
    assert e3[0] == TimerFired && e3[1..] == [];
    assert Run(d3, e3[1..], c) == (d3, []);
    assert Saved(Step(d2, e3[0], c).1) == [saved];
    assert Run(d2, e3, c).0 == d3;
    assert Run(d2, e3, c).1 == [saved];
    var e2: seq<Event> := [GotIt, TimerFired];
    assert e2[0] == GotIt && e2[1..] == e3;
    assert Step(d1, e2[0], c) == (d2, Continue);
    assert Run(d1, e2, c).0 == d3;
    assert Run(d1, e2, c).1 == [saved];
    var e1: seq<Event> := [Flipped, GotIt, TimerFired];
    assert e1[0] == Flipped && e1[1..] == e2;
  }

  /** As written, on an empty deck: the card area still offers "Got it", which
      marks card 0; pressing the Next button before the timer fires completes
      the session (card 0 is not below `totalCards - 1 = -1`) and saves a
      score of 1 out of 0 cards. */
  lemma EmptyDeckSavesOneOfZero()
    ensures var c := StudyContent("Topic", "Text", Some("id"), []);
            RunAsWritten(Start, [Flipped, GotIt, NextPressed], c)
            == (Deck(0, true, {0}, [PendingNext(0, {})]), [SessionResult("id", Flashcards, 1, 0)])
  {
    var c := StudyContent("Topic", "Text", Some("id"), []);
    assert Total(c) == 0 && HasTopicId(c);
    var d1 := Flip(Start);
    assert d1 == Deck(0, true, {}, []);
    var marked: set<nat> := {0};
    assert d1.completedCards + {d1.currentCard} == marked;
    var d2 := CardCompleteAsWritten(d1);
    assert d2 == Deck(0, true, marked, [PendingNext(0, {})]);
    var saved := SessionResult("id", Flashcards, 1, 0);
    assert |marked| == 1;
    assert StepAsWritten(d2, NextPressed, c) == (d2, Complete(Some(saved)));
    var e3: seq<Event> := [NextPressed];
    assert e3[0] == NextPressed && e3[1..] == [];
    assert RunAsWritten(d2, e3[1..], c) == (d2, []);
    assert Saved(StepAsWritten(d2, e3[0], c).1) == [saved];
    assert RunAsWritten(d2, e3, c).0 == d2;
    assert RunAsWritten(d2, e3, c).1 == [saved];
    var e2: seq<Event> := [GotIt, NextPressed];
    assert e2[0] == GotIt && e2[1..] == e3;
    assert StepAsWritten(d1, e2[0], c) == (d2, Continue);
    assert RunAsWritten(d1, e2, c).0 == d2;
    assert RunAsWritten(d1, e2, c).1 == [saved];
    var e1: seq<Event> := [Flipped, GotIt, NextPressed];
    assert e1[0] == Flipped && e1[1..] == e2;
  }

  /** The empty deck under the model's "Got it": the scheduled advance, too,
      saves 1 out of 0 cards. Only an empty deck can do this: with at least
      one card, every saved score is within the deck (RunKeepsInv). */
  lemma EmptyDeckGotItSavesOneOfZero()
    ensures var c := StudyContent("Topic", "Text", Some("id"), []);
            Run(Start, [Flipped, GotIt, TimerFired], c)
            == (Deck(0, true, {0}, []), [SessionResult("id", Flashcards, 1, 0)])
  {
    var c := StudyContent("Topic", "Text", Some("id"), []);
    assert Total(c) == 0 && HasTopicId(c);
    var d1 := Flip(Start);
    assert d1 == Deck(0, true, {}, []);
    var marked: set<nat> := {0};
    assert d1.completedCards + {d1.currentCard} == marked;
    var d2 := CardComplete(d1);
    assert d2.completedCards == marked && d2.pending == [PendingNext(0, marked)];
    var d3 := Deck(0, true, {0}, []);
    var saved := SessionResult("id", Flashcards, 1, 0);
    assert d2.pending[1..] == [] && |d2.pending[0].completed| == 1;
    assert Step(d2, TimerFired, c) == (d3, Complete(Some(saved)));
    var e3: seq<Event> := [TimerFired];
    assert e3[0] == TimerFired && e3[1..] == [];
    assert Run(d3, e3[1..], c) == (d3, []);
    assert Saved(Step(d2, e3[0], c).1) == [saved];
    assert Run(d2, e3, c).0 == d3;
    assert Run(d2, e3, c).1 == [saved];
    var e2: seq<Event> := [GotIt, TimerFired];
    assert e2[0] == GotIt && e2[1..] == e3;
    assert Step(d1, e2[0], c) == (d2, Continue);
    assert Run(d1, e2, c).0 == d3;
    assert Run(d1, e2, c).1 == [saved];
    var e1: seq<Event> := [Flipped, GotIt, TimerFired];
    assert e1[0] == Flipped && e1[1..] == e2;
  }

  /** As written, the same empty deck left to the timer: the scheduled
      advance sees the completed set from before the mark and saves 0 of 0,
      so the 1 of 0 above comes from the Next button. */
  lemma EmptyDeckTimerSavesZeroOfZero()
    ensures var c := StudyContent("Topic", "Text", Some("id"), []);
            RunAsWritten(Start, [Flipped, GotIt, TimerFired], c)
            == (Deck(0, true, {0}, []), [SessionResult("id", Flashcards, 0, 0)])
  {
    var c := StudyContent("Topic", "Text", Some("id"), []);
    assert Total(c) == 0 && HasTopicId(c);
    var d1 := Flip(Start);
    assert d1 == Deck(0, true, {}, []);
    var marked: set<nat> := {0};
    assert d1.completedCards + {d1.currentCard} == marked;
    var d2 := Deck(0, true, marked, [PendingNext(0, {})]);
    assert StepAsWritten(d1, GotIt, c) == (d2, Continue);
    var d3 := Deck(0, true, marked, []);
    var saved := SessionResult("id", Flashcards, 0, 0);
    assert d2.pending[1..] == [] && |d2.pending[0].completed| == 0;
    assert StepAsWritten(d2, TimerFired, c) == (d3, Complete(Some(saved)));
    RunAsWrittenCons(d2, TimerFired, [], c);
    assert [TimerFired] + [] == [TimerFired];
    assert RunAsWritten(d3, [], c) == (d3, []);
    assert Saved(Complete(Some(saved))) == [saved] && [saved] + [] == [saved];
    assert RunAsWritten(d2, [TimerFired], c) == (d3, [saved]);
    RunAsWrittenCons(d1, GotIt, [TimerFired], c);
    assert [GotIt] + [TimerFired] == [GotIt, TimerFired];
    assert Saved(Continue) == [] && [] + [saved] == [saved];
    assert RunAsWritten(d1, [GotIt, TimerFired], c) == (d3, [saved]);
    RunAsWrittenCons(Start, Flipped, [GotIt, TimerFired], c);
    assert [Flipped] + [GotIt, TimerFired] == [Flipped, GotIt, TimerFired];
  }

  /** One step of a run, unfolded. */
  lemma RunCons(d: Deck, e: Event, rest: seq<Event>, c: StudyContent)
    ensures Run(d, [e] + rest, c)
            == (Run(Step(d, e, c).0, rest, c).0, Saved(Step(d, e, c).1) + Run(Step(d, e, c).0, rest, c).1)
  {
    assert ([e] + rest)[0] == e && ([e] + rest)[1..] == rest;
  }

  /** One step of a run with "Got it" as written, unfolded. */
  lemma RunAsWrittenCons(d: Deck, e: Event, rest: seq<Event>, c: StudyContent)
    ensures RunAsWritten(d, [e] + rest, c)
            == (RunAsWritten(StepAsWritten(d, e, c).0, rest, c).0,
                Saved(StepAsWritten(d, e, c).1) + RunAsWritten(StepAsWritten(d, e, c).0, rest, c).1)
  {
    assert ([e] + rest)[0] == e && ([e] + rest)[1..] == rest;
  }

  /** On a one-card deck, two advances scheduled from the marked card each
      finish the session when their timers fire. */
  lemma TwoPendingAdvancesSaveTwice(c: StudyContent)
    requires Total(c) == 1 && HasTopicId(c)
    ensures var p := PendingNext(0, {0});
            var r := SessionResult(c.topicId.value, Flashcards, 1, 1);
            Run(Deck(0, true, {0}, [p, p]), [TimerFired, TimerFired], c) == (Deck(0, true, {0}, []), [r, r])
  {
    var marked: set<nat> := {0};
    assert |marked| == 1;
    var p := PendingNext(0, marked);
    var d2 := Deck(0, true, marked, [p]);
    var d3 := Deck(0, true, marked, [p, p]);
    var d4 := Deck(0, true, marked, []);
    var saved := SessionResult(c.topicId.value, Flashcards, 1, 1);
    assert d3.pending[1..] == [p] && d2.pending[1..] == [];
    assert Step(d3, TimerFired, c) == (d2, Complete(Some(saved)));
    assert Step(d2, TimerFired, c) == (d4, Complete(Some(saved)));
    RunCons(d2, TimerFired, [], c);
    assert [TimerFired] + [] == [TimerFired];
    assert Run(d4, [], c) == (d4, []);
    assert Saved(Complete(Some(saved))) == [saved] && [saved] + [] == [saved];
    assert Run(d2, [TimerFired], c) == (d4, [saved]);
    RunCons(d3, TimerFired, [TimerFired], c);
    assert [TimerFired] + [TimerFired] == [TimerFired, TimerFired];
    assert [saved] + [saved] == [saved, saved];
  }

  /** "Got it" stays on screen until its timer fires, so on a one-card deck it
      can be pressed twice: each scheduled advance finishes the session, and
      the run saves two results. */
  lemma GotItTwiceSavesTwice()
    ensures var c := StudyContent("Topic", "Text", Some("id"), [Question("Q", "A", None)]);
            Run(Start, [Flipped, GotIt, GotIt, TimerFired, TimerFired], c)
            == (Deck(0, true, {0}, []),
                [SessionResult("id", Flashcards, 1, 1), SessionResult("id", Flashcards, 1, 1)])
  {
    var c := StudyContent("Topic", "Text", Some("id"), [Question("Q", "A", None)]);
    FlashcardItemsKeepsFlashcards(c.questions);
    assert Total(c) == 1 && HasTopicId(c);
    var d1 := Flip(Start);
    assert d1 == Deck(0, true, {}, []);
    var marked: set<nat> := {0};
    var p := PendingNext(0, marked);
    var d2 := Deck(0, true, marked, [p]);
    var d3 := Deck(0, true, marked, [p, p]);
    var d4 := Deck(0, true, marked, []);
    var saved := SessionResult("id", Flashcards, 1, 1);
    assert Step(d1, GotIt, c) == (d2, Continue) by {
      assert d1.completedCards + {d1.currentCard} == marked;
      assert CardComplete(d1).pending == [] + [p];
      assert CardComplete(d1) == d2;
    }
    assert Step(d2, GotIt, c) == (d3, Continue) by {
      assert d2.completedCards + {d2.currentCard} == marked;
      assert CardComplete(d2).pending == [p] + [p];
      assert CardComplete(d2) == d3;
    }
    TwoPendingAdvancesSaveTwice(c);
    assert Run(d3, [TimerFired, TimerFired], c) == (d4, [saved, saved]);
    RunCons(d2, GotIt, [TimerFired, TimerFired], c);
    assert [GotIt] + [TimerFired, TimerFired] == [GotIt, TimerFired, TimerFired];
    assert Saved(Continue) == [] && [] + [saved, saved] == [saved, saved];
    assert Run(d2, [GotIt, TimerFired, TimerFired], c) == (d4, [saved, saved]);
    RunCons(d1, GotIt, [GotIt, TimerFired, TimerFired], c);
    assert [GotIt] + [GotIt, TimerFired, TimerFired] == [GotIt, GotIt, TimerFired, TimerFired];
    assert Run(d1, [GotIt, GotIt, TimerFired, TimerFired], c) == (d4, [saved, saved]);
    RunCons(Start, Flipped, [GotIt, GotIt, TimerFired, TimerFired], c);
    assert [Flipped] + [GotIt, GotIt, TimerFired, TimerFired] == [Flipped, GotIt, GotIt, TimerFired, TimerFired];
  }

  /** As written, on a one-card deck: "Got it" and then "Complete Session"
      before the timer fires. The button saves 1 of 1, and the timer's
      advance, which still sees the completed set from before the mark,
      finishes the session a second time with 0 of 1. */
  lemma CompleteThenTimerSavesTwice()
    ensures var c := StudyContent("Topic", "Text", Some("id"), [Question("Q", "A", None)]);
            RunAsWritten(Start, [Flipped, GotIt, NextPressed, TimerFired], c)
            == (Deck(0, true, {0}, []),
                [SessionResult("id", Flashcards, 1, 1), SessionResult("id", Flashcards, 0, 1)])
  {
    var c := StudyContent("Topic", "Text", Some("id"), [Question("Q", "A", None)]);
    FlashcardItemsKeepsFlashcards(c.questions);
    assert Total(c) == 1 && HasTopicId(c);
    var d1 := Flip(Start);
    assert d1 == Deck(0, true, {}, []);
    var marked: set<nat> := {0};
    assert d1.completedCards + {d1.currentCard} == marked && |marked| == 1;
    var d2 := Deck(0, true, marked, [PendingNext(0, {})]);
    var d3 := Deck(0, true, marked, []);
    assert StepAsWritten(d1, GotIt, c) == (d2, Continue);
    assert StepAsWritten(d2, NextPressed, c) == (d2, Complete(Some(SessionResult("id", Flashcards, 1, 1))));
    assert d2.pending[1..] == [] && |d2.pending[0].completed| == 0;
    assert StepAsWritten(d2, TimerFired, c) == (d3, Complete(Some(SessionResult("id", Flashcards, 0, 1))));
    var first := SessionResult("id", Flashcards, 1, 1);
    var second := SessionResult("id", Flashcards, 0, 1);
    RunAsWrittenCons(d2, TimerFired, [], c);
    assert [TimerFired] + [] == [TimerFired];
    assert RunAsWritten(d3, [], c) == (d3, []);
    assert Saved(Complete(Some(second))) == [second] && [second] + [] == [second];
    assert RunAsWritten(d2, [TimerFired], c) == (d3, [second]);
    RunAsWrittenCons(d2, NextPressed, [TimerFired], c);
    assert [NextPressed] + [TimerFired] == [NextPressed, TimerFired];
    assert Saved(Complete(Some(first))) == [first] && [first] + [second] == [first, second];
    assert RunAsWritten(d2, [NextPressed, TimerFired], c) == (d3, [first, second]);
    RunAsWrittenCons(d1, GotIt, [NextPressed, TimerFired], c);
    assert [GotIt] + [NextPressed, TimerFired] == [GotIt, NextPressed, TimerFired];
    assert Saved(Continue) == [] && [] + [first, second] == [first, second];
    assert RunAsWritten(d1, [GotIt, NextPressed, TimerFired], c) == (d3, [first, second]);
    RunAsWrittenCons(Start, Flipped, [GotIt, NextPressed, TimerFired], c);
    assert [Flipped] + [GotIt, NextPressed, TimerFired] == [Flipped, GotIt, NextPressed, TimerFired];
  }

  /** The component instance: its state hooks, the scheduled advances, and
      the content it was mounted with. */
  class Session {
    const content: StudyContent
    const totalCards: nat
    var currentCard: nat
    var showAnswer: bool
    var completedCards: set<nat>
    var pending: seq<PendingNext>

    function State(): Deck
      reads this
    {
      Deck(currentCard, showAnswer, completedCards, pending)
    }

    ghost predicate Valid()
      reads this
    {
      totalCards == Total(content) && Inv(State(), totalCards)
    }

    /** Mounting: the first card, question side up, nothing completed. */
    constructor (content: StudyContent)
      ensures Valid() && this.content == content && State() == Start
    {
      this.content := content;
      totalCards := |FlashcardItems(content.questions)|;
      currentCard, showAnswer, completedCards, pending := 0, false, {}, [];
    }

    /** `handleNext` from the button: the next card, question side up, or on
        the last card the end of the session with `|completedCards|` saved. */
    method HandleNext() returns (signal: Signal)
      requires Valid()
      modifies this
      ensures Valid()
      ensures (State(), signal) == Next(old(State()), content)
      ensures old(currentCard) < totalCards - 1 ==>
                currentCard == old(currentCard) + 1 && !showAnswer && signal == Continue
      ensures old(currentCard) >= totalCards - 1 ==>
                currentCard == old(currentCard) && showAnswer == old(showAnswer)
                && signal == Complete(Report(content, Flashcards, |completedCards|, totalCards))
      ensures completedCards == old(completedCards) && pending == old(pending)
    {
      StepKeepsInv(State(), NextPressed, content);
      if currentCard < totalCards - 1 {
        currentCard := currentCard + 1;
        showAnswer := false;
        signal := Continue;
      } else {
        signal := Complete(Report(content, Flashcards, |completedCards|, totalCards));
      }
    }

    /** `handlePrevious`: back one card, question side up; nothing at card 0. */
    method HandlePrevious()
      requires Valid()
      modifies this
      ensures Valid()
      ensures State() == Previous(old(State()))
      ensures old(currentCard) == 0 ==> State() == old(State())
      ensures old(currentCard) > 0 ==> currentCard == old(currentCard) - 1 && !showAnswer
      ensures completedCards == old(completedCards) && pending == old(pending)
    {
      StepKeepsInv(State(), PreviousPressed, content);
      if currentCard > 0 {
        currentCard := currentCard - 1;
        showAnswer := false;
      }
    }

    /** Clicking the card or the flip button turns it over. */
    method ToggleAnswer()
      requires Valid()
      modifies this
      ensures Valid()
      ensures State() == Flip(old(State()))
      ensures showAnswer == !old(showAnswer) && currentCard == old(currentCard)
    {
      StepKeepsInv(State(), Flipped, content);
      showAnswer := !showAnswer;
    }

    /** `handleCardComplete`, with the scheduled `handleNext` seeing the card
        just marked (the intended behaviour; `CardCompleteAsWritten` is the
        code as it stands). */
    method HandleCardComplete()
      requires Valid()
      modifies this
      ensures Valid()
      ensures State() == CardComplete(old(State()))
      ensures completedCards == old(completedCards) + {old(currentCard)}
      ensures pending == old(pending) + [PendingNext(old(currentCard), completedCards)]
      ensures currentCard == old(currentCard) && showAnswer == old(showAnswer)
    {
      StepKeepsInv(State(), GotIt, content);
      completedCards := completedCards + {currentCard};
      pending := pending + [PendingNext(currentCard, completedCards)];
    }

    /** The oldest scheduled `handleNext` runs with the state it captured. */
    method TimerFires() returns (signal: Signal)
      requires Valid() && pending != []
      modifies this
      ensures Valid()
      ensures (State(), signal) == FireTimer(old(State()), content)
      ensures pending == old(pending)[1..] && completedCards == old(completedCards)
      ensures signal.Complete? ==> signal.saved == Report(content, Flashcards, |old(pending)[0].completed|, totalCards)
    {
      StepKeepsInv(State(), TimerFired, content);
      var run := pending[0];
      pending := pending[1..];
      if run.card < totalCards - 1 {
        currentCard := run.card + 1;
        showAnswer := false;
        signal := Continue;
      } else {
        signal := Complete(Report(content, Flashcards, |run.completed|, totalCards));
      }
    }
  }
}
