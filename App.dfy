/** The session state of the `App` component (App.tsx:17-222). The `useState`
    variables become fields of a class, and each handler becomes a method that
    updates them in place. Screens and rendering are not modelled. */
module App {
  import opened Types
  import opened Shuffle
  import opened Dataset
  import opened QuizBuilder
  import opened Scoring

  /** A study deck for a category: its entries in source order (ordered mode) or
      a shuffle of them. Either way it is a permutation of the entries. */
  ghost predicate IsDeckOf(entries: seq<Entry>, ordered: bool, deck: seq<Entry>)
  {
    (ordered ==> deck == entries) &&
    (!ordered ==> IsShuffleOf(entries, deck)) &&
    |deck| == |entries| && multiset(deck) == multiset(entries)
  }

  /** App.tsx:53-58 and App.tsx:82-85: copy the category and shuffle it unless ordered. */
  method BuildDeck(entries: seq<Entry>, ordered: bool) returns (deck: seq<Entry>)
    ensures IsDeckOf(entries, ordered, deck)
  {
    deck := entries;
    if !ordered {
      deck := ShuffleArray(deck);
    }
  }

  class FlashcardApp {
    /** `KANA_DATA`, fixed for the lifetime of the component. */
    const data: KanaData
    var isOrderedStudy: bool
    var activeGroup: Group
    var currentIndex: nat
    var shuffledDeck: seq<Entry>
    var quizQuestions: seq<QuizQuestion>
    var quizResults: seq<QuizResult>
    var isFinished: bool

    /** The initial `useState` values (App.tsx:18-33). */
    constructor (data: KanaData)
      ensures this.data == data
      ensures !isOrderedStudy && activeGroup == HiraganaBasic && currentIndex == 0
      ensures shuffledDeck == [] && quizQuestions == [] && quizResults == [] && !isFinished
    {
      this.data := data;
      isOrderedStudy := false;
      activeGroup := HiraganaBasic;
      currentIndex := 0;
      shuffledDeck := [];
      quizQuestions := [];
      quizResults := [];
      isFinished := false;
    }

    /** The study cursor points into the deck, or at 0 for an empty deck. */
    predicate DeckCursorValid()
      reads this
    {
      currentIndex < |shuffledDeck| || (shuffledDeck == [] && currentIndex == 0)
    }

    /** The quiz cursor points at the question being answered. The result log holds
        one graded result per answered question, in question order: all of them
        once the quiz is finished. */
    predicate QuizLogValid()
      reads this
    {
      (currentIndex < |quizQuestions| || (quizQuestions == [] && currentIndex == 0 && !isFinished)) &&
      (isFinished ==> currentIndex == |quizQuestions| - 1) &&
      |quizResults| == currentIndex + (if isFinished then 1 else 0) &&
      forall k :: 0 <= k < |quizResults| ==> Graded(quizQuestions[k], quizResults[k])
    }

    /** `selectStudyMode` (App.tsx:47-50), without the screen change. */
    method SelectStudyMode(ordered: bool)
      modifies this`isOrderedStudy
      ensures isOrderedStudy == ordered
    {
      isOrderedStudy := ordered;
    }

    /** `startStudy` (App.tsx:52-65). Spreading a category the dataset lacks throws
        before any state is set; `found` is false then and nothing changes. */
    method StartStudy(group: Group) returns (found: bool)
      modifies this`activeGroup, this`shuffledDeck, this`currentIndex, this`isFinished
      ensures found == (group in data)
      ensures found ==> activeGroup == group && IsDeckOf(data[group], isOrderedStudy, shuffledDeck)
      ensures found ==> currentIndex == 0 && !isFinished && DeckCursorValid()
      ensures !found ==> activeGroup == old(activeGroup) && shuffledDeck == old(shuffledDeck)
      ensures !found ==> currentIndex == old(currentIndex) && isFinished == old(isFinished)
    {
      if group !in data {
        return false;
      }
      var deck := BuildDeck(data[group], isOrderedStudy);
      activeGroup, shuffledDeck, currentIndex, isFinished := group, deck, 0, false;
      found := true;
    }

    /** `restartCurrentGroup` (App.tsx:81-89): a fresh deck of the active category. */
    method RestartCurrentGroup() returns (found: bool)
      modifies this`shuffledDeck, this`currentIndex, this`isFinished
      ensures found == (activeGroup in data)
      ensures found ==> IsDeckOf(data[activeGroup], isOrderedStudy, shuffledDeck)
      ensures found ==> currentIndex == 0 && !isFinished && DeckCursorValid()
      ensures !found ==> shuffledDeck == old(shuffledDeck)
      ensures !found ==> currentIndex == old(currentIndex) && isFinished == old(isFinished)
    {
      if activeGroup !in data {
        return false;
      }
      var deck := BuildDeck(data[activeGroup], isOrderedStudy);
      shuffledDeck, currentIndex, isFinished := deck, 0, false;
      found := true;
    }

    /** `handleNextCard` (App.tsx:67-73): advance, or finish on the last card. */
    method NextCard()
      modifies this`currentIndex, this`isFinished
      ensures old(currentIndex) < |shuffledDeck| - 1 ==>
                currentIndex == old(currentIndex) + 1 && isFinished == old(isFinished)
      ensures old(currentIndex) >= |shuffledDeck| - 1 ==>
                currentIndex == old(currentIndex) && isFinished
      ensures old(DeckCursorValid()) ==> DeckCursorValid()
    {
      if currentIndex < |shuffledDeck| - 1 {
        currentIndex := currentIndex + 1;
      } else {
        isFinished := true;
      }
    }

    /** `handlePrevCard` (App.tsx:75-79): step back unless at the first card. */
    method PrevCard()
      modifies this`currentIndex
      ensures old(currentIndex) > 0 ==> currentIndex == old(currentIndex) - 1
      ensures old(currentIndex) == 0 ==> currentIndex == 0
      ensures old(DeckCursorValid()) ==> DeckCursorValid()
    {
      if currentIndex > 0 {
        currentIndex := currentIndex - 1;
      }
    }

    /** `startQuiz` (App.tsx:93-185): a new session with an empty result log. */
    method StartQuiz(mode: QuizMode)
      modifies this`quizQuestions, this`quizResults, this`currentIndex, this`isFinished
      ensures ValidSession(data, mode, quizQuestions)
      ensures quizResults == [] && currentIndex == 0 && !isFinished
      ensures QuizLogValid()
    {
      var questions := BuildSession(data, mode);
      quizQuestions, quizResults, currentIndex, isFinished := questions, [], 0, false;
    }

    /** `handleQuizAnswer` (App.tsx:187-202): log the graded answer, then advance or
        finish. Without a question at the cursor, reading its target throws before
        any state is set; `answered` is false then and nothing changes. */
    method AnswerQuiz(selectedOption: Entry) returns (answered: bool)
      modifies this`quizResults, this`currentIndex, this`isFinished
      ensures answered == (old(currentIndex) < |quizQuestions|)
      ensures answered ==>
                var q := quizQuestions[old(currentIndex)];
                quizResults == old(quizResults) +
                  [QuizResult(q, selectedOption, selectedOption.glyph == q.target.glyph)]
      ensures answered && old(currentIndex) < |quizQuestions| - 1 ==>
                currentIndex == old(currentIndex) + 1 && isFinished == old(isFinished)
      ensures answered && old(currentIndex) == |quizQuestions| - 1 ==>
                currentIndex == old(currentIndex) && isFinished
      ensures !answered ==>
                quizResults == old(quizResults) && currentIndex == old(currentIndex) &&
                isFinished == old(isFinished)
      ensures old(QuizLogValid()) && !old(isFinished) ==> QuizLogValid()
    {
      if currentIndex >= |quizQuestions| {
        return false;
      }
      var currentQuestion := quizQuestions[currentIndex];
      var isCorrect := selectedOption.glyph == currentQuestion.target.glyph;
      quizResults := quizResults + [QuizResult(currentQuestion, selectedOption, isCorrect)];
      if currentIndex < |quizQuestions| - 1 {
        currentIndex := currentIndex + 1;
      } else {
        isFinished := true;
      }
      answered := true;
    }

    /** `getResultScore` (App.tsx:220-222). */
    function ResultScore(): (n: nat)
      reads this
      ensures n <= |quizResults|
      ensures n == |quizResults| <==> forall k :: 0 <= k < |quizResults| ==> quizResults[k].isCorrect
    {
      Score(quizResults)
    }
  }

  /** A finished quiz has one result per question, and its score is the number of
      answers that matched their targets. */
  lemma FinishedQuizScore(app: FlashcardApp)
    requires app.QuizLogValid() && app.isFinished
    ensures |app.quizResults| == |app.quizQuestions|
    ensures app.ResultScore() == Matches(app.quizQuestions, Picks(app.quizResults))
  {
    ScoreCountsMatches(app.quizQuestions, app.quizResults);
  }
}
