/** Grading answers and counting the score (App.tsx:187-202, App.tsx:220-222). */
module Scoring {
  import opened Types

  /** r records an answer to q, graded as `handleQuizAnswer` grades it: correct
      exactly when the chosen entry has the target's glyph. */
  predicate Graded(q: QuizQuestion, r: QuizResult)
  {
    r.question == q && r.isCorrect == (r.selectedOption.glyph == q.target.glyph)
  }

  /** The result `handleQuizAnswer` logs for a pick is graded, and it is the only
      graded result for that question and pick. */
  lemma GradedAnswer(q: QuizQuestion, pick: Entry)
    ensures Graded(q, QuizResult(q, pick, pick.glyph == q.target.glyph))
    ensures forall r :: Graded(q, r) && r.selectedOption == pick ==>
              r == QuizResult(q, pick, pick.glyph == q.target.glyph)
  {
  }

  /** `getResultScore`: `quizResults.filter(r => r.isCorrect).length`. */
  function Score(results: seq<QuizResult>): (n: nat)
    ensures n <= |results|
    ensures n == |results| <==> forall k :: 0 <= k < |results| ==> results[k].isCorrect
    ensures n == 0 <==> forall k :: 0 <= k < |results| ==> !results[k].isCorrect
  {
    if results == [] then 0
    else (if results[0].isCorrect then 1 else 0) + Score(results[1..])
  }

  /** Appending one result adds one to the score exactly when that result is correct. */
  lemma {:induction false} ScoreAppend(results: seq<QuizResult>, r: QuizResult)
    ensures Score(results + [r]) == Score(results) + (if r.isCorrect then 1 else 0)
  {
    if results == [] {
      assert results + [r] == [r];
    } else {
      assert (results + [r])[1..] == results[1..] + [r];
      ScoreAppend(results[1..], r);
    }
  }

  /** The entries chosen, in answer order. */
  function Picks(results: seq<QuizResult>): seq<Entry>
  {
    seq(|results|, k requires 0 <= k < |results| => results[k].selectedOption)
  }

  /** Reference count: how many picks have the glyph of their question's target. */
  function Matches(qs: seq<QuizQuestion>, picks: seq<Entry>): nat
    requires |picks| <= |qs|
  {
    if picks == [] then 0
    else (if picks[0].glyph == qs[0].target.glyph then 1 else 0) + Matches(qs[1..], picks[1..])
  }

  /** For a log graded against the questions in order, the score is the number of picks
      that match their targets. */
  lemma {:induction false} ScoreCountsMatches(qs: seq<QuizQuestion>, results: seq<QuizResult>)
    requires |results| <= |qs|
    requires forall k :: 0 <= k < |results| ==> Graded(qs[k], results[k])
    ensures Score(results) == Matches(qs, Picks(results))
  {
    if results != [] {
      assert Picks(results)[1..] == Picks(results[1..]);
      assert Graded(qs[0], results[0]);
      forall k | 0 <= k < |results[1..]| ensures Graded(qs[1..][k], results[1..][k]) {
        assert Graded(qs[k + 1], results[k + 1]);
      }
      ScoreCountsMatches(qs[1..], results[1..]);
    }
  }

  /** A worked example: answers correct, wrong, correct score 2 of 3. */
  lemma ScoreExample(a: QuizResult, b: QuizResult, c: QuizResult)
    requires a.isCorrect && !b.isCorrect && c.isCorrect
    ensures Score([a, b, c]) == 2
  {
    assert [a, b, c][1..] == [b, c] && [b, c][1..] == [c];
  }
}
