# Japanese flashcard session engine in Dafny

This project models the session engine of a browser flashcard and quiz app for
Japanese (hiragana, katakana, kanji, N5 vocabulary and particles). All of the
engine lives in the `App` component of `App.tsx`. It does four things:

- It shuffles sequences with a Fisher–Yates shuffle (`shuffleArray`).
- It builds a study deck for one category and moves a cursor through it
  (`startStudy`, `restartCurrentGroup`, `handleNextCard`, `handlePrevCard`).
- It builds a quiz session (`startQuiz`). The four single-topic modes sample up
  to 30 targets from one pool of categories. FULL_MIX takes 6/6/6/8/4 targets
  from five topic buckets. Every target then gets a question whose wrong
  options come from the target's own category.
- It grades answers into an append-only result log and counts the score
  (`handleQuizAnswer`, `getResultScore`).

Modules:

- `Types` holds the records of `types.ts`.
- `Shuffle` holds the shuffle. The method swaps in place on a fresh array, and
  a pure reference function replays any sequence of random draws.
- `Dataset` holds the dataset lookups: `KANA_DATA[g] || []`, the `flatMap`
  pool unions, the clamped `slice` and the distractor `filter`. It also holds
  the lemmas about distinct glyphs.
- `QuizBuilder` holds the target strategies, the question construction and
  the session properties.
- `Scoring` holds grading and the score.
- `App` holds the class `FlashcardApp`. Its fields are the `useState`
  variables, and each handler is a method that updates them.

Design choices:

- `Math.random` is not modelled. Each draw is an arbitrary index `j` with
  `0 <= j <= i`, chosen by `:|`. The shuffle's postcondition says that some
  legal sequence of draws produces its result.
- The dataset `KANA_DATA` is a parameter of type `map<Group, seq<Entry>>`.
- The `char` field is called `glyph` and the `type` field is called `kind`,
  because `char` and `type` are Dafny keywords.

Error paths and edge cases, as the code handles them:

- Studying a category that the dataset lacks: `[...KANA_DATA[group]]` throws
  before any state is set, so no deck is built, not even an empty one.
  `StartStudy` and `RestartCurrentGroup` return `found == false` and leave the
  state unchanged.
- A question has `1 + min(3, |other-glyph entries of the category|)` options,
  not always four. A small category gives fewer. The option glyphs are
  distinct only when the category's own glyphs are unique, and the model
  states exactly that.
- `handleQuizAnswer` does not check `isFinished`; only the screen logic keeps
  it from being called after the last answer. `AnswerQuiz` follows the handler
  and does not ignore such an answer. It keeps the log invariant
  `QuizLogValid` for every answer given while the quiz is not finished.
- When there is no question at the cursor, reading `.target` throws before
  any state is set. `AnswerQuiz` then returns `answered == false` and
  changes nothing.

## Model

| member | source | states |
|---|---|---|
| `Shuffle.SwapAt` | App.tsx:40 | swapping positions i and j exchanges those two elements, leaves every other position alone and keeps the multiset |
| `Shuffle.ApplyDraws` | App.tsx:38-41 | running the down-counting loop with any legal draws (step k picks an index in [0, n-1-k]) keeps the length and the multiset |
| `Shuffle.ApplyDrawsStep` | App.tsx:38-41 | one more loop iteration with a draw in range is one more swap of index n-1-k with the draw |
| `Shuffle.ShuffleArray` | App.tsx:36-43 | the shuffle returns a permutation of its input (same length, same multiset). The result is exactly what some complete run of legal draws produces. The input is a value and is not changed |
| `Shuffle.ShuffleIsPermutation` | App.tsx:36-43 | any result of a complete shuffle run is a permutation of the input |
| `Shuffle.TopDrawsKeepOrder` | App.tsx:38-41 | a fixed random source that always returns the upper bound i leaves the sequence in source order, so fixed draws determine the result |
| `Dataset.Lookup` | App.tsx:171 | `KANA_DATA[g] \|\| []`: a present category reads as its entries, a missing one as empty. In a well-formed dataset every entry read has category g |
| `Dataset.Pool` | App.tsx:161 | the `flatMap` union of categories. In a well-formed dataset every pooled entry's category is one of the listed ones |
| `Dataset.PoolMembers` | App.tsx:161 | an entry is in the `flatMap` pool exactly when it is in one of the listed categories (a missing category contributes nothing) |
| `Dataset.PoolEntryGroup` | App.tsx:161 | in a well-formed dataset every pooled entry's category is one of the listed ones |
| `Dataset.Take` | App.tsx:163 | `slice(0, k)` returns a prefix of length min(k, \|s\|), which is a sub-multiset of s |
| `Dataset.Without` | App.tsx:172 | the filter keeps exactly the entries whose glyph differs from the target's, as a sub-multiset of the category |
| `Dataset.Distractors` | App.tsx:171-172 | the candidate wrong options of a target are exactly the entries of its own category with another glyph, as a sub-multiset of that category |
| `Dataset.DistinctGlyphsSub` | App.tsx:174-175 | a sample or reshuffle of entries with distinct glyphs still has distinct glyphs |
| `QuizBuilder.TargetGroups` | App.tsx:135-158 | the category list of each pooled mode. It is empty exactly for FULL_MIX, which takes the bucket path instead |
| `QuizBuilder.ModesMatchBuckets` | App.tsx:104-158 | the HIRAGANA, KATAKANA and VOCAB modes use the same category lists as the matching FULL_MIX buckets. KANJI_GRAMMAR uses the kanji bucket followed by the grammar bucket |
| `QuizBuilder.SelectPooled` | App.tsx:161-163 | a pooled mode selects exactly min(30, \|pool\|) targets, drawn without replacement from the pool of its categories |
| `QuizBuilder.SelectBalanced` | App.tsx:127-131 | FULL_MIX appends one selection per bucket, in bucket order. Each selection has exactly min(count, \|bucket pool\|) entries, drawn without replacement from that bucket's pool. The total never exceeds the sum of the bucket counts |
| `QuizBuilder.MakeQuestion` | App.tsx:171-176 | a question for target t has options of length 1 + min(3, \|entries of t's category with another glyph\|). t occurs exactly once. The other options are drawn without replacement from the entries of t's category with another glyph. When the category's glyphs are unique, all option glyphs are distinct |
| `QuizBuilder.CandidatesMakeQuestion` | App.tsx:172-175 | any sample of up to three candidate distractors drawn without replacement, shuffled together with the target, gives a question of that shape |
| `QuizBuilder.CandidatesDistinct` | App.tsx:174-175 | with unique glyphs in the category, the target and its distractors have pairwise distinct glyphs |
| `QuizBuilder.BuildQuestions` | App.tsx:170-177 | one question per target, in target order, each of the shape above |
| `QuizBuilder.BuildSession` | App.tsx:94-177 | the session has one question per selected target, after the reshuffle. In a pooled mode the targets are min(30, \|pool\|) entries drawn without replacement from the mode's pool. In FULL_MIX they are a permutation of one exact-size selection per bucket |
| `QuizBuilder.Distribution` | App.tsx:104-125 | the five FULL_MIX buckets in order: hiragana 6, katakana 6, kanji 6, vocabulary 8, grammar 4, each with its category list |
| `QuizBuilder.DistributionQuota` | App.tsx:104-125 | the FULL_MIX bucket counts 6+6+6+8+4 add up to `TARGET_QUESTIONS` = 30 |
| `QuizBuilder.DistributionDisjoint` | App.tsx:104-125 | no category belongs to two FULL_MIX buckets |
| `QuizBuilder.FlattenWithinQuota` | App.tsx:127-131 | the concatenated bucket selections never exceed the sum of the bucket counts |
| `QuizBuilder.SessionLengthBound` | App.tsx:94-167 | no session has more than 30 questions. A pooled session has exactly min(30, \|pool\|) |
| `QuizBuilder.PooledTargetsInMode` | App.tsx:135-163 | in a well-formed dataset every pooled target belongs to one of the mode's `targetGroups` |
| `QuizBuilder.DistractorsShareGroup` | App.tsx:171-174 | in a well-formed dataset every wrong option has the target's category |
| `QuizBuilder.CountInPermutation` | App.tsx:167 | the final reshuffle does not change how many targets come from a given set of categories |
| `QuizBuilder.BalancedBucketCounts` | App.tsx:104-131 | in FULL_MIX with a well-formed dataset, exactly min(count, \|bucket pool\|) targets come from each bucket's categories, after the reshuffle |
| `Scoring.Graded` | App.tsx:189-195 | a logged result records its question, and it is correct exactly when the chosen entry's glyph equals the target's |
| `Scoring.GradedAnswer` | App.tsx:189-195 | the result `handleQuizAnswer` logs is graded, and it is the only graded result for that question and pick |
| `Scoring.Score` | App.tsx:220-222 | the score is at most the log length. It equals the length exactly when every result is correct, and it is 0 exactly when none is |
| `Scoring.ScoreAppend` | App.tsx:191-195 | appending one result raises the score by one exactly when that result is correct |
| `Scoring.ScoreCountsMatches` | App.tsx:187-202 | for a log graded against the questions in order, the score equals the number of picks whose glyph matches their question's target |
| `Scoring.ScoreExample` | App.tsx:221 | answers correct, wrong, correct score 2 |
| `App.BuildDeck` | App.tsx:53-58 | in ordered mode the deck is exactly the category's entries. Otherwise it is a shuffle, and so a permutation, of them |
| `App.FlashcardApp.constructor` | App.tsx:18-33 | the initial state: unordered study, HIRAGANA_BASIC, cursor 0, all decks and logs empty, not finished |
| `App.FlashcardApp.SelectStudyMode` | App.tsx:47-50 | sets the ordered-study flag and nothing else |
| `App.FlashcardApp.StartStudy` | App.tsx:52-65 | for a category present in the dataset, the deck is built for it, the category becomes active, the cursor is 0 and `isFinished` is false. Otherwise nothing changes |
| `App.FlashcardApp.RestartCurrentGroup` | App.tsx:81-89 | a fresh deck of the active category, cursor 0 and `isFinished` false. The quiz state and the active category are untouched |
| `App.FlashcardApp.NextCard` | App.tsx:67-73 | before the last card the cursor advances. On the last card (or an empty deck) the cursor stays and `isFinished` becomes true. The cursor stays inside the deck |
| `App.FlashcardApp.PrevCard` | App.tsx:75-79 | the cursor steps back unless it is at 0, where nothing changes. The cursor stays inside the deck |
| `App.FlashcardApp.StartQuiz` | App.tsx:93-185 | the questions form a valid session for the mode, the result log is empty, the cursor is 0 and the quiz is not finished |
| `App.FlashcardApp.AnswerQuiz` | App.tsx:187-202 | appends exactly one result for the current question, correct exactly when the chosen glyph equals the target's glyph, and changes nothing else in the log. It advances the cursor, or finishes on the last question. It keeps the log invariant |
| `App.FlashcardApp.ResultScore` | App.tsx:220-222 | the number of correct results, never more than the log length |
| `App.FinishedQuizScore` | App.tsx:187-202 | a finished quiz has exactly one result per question, and its score is the number of answers that matched their targets |

## Left out

- Rendering: all JSX, the home, category and result screens, styling, and the
  `appState` screen switch. This includes `handleBack` and `restartQuiz`, which
  only change the screen.
- The quiz mode titles (`activeQuizMode`) and the group display labels: they
  are cosmetic strings.
- Speech synthesis and the presentation components `components/Card.tsx` and
  `components/QuizCard.tsx` (flipping, font-size classes, button labels).
- The progress-bar percentage and the `totalQ * 0.8` grading message. Both are
  floating-point display computations.
- The contents of `KANA_DATA`: the dataset is a parameter. Where a property
  depends on it, the property is stated under `WellFormed` (every entry is
  stored under its own `group`) or `UniqueGlyphs` (glyphs are unique within a
  category).
- The distribution of `Math.random`: only the range of each draw is modelled,
  not its uniformity.
- React's asynchronous state batching: each handler's `set…` calls are
  modelled as assignments made in order when the handler runs. This matches the
  results, because each handler reads only the state from before it ran.
- `ShuffleArray`: the copy of the input into a fresh array is modelled. The
  input is a Dafny sequence, a value, so aliasing of the caller's JavaScript
  array is not modelled.
