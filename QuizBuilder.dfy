/** Building a quiz session: `startQuiz` (App.tsx:93-185) without the state updates.

    Targets are chosen by one of two strategies. The pooled modes sample up to
    30 entries from the union of the mode's categories. FULL_MIX samples a fixed
    number from each of five buckets. The targets are shuffled once more, and
    each gets one question whose wrong options come from its own category. */
module QuizBuilder {
  import opened Types
  import opened Shuffle
  import opened Dataset

  datatype QuizMode = HiraganaOnly | KatakanaOnly | VocabOnly | KanjiGrammar | FullMix

  /** One row of `quizDistribution`: the categories of a topic and how many targets it gets. */
  datatype Bucket = Bucket(groups: seq<Group>, count: nat)

  /** `TARGET_QUESTIONS`. */
  const TargetQuestions: nat := 30

  const HiraganaGroups: seq<Group> := [HiraganaBasic, HiraganaDakuten, HiraganaYoon, SpecialSounds]
  const KatakanaGroups: seq<Group> := [KatakanaBasic, KatakanaDakuten]
  const KanjiGroups: seq<Group> := [N5KanjiBasic, N5KanjiTimeDir, N5KanjiSchoolLife]
  const VocabGroups: seq<Group> :=
    [Numbers, Dates, N5Counters, N5FamilyColors, N5Greetings, N5Pronouns, N5Adjectives, N5Verbs]
  const GrammarGroups: seq<Group> := [N5Particles]

  /** `quizDistribution` of FULL_MIX (App.tsx:104-125). */
  const Distribution: seq<Bucket> := [
    Bucket(HiraganaGroups, 6),
    Bucket(KatakanaGroups, 6),
    Bucket(KanjiGroups, 6),
    Bucket(VocabGroups, 8),
    Bucket(GrammarGroups, 4)
  ]

  /** `targetGroups` of the pooled modes (App.tsx:135-158); it stays empty for FULL_MIX. */
  function TargetGroups(mode: QuizMode): (r: seq<Group>)
    ensures r == [] <==> mode == FullMix
  {
    match mode
    case HiraganaOnly => HiraganaGroups
    case KatakanaOnly => KatakanaGroups
    case VocabOnly => VocabGroups
    case KanjiGrammar => KanjiGroups + GrammarGroups
    case FullMix => []
  }

  /** Each pooled mode draws from the categories of FULL_MIX buckets: one bucket,
      or for KANJI_GRAMMAR the kanji and grammar buckets together. */
  lemma ModesMatchBuckets()
    ensures TargetGroups(HiraganaOnly) == Distribution[0].groups
    ensures TargetGroups(KatakanaOnly) == Distribution[1].groups
    ensures TargetGroups(VocabOnly) == Distribution[3].groups
    ensures TargetGroups(KanjiGrammar) == Distribution[2].groups + Distribution[4].groups
  {
  }

  // ---------------------------------------------------------------------------
  // What a session is

  /** The targets of a list of questions, in question order. */
  function Targets(qs: seq<QuizQuestion>): (ts: seq<Entry>)
  {
    seq(|qs|, k requires 0 <= k < |qs| => qs[k].target)
  }

  /** A question as the distractor step builds it (App.tsx:170-177): up to three
      wrong options, each from the target's own category with another glyph, and
      the target itself exactly once. */
  ghost predicate QuestionShape(data: KanaData, q: QuizQuestion)
  {
    |q.options| == 1 + Min(3, |Distractors(data, q.target)|) &&
    multiset(q.options)[q.target] == 1 &&
    multiset(q.options) - multiset{q.target} <= multiset(Distractors(data, q.target)) &&
    forall o :: o in q.options && o != q.target ==>
      o in Lookup(data, q.target.group) && o.glyph != q.target.glyph
  }

  /** The pooled strategy: min(30, |pool|) targets drawn without replacement from the pool. */
  ghost predicate PooledShape(data: KanaData, groups: seq<Group>, ts: seq<Entry>)
  {
    |ts| == Min(TargetQuestions, |Pool(data, groups)|) &&
    multiset(ts) <= multiset(Pool(data, groups))
  }

  /** What one bucket contributes: min(count, |pool of its categories|). */
  function Contribution(data: KanaData, b: Bucket): nat
  {
    Min(b.count, |Pool(data, b.groups)|)
  }

  /** A bucket's selection: exactly its contribution, drawn without replacement from its pool. */
  ghost predicate PartOf(data: KanaData, b: Bucket, part: seq<Entry>)
  {
    |part| == Contribution(data, b) && multiset(part) <= multiset(Pool(data, b.groups))
  }

  /** Selections for the first |parts| buckets, in bucket order. */
  ghost predicate PartsPrefix(data: KanaData, dist: seq<Bucket>, parts: seq<seq<Entry>>)
  {
    |parts| <= |dist| && forall b :: 0 <= b < |parts| ==> PartOf(data, dist[b], parts[b])
  }

  /** One selection per bucket, in bucket order. */
  ghost predicate BalancedParts(data: KanaData, dist: seq<Bucket>, parts: seq<seq<Entry>>)
  {
    |parts| == |dist| && PartsPrefix(data, dist, parts)
  }

  /** The concatenation of the parts, as `sessionTargets = [...sessionTargets, ...selected]` builds it. */
  function Flatten(parts: seq<seq<Entry>>): seq<Entry>
    decreases |parts|
  {
    if parts == [] then [] else Flatten(parts[..|parts| - 1]) + parts[|parts| - 1]
  }

  /** Appending the next bucket's selection. */
  lemma PartsPrefixExtend(data: KanaData, dist: seq<Bucket>, parts: seq<seq<Entry>>, chosen: seq<Entry>)
    requires PartsPrefix(data, dist, parts) && |parts| < |dist|
    requires PartOf(data, dist[|parts|], chosen)
    ensures PartsPrefix(data, dist, parts + [chosen])
  {
    var next := parts + [chosen];
    forall b | 0 <= b < |next| ensures PartOf(data, dist[b], next[b]) {
      if b < |parts| { assert next[b] == parts[b]; }
    }
  }

  lemma FlattenSnoc(parts: seq<seq<Entry>>, chosen: seq<Entry>)
    ensures Flatten(parts + [chosen]) == Flatten(parts) + chosen
  {
    assert (parts + [chosen])[..|parts|] == parts;
  }

  /** The balanced strategy, after the final reshuffle: a permutation of one selection per bucket. */
  ghost predicate BalancedShape(data: KanaData, ts: seq<Entry>)
  {
    exists parts :: BalancedParts(data, Distribution, parts) && multiset(ts) == multiset(Flatten(parts))
  }

  /** The questions `startQuiz` generates for a mode. */
  ghost predicate ValidSession(data: KanaData, mode: QuizMode, qs: seq<QuizQuestion>)
  {
    (forall k :: 0 <= k < |qs| ==> QuestionShape(data, qs[k])) &&
    (UniqueGlyphs(data) ==> forall k :: 0 <= k < |qs| ==> DistinctGlyphs(qs[k].options)) &&
    if mode == FullMix then BalancedShape(data, Targets(qs))
    else PooledShape(data, TargetGroups(mode), Targets(qs))
  }

  // ---------------------------------------------------------------------------
  // Building a session

  /** App.tsx:161-163: shuffle the pool of the mode's categories and keep the first 30. */
  method SelectPooled(data: KanaData, groups: seq<Group>) returns (selected: seq<Entry>)
    ensures PooledShape(data, groups, selected)
  {
    var allPool := Pool(data, groups);
    var shuffled := ShuffleArray(allPool);
    selected := Take(shuffled, TargetQuestions);
  }

  /** App.tsx:127-131: for each bucket, shuffle the pool of its categories, keep
      the first `count` entries and append them. `parts` records each bucket's selection. */
  method SelectBalanced(data: KanaData, dist: seq<Bucket>) returns (selected: seq<Entry>, ghost parts: seq<seq<Entry>>)
    ensures BalancedParts(data, dist, parts)
    ensures selected == Flatten(parts)
    ensures |selected| <= Quota(dist)
  {
    selected, parts := [], [];
    var b := 0;
    while b < |dist|
      invariant b == |parts| && PartsPrefix(data, dist, parts)
      invariant selected == Flatten(parts)
    {
      var categoryItems := Pool(data, dist[b].groups);
      var shuffled := ShuffleArray(categoryItems);
      var chosen := Take(shuffled, dist[b].count);
      PartsPrefixExtend(data, dist, parts, chosen);
      FlattenSnoc(parts, chosen);
      parts := parts + [chosen];
      selected := selected + chosen;
      b := b + 1;
    }
    FlattenWithinQuota(data, dist, parts);
  }

  /** App.tsx:171-176: the question for one target. */
  method MakeQuestion(data: KanaData, target: Entry) returns (q: QuizQuestion)
    ensures q.target == target && QuestionShape(data, q)
    ensures DistinctGlyphs(Lookup(data, target.group)) ==> DistinctGlyphs(q.options)
  {
    var sourcePool := Lookup(data, target.group);
    var potentialDistractors := Without(sourcePool, target.glyph);
    var shuffled := ShuffleArray(potentialDistractors);
    var distractors := Take(shuffled, 3);
    var options := ShuffleArray([target] + distractors);
    q := QuizQuestion(target, options);
    CandidatesMakeQuestion(data, target, distractors, options);
  }

  /** Any sample of at most three candidate distractors, shuffled together with
      the target, gives a question of the expected shape. */
  lemma CandidatesMakeQuestion(data: KanaData, target: Entry, distractors: seq<Entry>, options: seq<Entry>)
    requires multiset(distractors) <= multiset(Distractors(data, target))
    requires |distractors| == Min(3, |Distractors(data, target)|)
    requires multiset(options) == multiset([target] + distractors)
    ensures QuestionShape(data, QuizQuestion(target, options))
    ensures DistinctGlyphs(Lookup(data, target.group)) ==> DistinctGlyphs(options)
  {
    var candidates := [target] + distractors;
    SampleOfDistractors(data, target, distractors);
    assert |options| == |multiset(options)| == |candidates|;
    assert multiset(candidates) == multiset{target} + multiset(distractors);
    assert multiset(options) - multiset{target} == multiset(distractors);
    forall o | o in options && o != target
      ensures o in Lookup(data, target.group) && o.glyph != target.glyph
    {
      assert o in multiset(candidates);
    }
    if DistinctGlyphs(Lookup(data, target.group)) {
      CandidatesDistinct(Lookup(data, target.group), target, distractors);
      DistinctGlyphsSub(options, candidates);
    }
  }

  /** With unique glyphs in the category, the target and its distractors have distinct glyphs. */
  lemma CandidatesDistinct(sourcePool: seq<Entry>, target: Entry, distractors: seq<Entry>)
    requires multiset(distractors) <= multiset(sourcePool) && DistinctGlyphs(sourcePool)
    requires forall o :: o in distractors ==> o.glyph != target.glyph
    ensures DistinctGlyphs([target] + distractors)
  {
    DistinctGlyphsSub(distractors, sourcePool);
    var candidates := [target] + distractors;
    forall i, j | 0 <= i < j < |candidates| ensures candidates[i].glyph != candidates[j].glyph {
      assert candidates[j] == distractors[j - 1];
      if i > 0 { assert candidates[i] == distractors[i - 1]; }
    }
  }

  /** A sample of the candidate distractors: entries of the target's category with
      another glyph, so never the target itself. */
  lemma SampleOfDistractors(data: KanaData, target: Entry, distractors: seq<Entry>)
    requires multiset(distractors) <= multiset(Distractors(data, target))
    ensures multiset(distractors) <= multiset(Lookup(data, target.group))
    ensures forall o :: o in distractors ==> o in Lookup(data, target.group) && o.glyph != target.glyph
    ensures target !in distractors
  {
    forall o | o in distractors ensures o in Lookup(data, target.group) && o.glyph != target.glyph {
      assert o in multiset(Distractors(data, target));
    }
  }

  /** The questions for targets, in target order; each of the expected shape. */
  ghost predicate QuestionsFor(data: KanaData, targets: seq<Entry>, qs: seq<QuizQuestion>)
  {
    |qs| == |targets| &&
    forall k :: 0 <= k < |qs| ==>
      qs[k].target == targets[k] && QuestionShape(data, qs[k]) &&
      (DistinctGlyphs(Lookup(data, targets[k].group)) ==> DistinctGlyphs(qs[k].options))
  }

  /** Appending the question of the next target. */
  lemma QuestionsForExtend(data: KanaData, targets: seq<Entry>, qs: seq<QuizQuestion>, q: QuizQuestion)
    requires |qs| < |targets| && QuestionsFor(data, targets[..|qs|], qs)
    requires q.target == targets[|qs|] && QuestionShape(data, q)
    requires DistinctGlyphs(Lookup(data, q.target.group)) ==> DistinctGlyphs(q.options)
    ensures QuestionsFor(data, targets[..|qs| + 1], qs + [q])
  {
    var n := |qs|;
    forall k | 0 <= k < n ensures targets[..n + 1][k] == targets[..n][k] {}
  }

  /** App.tsx:170-177: one question per target, in target order. */
  method BuildQuestions(data: KanaData, targets: seq<Entry>) returns (qs: seq<QuizQuestion>)
    ensures QuestionsFor(data, targets, qs)
  {
    qs := [];
    var k := 0;
    while k < |targets|
      invariant 0 <= k <= |targets| && |qs| == k
      invariant QuestionsFor(data, targets[..k], qs)
    {
      var q := MakeQuestion(data, targets[k]);
      QuestionsForExtend(data, targets, qs, q);
      qs := qs + [q];
      k := k + 1;
    }
    assert targets[..k] == targets;
  }

  /** App.tsx:94-177: select the targets for the mode, reshuffle them and build their questions. */
  method BuildSession(data: KanaData, mode: QuizMode) returns (qs: seq<QuizQuestion>)
    ensures ValidSession(data, mode, qs)
  {
    var sessionTargets: seq<Entry>;
    ghost var parts: seq<seq<Entry>> := [];
    if mode == FullMix {
      sessionTargets, parts := SelectBalanced(data, Distribution);
    } else {
      sessionTargets := SelectPooled(data, TargetGroups(mode));
    }
    var mixed := ShuffleArray(sessionTargets);
    qs := BuildQuestions(data, mixed);
    assert Targets(qs) == mixed;
    forall k | 0 <= k < |qs| && UniqueGlyphs(data) ensures DistinctGlyphs(qs[k].options) {
      assert DistinctGlyphs(Lookup(data, mixed[k].group));
    }
    if mode == FullMix {
      assert BalancedParts(data, Distribution, parts) && multiset(Targets(qs)) == multiset(Flatten(parts));
    }
  }

  // ---------------------------------------------------------------------------
  // Properties of sessions

  /** The sum of the bucket counts. */
  function Quota(dist: seq<Bucket>): nat
    decreases |dist|
  {
    if dist == [] then 0 else Quota(dist[..|dist| - 1]) + dist[|dist| - 1].count
  }

  /** The FULL_MIX counts add up to 30. */
  lemma DistributionQuota()
    ensures Quota(Distribution) == TargetQuestions
  {
    var d := Distribution;
    assert Quota(d[..1]) == 6 by { assert d[..1][..0] == []; }
    assert Quota(d[..2]) == 12 by { assert d[..2][..1] == d[..1]; }
    assert Quota(d[..3]) == 18 by { assert d[..3][..2] == d[..2]; }
    assert Quota(d[..4]) == 26 by { assert d[..4][..3] == d[..3]; }
    assert d[..5][..4] == d[..4] && d[..5] == d;
  }

  /** The parts never exceed the bucket counts in total. */
  lemma {:induction false} FlattenWithinQuota(data: KanaData, dist: seq<Bucket>, parts: seq<seq<Entry>>)
    requires BalancedParts(data, dist, parts)
    ensures |Flatten(parts)| <= Quota(dist)
  {
    if parts != [] {
      var n := |parts| - 1;
      assert BalancedParts(data, dist[..n], parts[..n]);
      FlattenWithinQuota(data, dist[..n], parts[..n]);
    }
  }

  /** No session has more than 30 questions; a pooled one has exactly min(30, |pool|). */
  lemma SessionLengthBound(data: KanaData, mode: QuizMode, qs: seq<QuizQuestion>)
    requires ValidSession(data, mode, qs)
    ensures |qs| <= TargetQuestions
    ensures mode != FullMix ==> |qs| == Min(TargetQuestions, |Pool(data, TargetGroups(mode))|)
  {
    assert |Targets(qs)| == |qs|;
    if mode == FullMix {
      var parts :| BalancedParts(data, Distribution, parts) && multiset(Targets(qs)) == multiset(Flatten(parts));
      assert |multiset(Targets(qs))| == |multiset(Flatten(parts))|;
      FlattenWithinQuota(data, Distribution, parts);
      DistributionQuota();
    }
  }

  /** In a well-formed dataset, every pooled target belongs to one of the mode's categories. */
  lemma PooledTargetsInMode(data: KanaData, mode: QuizMode, qs: seq<QuizQuestion>)
    requires WellFormed(data) && ValidSession(data, mode, qs) && mode != FullMix
    ensures forall q :: q in qs ==> q.target.group in TargetGroups(mode)
  {
    forall q | q in qs ensures q.target.group in TargetGroups(mode) {
      var k :| 0 <= k < |qs| && qs[k] == q;
      assert Targets(qs)[k] == q.target;
      assert q.target in multiset(Pool(data, TargetGroups(mode)));
      PoolEntryGroup(data, TargetGroups(mode), q.target);
    }
  }

  /** In a well-formed dataset, every wrong option has the target's category. */
  lemma DistractorsShareGroup(data: KanaData, q: QuizQuestion)
    requires WellFormed(data) && QuestionShape(data, q)
    ensures forall o :: o in q.options && o != q.target ==> o.group == q.target.group
  {
    forall o | o in q.options && o != q.target ensures o.group == q.target.group {
      assert o in Lookup(data, q.target.group);
    }
  }

  // ---------------------------------------------------------------------------
  // Bucket counts of FULL_MIX

  /** The number of entries of s whose category is among gs. */
  function CountIn(s: seq<Entry>, gs: seq<Group>): (n: nat)
    ensures n <= |s|
  {
    if s == [] then 0 else (if s[0].group in gs then 1 else 0) + CountIn(s[1..], gs)
  }

  lemma {:induction false} CountInConcat(a: seq<Entry>, b: seq<Entry>, gs: seq<Group>)
    ensures CountIn(a + b, gs) == CountIn(a, gs) + CountIn(b, gs)
  {
    if a == [] {
      assert a + b == b;
    } else {
      assert (a + b)[1..] == a[1..] + b;
      CountInConcat(a[1..], b, gs);
    }
  }

  /** Removing position k removes its entry from the count. */
  lemma CountInRemove(s: seq<Entry>, k: nat, gs: seq<Group>)
    requires k < |s|
    ensures CountIn(s, gs) == CountIn(s[..k] + s[k + 1..], gs) + (if s[k].group in gs then 1 else 0)
  {
    assert s == s[..k] + ([s[k]] + s[k + 1..]);
    CountInConcat(s[..k], [s[k]] + s[k + 1..], gs);
    CountInConcat([s[k]], s[k + 1..], gs);
    CountInConcat(s[..k], s[k + 1..], gs);
    assert CountIn([s[k]], gs) == if s[k].group in gs then 1 else 0;
  }

  /** Counting by category does not depend on the order. */
  lemma {:induction false} CountInPermutation(a: seq<Entry>, b: seq<Entry>, gs: seq<Group>)
    requires multiset(a) == multiset(b)
    ensures CountIn(a, gs) == CountIn(b, gs)
  {
    if a == [] {
      assert |b| == |multiset(b)| == 0;
    } else {
      assert a[0] in multiset(b);
      var k :| 0 <= k < |b| && b[k] == a[0];
      PermutationRemove(a, b, k);
      CountInPermutation(a[1..], b[..k] + b[k + 1..], gs);
      CountInRemove(b, k, gs);
    }
  }

  /** When every entry of s is inside gs, or every entry outside it, the count is |s| or 0. */
  lemma {:induction false} CountInUniform(s: seq<Entry>, gs: seq<Group>, inside: bool)
    requires forall e :: e in s ==> (e.group in gs) == inside
    ensures CountIn(s, gs) == if inside then |s| else 0
  {
    if s != [] {
      assert s[0] in s;
      assert forall e :: e in s[1..] ==> e in s;
      CountInUniform(s[1..], gs, inside);
    }
  }

  /** No category belongs to two buckets. */
  ghost predicate BucketsDisjoint(dist: seq<Bucket>)
  {
    forall b, c, g :: 0 <= b < c < |dist| && g in dist[b].groups ==> g !in dist[c].groups
  }

  lemma DistributionDisjoint()
    ensures BucketsDisjoint(Distribution)
  {
  }

  /** Part c holds only categories of bucket c, so bucket b's categories count in it only when c == b. */
  lemma PartCount(data: KanaData, dist: seq<Bucket>, parts: seq<seq<Entry>>, c: nat, b: nat)
    requires WellFormed(data) && BucketsDisjoint(dist) && BalancedParts(data, dist, parts)
    requires c < |dist| && b < |dist|
    ensures CountIn(parts[c], dist[b].groups) == if c == b then |parts[c]| else 0
  {
    var part, inB, inC := parts[c], dist[b].groups, dist[c].groups;
    assert multiset(part) <= multiset(Pool(data, inC));
    forall e | e in part ensures (e.group in inB) == (c == b) {
      assert e in multiset(part);
      PoolEntryGroup(data, inC, e);
      if c < b {
        assert e.group in inC ==> e.group !in inB;
      } else if b < c {
        assert e.group in inB ==> e.group !in inC;
      }
    }
    CountInUniform(part, inB, c == b);
  }

  /** When only part b counts, the first n parts count as part b does, or not at all. */
  lemma {:induction false} FlattenCount(parts: seq<seq<Entry>>, gs: seq<Group>, n: nat, b: nat)
    requires n <= |parts| && b < |parts|
    requires forall c :: 0 <= c < |parts| ==> CountIn(parts[c], gs) == if c == b then |parts[c]| else 0
    ensures CountIn(Flatten(parts[..n]), gs) == if b < n then |parts[b]| else 0
  {
    if n > 0 {
      var c := n - 1;
      assert parts[..n][..c] == parts[..c] && parts[..n][c] == parts[c];
      FlattenCount(parts, gs, c, b);
      CountInConcat(Flatten(parts[..c]), parts[c], gs);
    }
  }

  /** FULL_MIX: each bucket's categories hold exactly min(count, |bucket pool|) of the targets. */
  lemma BalancedBucketCounts(data: KanaData, qs: seq<QuizQuestion>)
    requires WellFormed(data) && ValidSession(data, FullMix, qs)
    ensures forall b :: 0 <= b < |Distribution| ==>
              CountIn(Targets(qs), Distribution[b].groups) == Contribution(data, Distribution[b])
  {
    var parts :| BalancedParts(data, Distribution, parts) && multiset(Targets(qs)) == multiset(Flatten(parts));
    DistributionDisjoint();
    forall b | 0 <= b < |Distribution|
      ensures CountIn(Targets(qs), Distribution[b].groups) == Contribution(data, Distribution[b])
    {
      forall c | 0 <= c < |parts|
        ensures CountIn(parts[c], Distribution[b].groups) == if c == b then |parts[c]| else 0
      {
        PartCount(data, Distribution, parts, c, b);
      }
      FlattenCount(parts, Distribution[b].groups, |parts|, b);
      assert parts[..|parts|] == parts;
      CountInPermutation(Targets(qs), Flatten(parts), Distribution[b].groups);
    }
  }
}
