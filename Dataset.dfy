/** Reading the dataset `KANA_DATA`: the lookups, the `flatMap` pool unions, the
    clamped `slice` and the distractor filter of App.tsx, with the facts about
    distinct glyphs that the quiz questions rely on. */
module Dataset {
  import opened Types

  /** `KANA_DATA[g] || []`: a category the dataset does not hold reads as empty. */
  function Lookup(data: KanaData, g: Group): (r: seq<Entry>)
    ensures g in data ==> r == data[g]
    ensures g !in data ==> r == []
    ensures WellFormed(data) ==> forall e :: e in r ==> e.group == g
  {
    if g in data then data[g] else []
  }

  /** `groups.flatMap(g => KANA_DATA[g] || [])` (App.tsx:128 and App.tsx:161). */
  function Pool(data: KanaData, groups: seq<Group>): (r: seq<Entry>)
    ensures WellFormed(data) ==> forall e :: e in r ==> e.group in groups
  {
    if groups == [] then []
    else Lookup(data, groups[0]) + Pool(data, groups[1..])
  }

  /** The pool holds exactly the entries of the listed categories. */
  lemma {:induction false} PoolMembers(data: KanaData, groups: seq<Group>, e: Entry)
    ensures e in Pool(data, groups) <==> exists g :: g in groups && e in Lookup(data, g)
  {
    if groups != [] {
      PoolMembers(data, groups[1..], e);
      assert forall g :: g in groups <==> g == groups[0] || g in groups[1..];
    }
  }

  /** `s.slice(0, k)`: the first k elements, or all of them when there are fewer. */
  function Take<T>(s: seq<T>, k: nat): (r: seq<T>)
    ensures |r| == Min(k, |s|)
    ensures r == s[..|r|]
    ensures multiset(r) <= multiset(s)
  {
    var r := if k <= |s| then s[..k] else s;
    assert s == r + s[|r|..];
    r
  }

  /** `sourcePool.filter(item => item.char !== target.char)` (App.tsx:172). */
  function Without(pool: seq<Entry>, glyph: string): (r: seq<Entry>)
    ensures forall e :: e in r <==> e in pool && e.glyph != glyph
    ensures multiset(r) <= multiset(pool)
  {
    if pool == [] then []
    else
      assert pool == [pool[0]] + pool[1..];
      (if pool[0].glyph != glyph then [pool[0]] else []) + Without(pool[1..], glyph)
  }

  /** The candidate distractors of a target: its own category's entries with another glyph. */
  function Distractors(data: KanaData, target: Entry): (r: seq<Entry>)
    ensures forall e :: e in r <==> e in Lookup(data, target.group) && e.glyph != target.glyph
    ensures multiset(r) <= multiset(Lookup(data, target.group))
  {
    Without(Lookup(data, target.group), target.glyph)
  }

  /** Every entry is stored under the category its `group` field names. */
  ghost predicate WellFormed(data: KanaData)
  {
    forall g, e :: g in data && e in data[g] ==> e.group == g
  }

  /** No two positions of s hold entries with the same glyph. */
  predicate DistinctGlyphs(s: seq<Entry>)
  {
    forall i, j :: 0 <= i < j < |s| ==> s[i].glyph != s[j].glyph
  }

  /** Within one category the glyphs are unique. */
  ghost predicate UniqueGlyphs(data: KanaData)
  {
    forall g :: g in data ==> DistinctGlyphs(data[g])
  }

  /** In a well-formed dataset, an entry of a pool comes from one of the pool's categories. */
  lemma PoolEntryGroup(data: KanaData, groups: seq<Group>, e: Entry)
    requires WellFormed(data) && e in Pool(data, groups)
    ensures e.group in groups
  {
    PoolMembers(data, groups, e);
    var g :| g in groups && e in Lookup(data, g);
  }

  /** Removing position k removes one occurrence of its element. */
  lemma RemoveAt<T>(s: seq<T>, k: nat)
    requires k < |s|
    ensures multiset(s[..k] + s[k + 1..]) == multiset(s) - multiset{s[k]}
  {
    assert s == s[..k] + [s[k]] + s[k + 1..];
  }

  /** Matching the first element of a with position k of a permutation b leaves permutations. */
  lemma PermutationRemove<T>(a: seq<T>, b: seq<T>, k: nat)
    requires multiset(a) == multiset(b) && a != [] && k < |b| && b[k] == a[0]
    ensures multiset(a[1..]) == multiset(b[..k] + b[k + 1..])
  {
    RemoveAt(b, k);
    RemoveAt(a, 0);
    assert a[..0] + a[1..] == a[1..];
  }

  /** Two equal elements at two positions make a count of at least two. */
  lemma {:induction false} TwiceCounted<T>(s: seq<T>, i: nat, j: nat)
    requires i < j < |s| && s[i] == s[j]
    ensures multiset(s)[s[i]] >= 2
  {
    assert s == s[..i] + [s[i]] + s[i + 1..j] + [s[j]] + s[j + 1..];
  }

  /** A count of at least two comes from two positions. */
  lemma {:induction false} TwoPositions<T>(s: seq<T>, x: T) returns (p: nat, q: nat)
    requires multiset(s)[x] >= 2
    ensures p < q < |s| && s[p] == x && s[q] == x
  {
    assert s == [s[0]] + s[1..];
    if s[0] == x {
      assert x in multiset(s[1..]);
      var k :| 0 <= k < |s[1..]| && s[1..][k] == x;
      p, q := 0, k + 1;
    } else {
      p, q := TwoPositions(s[1..], x);
      p, q := p + 1, q + 1;
    }
  }

  /** A glyph shared by two positions of a sub-multiset is shared by two positions of the whole. */
  lemma CollisionLifts(a: seq<Entry>, b: seq<Entry>, i: nat, j: nat)
    requires multiset(a) <= multiset(b) && i < j < |a|
    ensures a[i].glyph == a[j].glyph ==>
            exists p, q :: 0 <= p < q < |b| && b[p].glyph == b[q].glyph
  {
    if a[i].glyph == a[j].glyph {
      if a[i] == a[j] {
        TwiceCounted(a, i, j);
        var p, q := TwoPositions(b, a[i]);
        assert b[p].glyph == b[q].glyph;
      } else {
        assert a[i] in multiset(a) && a[j] in multiset(a);
        assert a[i] in b && a[j] in b;
        var p :| 0 <= p < |b| && b[p] == a[i];
        var q :| 0 <= q < |b| && b[q] == a[j];
        if p < q {
          assert b[p].glyph == b[q].glyph;
        } else {
          assert b[q].glyph == b[p].glyph;
        }
      }
    }
  }

  /** Distinct glyphs survive taking a sub-multiset (a sample, a permutation). */
  lemma DistinctGlyphsSub(a: seq<Entry>, b: seq<Entry>)
    requires multiset(a) <= multiset(b) && DistinctGlyphs(b)
    ensures DistinctGlyphs(a)
  {
    forall i, j | 0 <= i < j < |a| ensures a[i].glyph != a[j].glyph {
      CollisionLifts(a, b, i, j);
    }
  }
}
