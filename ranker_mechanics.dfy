/** Scoring for the list-ranking game (server/Games/RankerMechanics.ts):
    reciprocal-rank aggregation, set-overlap evaluation and the list of
    rankable items. */
module RankerMechanics {
  import opened Wrappers
  import opened Lookup

  /** The numerator of a reciprocal-rank contribution. */
  const LAMBDA: real := 10.0
  const SCORE_PER_CORRECT_INCLUSION: int := 75
  const SCORE_PER_CORRECT_POSITION: int := 150

  /** A rank position; the ranking handler only produces `index + 1`. */
  type Position = x: int | x >= 1 witness 1

  datatype RankableItem = RankableItem(id: string, title: string, submittedBy: seq<string>)

  /** One player's placement of one target. */
  datatype ItemRanking = ItemRanking(targetId: string, scorerId: string, value: Position)

  /** One line of `scoreRankings`' result. */
  datatype Entry = Entry(id: string, score: real, rankings: seq<ItemRanking>)

  /** A suggested list: its identity is fixed at construction; its items
      and the id-to-item map grow with `AddItem`. */
  class List {
    const id: string
    const title: string
    const submittedBy: string
    var items: seq<RankableItem>
    var itemToIdMap: map<string, RankableItem>

    /** The map is keyed by item id and only holds listed items; every
        listed item's id is a key. */
    ghost predicate Valid()
      reads this
    {
      && (forall key :: key in itemToIdMap ==> itemToIdMap[key].id == key && itemToIdMap[key] in items)
      && (forall k :: 0 <= k < |items| ==> items[k].id in itemToIdMap)
    }

    constructor(id: string, title: string, submittedBy: string)
      ensures Valid()
      ensures this.id == id && this.title == title && this.submittedBy == submittedBy
      ensures items == [] && itemToIdMap == map[]
    {
      this.id := id;
      this.title := title;
      this.submittedBy := submittedBy;
      items := [];
      itemToIdMap := map[];
    }

    /** `addItem`: the item goes last in `items` and becomes what its id
        looks up to. */
    method AddItem(item: RankableItem)
      requires Valid()
      modifies this
      ensures Valid()
      ensures items == old(items) + [item]
      ensures itemToIdMap == old(itemToIdMap)[item.id := item]
      ensures ItemById(item.id) == Some(item)
    {
      itemToIdMap := itemToIdMap[item.id := item];
      items := items + [item];
    }

    /** `itemById`: the item last added under that id, `undefined` if none. */
    function ItemById(id: string): (r: Option<RankableItem>)
      reads this
      ensures Valid() ==> (r.Some? <==> exists k :: 0 <= k < |items| && items[k].id == id)
      ensures Valid() && r.Some? ==> r.value.id == id && r.value in items
    {
      if id in itemToIdMap then Some(itemToIdMap[id]) else None
    }
  }

  /* ---------------- scoreRankings ---------------- */

  /** What one ranking adds to its target: `LAMBDA / position`. */
  function Contribution(r: ItemRanking): real
  {
    LAMBDA / (r.value as real)
  }

  /** A first place is worth 10, strictly more than any lower place, and
      every place is worth something. */
  lemma FirstPlaceWorthMost(r: ItemRanking)
    ensures 0.0 < Contribution(r) <= LAMBDA
    ensures r.value == 1 <==> Contribution(r) == LAMBDA
  {
    var v := r.value as real;
    assert v >= 1.0;
    assert Contribution(r) * v == LAMBDA;
  }

  /** `reduce((memo, x) => memo + x, 0)` over the contributions. */
  function SumScore(group: seq<ItemRanking>): (r: real)
    ensures r >= 0.0
    ensures r == 0.0 <==> group == []
  {
    if group == [] then 0.0
    else
      FirstPlaceWorthMost(group[|group| - 1]);
      SumScore(group[..|group| - 1]) + Contribution(group[|group| - 1])
  }

  /** Every contribution is in (0, 10], so a group of `n` rankings scores in
      (0, 10n]. */
  lemma {:induction false} SumScoreBounds(group: seq<ItemRanking>)
    ensures 0.0 <= SumScore(group) <= LAMBDA * |group| as real
    ensures group != [] ==> 0.0 < SumScore(group)
  {
    if group != [] {
      SumScoreBounds(group[..|group| - 1]);
      FirstPlaceWorthMost(group[|group| - 1]);
    }
  }

  /** The rankings of one target, in input order (one group of `groupBy`). */
  function GroupOf(rs: seq<ItemRanking>, id: string): (g: seq<ItemRanking>)
    ensures |g| <= |rs|
    ensures forall k :: 0 <= k < |g| ==> g[k].targetId == id && g[k] in rs
    ensures forall k :: 0 <= k < |rs| && rs[k].targetId == id ==> rs[k] in g
  {
    if rs == [] then []
    else
      var last := rs[|rs| - 1];
      var front := rs[..|rs| - 1];
      assert rs == front + [last];
      GroupOf(front, id) + (if last.targetId == id then [last] else [])
  }

  /** A group of `groupBy` is the `filter` of the rankings by their target. */
  lemma {:induction false} GroupOfIsFilter(rs: seq<ItemRanking>, id: string)
    ensures GroupOf(rs, id) == Filter(rs, (r: ItemRanking) => r.targetId == id)
  {
    if rs != [] {
      GroupOfIsFilter(rs[..|rs| - 1], id);
    }
  }

  /** A group keeps input order: the group of a concatenation is the
      concatenation of the groups. */
  lemma GroupOfAppend(a: seq<ItemRanking>, b: seq<ItemRanking>, id: string)
    ensures GroupOf(a + b, id) == GroupOf(a, id) + GroupOf(b, id)
  {
    GroupOfIsFilter(a + b, id);
    GroupOfIsFilter(a, id);
    GroupOfIsFilter(b, id);
    FilterAppend(a, b, (r: ItemRanking) => r.targetId == id);
  }

  /** A group holds each ranking of its target as often as the input does,
      and no ranking of another target. */
  lemma GroupOfMultiplicity(rs: seq<ItemRanking>, id: string)
    ensures forall k :: 0 <= k < |rs| ==>
      multiset(GroupOf(rs, id))[rs[k]] == if rs[k].targetId == id then multiset(rs)[rs[k]] else 0
  {
    GroupOfIsFilter(rs, id);
    FilterMultiplicity(rs, (r: ItemRanking) => r.targetId == id);
  }

  /** The keys of `groupBy`: each target once, by first occurrence. */
  function Targets(rs: seq<ItemRanking>): (ts: seq<string>)
    ensures forall i, j :: 0 <= i < j < |ts| ==> ts[i] != ts[j]
    ensures forall id :: id in ts <==> exists k :: 0 <= k < |rs| && rs[k].targetId == id
  {
    if rs == [] then []
    else
      var front := rs[..|rs| - 1];
      var t := Targets(front);
      assert forall k :: 0 <= k < |front| ==> front[k] == rs[k];
      if rs[|rs| - 1].targetId in t then t else t + [rs[|rs| - 1].targetId]
  }

  /** The line for one target before sorting. */
  function EntryFor(rs: seq<ItemRanking>, id: string): Entry
  {
    Entry(id, SumScore(GroupOf(rs, id)), GroupOf(rs, id))
  }

  /** One line per target, in key order. */
  function Grouped(rs: seq<ItemRanking>): (es: seq<Entry>)
    ensures |es| == |Targets(rs)|
    ensures forall k :: 0 <= k < |es| ==> es[k] == EntryFor(rs, Targets(rs)[k])
  {
    var ts := Targets(rs);
    seq(|ts|, k requires 0 <= k < |ts| => EntryFor(rs, ts[k]))
  }

  ghost predicate SortedDesc(es: seq<Entry>)
  {
    forall i, j :: 0 <= i < j < |es| ==> es[i].score >= es[j].score
  }

  ghost predicate DistinctIds(es: seq<Entry>)
  {
    forall i, j :: 0 <= i < j < |es| ==> es[i].id != es[j].id
  }

  /** Inserts `e` before the first line that does not score more, so `e`
      goes ahead of the lines it ties with. */
  function Insert(e: Entry, xs: seq<Entry>): (r: seq<Entry>)
    ensures |r| == |xs| + 1
    ensures multiset(r) == multiset(xs) + multiset{e}
  {
    if xs == [] || e.score >= xs[0].score then [e] + xs
    else
      assert xs == [xs[0]] + xs[1..];
      [xs[0]] + Insert(e, xs[1..])
  }

  /** Every line of `Insert(e, xs)` is `e` or a line of `xs`. */
  lemma InsertMembers(e: Entry, xs: seq<Entry>, x: Entry)
    requires x in Insert(e, xs)
    ensures x == e || x in xs
  {
    assert x in multiset(Insert(e, xs));
  }

  lemma {:induction false} InsertSorted(e: Entry, xs: seq<Entry>)
    requires SortedDesc(xs)
    ensures SortedDesc(Insert(e, xs))
  {
    if xs != [] && e.score < xs[0].score {
      var rest := Insert(e, xs[1..]);
      InsertSorted(e, xs[1..]);
      forall j | 0 <= j < |rest| ensures xs[0].score >= rest[j].score {
        InsertMembers(e, xs[1..], rest[j]);
      }
    }
  }

  lemma {:induction false} InsertDistinct(e: Entry, xs: seq<Entry>)
    requires DistinctIds(xs)
    requires forall k :: 0 <= k < |xs| ==> xs[k].id != e.id
    ensures DistinctIds(Insert(e, xs))
  {
    if xs != [] && e.score < xs[0].score {
      var rest := Insert(e, xs[1..]);
      InsertDistinct(e, xs[1..]);
      forall j | 0 <= j < |rest| ensures xs[0].id != rest[j].id {
        InsertMembers(e, xs[1..], rest[j]);
      }
    }
  }

  /** The descending sort by score (`sort((a, b) => b.score - a.score)`),
      stable: see `SortByScoreHeadIsFirstBest` for the tie at the top. */
  function SortByScore(es: seq<Entry>): (r: seq<Entry>)
    ensures |r| == |es|
    ensures multiset(r) == multiset(es)
  {
    if es == [] then []
    else
      assert es == [es[0]] + es[1..];
      Insert(es[0], SortByScore(es[1..]))
  }

  /** The sort yields non-increasing scores and keeps ids distinct. */
  lemma {:induction false} SortByScoreSorted(es: seq<Entry>)
    ensures SortedDesc(SortByScore(es))
    ensures DistinctIds(es) ==> DistinctIds(SortByScore(es))
  {
    if es != [] {
      var rest := SortByScore(es[1..]);
      SortByScoreSorted(es[1..]);
      InsertSorted(es[0], rest);
      if DistinctIds(es) {
        forall k | 0 <= k < |rest| ensures rest[k].id != es[0].id {
          assert rest[k] in multiset(es[1..]);
        }
        InsertDistinct(es[0], rest);
      }
    }
  }

  /** `scoreRankings`: per target the sum of `LAMBDA / position`, highest
      first. */
  function ScoreRankings(rs: seq<ItemRanking>): (r: seq<Entry>)
    ensures |r| == |Targets(rs)|
    ensures r == [] <==> rs == []
    ensures multiset(r) == multiset(Grouped(rs))
  {
    assert rs != [] ==> rs[0].targetId in Targets(rs);
    SortByScore(Grouped(rs))
  }

  /** One line per distinct target, each holding exactly that target's
      rankings in input order and their summed score; no rankings, no
      lines. */
  lemma ScoreRankingsEntries(rs: seq<ItemRanking>)
    ensures |ScoreRankings(rs)| == |Targets(rs)|
    ensures rs == [] ==> ScoreRankings(rs) == []
    ensures forall i :: 0 <= i < |ScoreRankings(rs)| ==>
      ScoreRankings(rs)[i] == EntryFor(rs, ScoreRankings(rs)[i].id)
    ensures DistinctIds(ScoreRankings(rs))
  {
    var g := Grouped(rs);
    var r := ScoreRankings(rs);
    SortByScoreSorted(g);
    forall i | 0 <= i < |r| ensures r[i] == EntryFor(rs, r[i].id) {
      assert r[i] in multiset(g);
    }
  }

  /** Every ranked target has a line. */
  lemma ScoreRankingsCovers(rs: seq<ItemRanking>, k: nat)
    requires k < |rs|
    ensures exists i :: 0 <= i < |ScoreRankings(rs)| && ScoreRankings(rs)[i].id == rs[k].targetId
  {
    var g := Grouped(rs);
    var ts := Targets(rs);
    assert rs[k].targetId in ts;
    var j :| 0 <= j < |ts| && ts[j] == rs[k].targetId;
    assert g[j].id == rs[k].targetId;
    assert g[j] in multiset(ScoreRankings(rs));
  }

  /** Every line is a ranked target. */
  lemma ScoreRankingsOnlyRanked(rs: seq<ItemRanking>, i: nat)
    requires i < |ScoreRankings(rs)|
    ensures exists k :: 0 <= k < |rs| && rs[k].targetId == ScoreRankings(rs)[i].id
  {
    var g := Grouped(rs);
    var e := ScoreRankings(rs)[i];
    assert e in multiset(g);
    var j :| 0 <= j < |g| && g[j] == e;
    assert Targets(rs)[j] in Targets(rs);
  }

  /** The lines come highest score first. */
  lemma ScoreRankingsSorted(rs: seq<ItemRanking>)
    ensures SortedDesc(ScoreRankings(rs))
  {
    SortByScoreSorted(Grouped(rs));
  }

  /** The first line's target has the highest aggregate score of every
      ranked target. */
  lemma ScoreRankingsHeadIsBest(rs: seq<ItemRanking>)
    requires rs != []
    ensures ScoreRankings(rs) != []
    ensures forall k :: 0 <= k < |rs| ==>
      SumScore(GroupOf(rs, ScoreRankings(rs)[0].id)) >= SumScore(GroupOf(rs, rs[k].targetId))
  {
    var s := ScoreRankings(rs);
    ScoreRankingsEntries(rs);
    ScoreRankingsSorted(rs);
    ScoreRankingsCovers(rs, 0);
    forall k | 0 <= k < |rs|
      ensures SumScore(GroupOf(rs, s[0].id)) >= SumScore(GroupOf(rs, rs[k].targetId))
    {
      ScoreRankingsCovers(rs, k);
      var i :| 0 <= i < |s| && s[i].id == rs[k].targetId;
      assert s[i] == EntryFor(rs, s[i].id);
      assert s[0] == EntryFor(rs, s[0].id);
      assert s[0].score >= s[i].score;
    }
  }

  /** `k` is the earliest line of `es` with the top score. */
  ghost predicate FirstBest(es: seq<Entry>, k: int)
  {
    && 0 <= k < |es|
    && (forall j :: 0 <= j < |es| ==> es[j].score <= es[k].score)
    && (forall j :: 0 <= j < k ==> es[j].score < es[k].score)
  }

  /** The head of an insertion: `e` unless the first line scores more. */
  lemma InsertHead(e: Entry, xs: seq<Entry>)
    ensures Insert(e, xs)[0] == if xs == [] || e.score >= xs[0].score then e else xs[0]
  {
  }

  /** Putting `e` in front of `rest` keeps the earliest top line: `e` if it
      scores at least as much, otherwise the one of `rest`, one place on. */
  lemma FirstBestCons(e: Entry, rest: seq<Entry>, k: int)
    requires FirstBest(rest, k)
    ensures e.score >= rest[k].score ==> FirstBest([e] + rest, 0)
    ensures e.score < rest[k].score ==> FirstBest([e] + rest, k + 1)
  {
    var es := [e] + rest;
    forall j | 1 <= j < |es| ensures es[j] == rest[j - 1] { }
  }

  /** Ties at the top go to the earlier line: the head of the sort is the
      first line of the input with the highest score. */
  lemma {:induction false} SortByScoreHeadIsFirstBest(es: seq<Entry>)
    requires es != []
    ensures exists k :: FirstBest(es, k) && SortByScore(es)[0] == es[k]
  {
    var rest := es[1..];
    assert es == [es[0]] + rest;
    InsertHead(es[0], SortByScore(rest));
    if rest == [] {
      assert FirstBest(es, 0);
    } else {
      SortByScoreHeadIsFirstBest(rest);
      var k :| FirstBest(rest, k) && SortByScore(rest)[0] == rest[k];
      FirstBestCons(es[0], rest, k);
      if es[0].score < rest[k].score {
        assert es[k + 1] == rest[k];
      }
    }
  }

  /** On a tie for the top score, `scoreRankings` lists first the target
      that comes first among the group keys. */
  lemma ScoreRankingsHeadIsFirstBest(rs: seq<ItemRanking>)
    requires rs != []
    ensures exists k :: FirstBest(Grouped(rs), k) && ScoreRankings(rs)[0] == Grouped(rs)[k]
  {
    assert rs[0].targetId in Targets(rs);
    SortByScoreHeadIsFirstBest(Grouped(rs));
  }

  /* ---------------- evaluateSets ---------------- */

  /** The per-position tag of `evaluateSets`. */
  datatype Verdict = Correct | Misplaced | Incorrect

  /** `findIndex(equals(target))`: the first position of `target`, or -1. */
  function IndexOf(s: seq<string>, target: string): (r: int)
    ensures -1 <= r < |s|
    ensures r >= 0 ==> s[r] == target && target !in s[..r]
    ensures r == -1 <==> target !in s
  {
    FindIndex(s, (x: string) => x == target)
  }

  /** The tag of position `index`, decided by where its target first occurs
      in `supplied`. */
  function VerdictAt(correct: seq<string>, supplied: seq<string>, index: nat): Verdict
    requires index < |correct|
  {
    var found := IndexOf(supplied, correct[index]);
    if found == -1 then Incorrect
    else if found == index then Correct
    else Misplaced
  }

  function Points(v: Verdict): int
  {
    match v
    case Correct => SCORE_PER_CORRECT_INCLUSION + SCORE_PER_CORRECT_POSITION
    case Misplaced => SCORE_PER_CORRECT_INCLUSION
    case Incorrect => 0
  }

  function TotalPoints(vs: seq<Verdict>): int
  {
    if vs == [] then 0 else TotalPoints(vs[..|vs| - 1]) + Points(vs[|vs| - 1])
  }

  function CountOf(vs: seq<Verdict>, v: Verdict): nat
  {
    if vs == [] then 0
    else CountOf(vs[..|vs| - 1], v) + (if vs[|vs| - 1] == v then 1 else 0)
  }

  /** The score is 225 per correct and 75 per misplaced position, so it lies
      between 0 and 225 per position. */
  lemma {:induction false} TotalPointsCounts(vs: seq<Verdict>)
    ensures TotalPoints(vs) == 225 * CountOf(vs, Correct) + 75 * CountOf(vs, Misplaced)
    ensures 0 <= TotalPoints(vs) <= 225 * |vs|
  {
    if vs != [] {
      TotalPointsCounts(vs[..|vs| - 1]);
    }
  }

  lemma PointsAppend(vs: seq<Verdict>, v: Verdict)
    ensures TotalPoints(vs + [v]) == TotalPoints(vs) + Points(v)
  {
    assert (vs + [v])[..|vs|] == vs;
  }

  lemma VerdictsAppend(correct: seq<string>, supplied: seq<string>, vs: seq<Verdict>, v: Verdict)
    requires |vs| < |correct|
    requires forall i :: 0 <= i < |vs| ==> vs[i] == VerdictAt(correct, supplied, i)
    requires v == VerdictAt(correct, supplied, |vs|)
    ensures forall i :: 0 <= i <= |vs| ==> (vs + [v])[i] == VerdictAt(correct, supplied, i)
  {
  }

  /** `evaluateSets`: tags every position of `correct` (given by target id)
      and accumulates the score as it goes. */
  method EvaluateSets(correct: seq<string>, supplied: seq<string>)
    returns (score: int, summary: seq<Verdict>)
    ensures |summary| == |correct|
    ensures forall i :: 0 <= i < |correct| ==> summary[i] == VerdictAt(correct, supplied, i)
    ensures score == TotalPoints(summary)
    ensures score == 225 * CountOf(summary, Correct) + 75 * CountOf(summary, Misplaced)
  {
    score := 0;
    summary := [];
    var index := 0;
    while index < |correct|
      invariant 0 <= index <= |correct| && |summary| == index
      invariant forall i :: 0 <= i < index ==> summary[i] == VerdictAt(correct, supplied, i)
      invariant score == TotalPoints(summary)
    {
      var targetId := correct[index];
      var indexInSupplied := IndexOf(supplied, targetId);
      var v;
      if indexInSupplied == -1 {
        v := Incorrect;
      } else if indexInSupplied == index {
        score := score + SCORE_PER_CORRECT_INCLUSION + SCORE_PER_CORRECT_POSITION;
        v := Correct;
      } else {
        score := score + SCORE_PER_CORRECT_INCLUSION;
        v := Misplaced;
      }
      assert v == VerdictAt(correct, supplied, index);
      VerdictsAppend(correct, supplied, summary, v);
      PointsAppend(summary, v);
      summary := summary + [v];
      index := index + 1;
    }
    TotalPointsCounts(summary);
  }

  /** The tags of every position, as `evaluateSets` returns them. */
  function Summary(correct: seq<string>, supplied: seq<string>): (vs: seq<Verdict>)
    ensures |vs| == |correct|
    ensures forall i :: 0 <= i < |correct| ==> vs[i] == VerdictAt(correct, supplied, i)
  {
    seq(|correct|, i requires 0 <= i < |correct| => VerdictAt(correct, supplied, i))
  }

  /** A submission sharing no target with the answer scores 0. */
  lemma {:induction false} DisjointScoresZero(correct: seq<string>, supplied: seq<string>)
    requires forall i, j :: 0 <= i < |correct| && 0 <= j < |supplied| ==> correct[i] != supplied[j]
    ensures TotalPoints(Summary(correct, supplied)) == 0
  {
    AllIncorrectScoresZero(Summary(correct, supplied));
  }

  lemma {:induction false} AllIncorrectScoresZero(vs: seq<Verdict>)
    requires forall i :: 0 <= i < |vs| ==> vs[i] == Incorrect
    ensures TotalPoints(vs) == 0
  {
    if vs != [] {
      AllIncorrectScoresZero(vs[..|vs| - 1]);
    }
  }

  /** Submitting the answer itself, with distinct targets, scores 225 per
      position. */
  lemma ExactAnswerScoresFull(correct: seq<string>)
    requires forall i, j :: 0 <= i < j < |correct| ==> correct[i] != correct[j]
    ensures TotalPoints(Summary(correct, correct)) == 225 * |correct|
  {
    var vs := Summary(correct, correct);
    forall i | 0 <= i < |correct| ensures vs[i] == Correct {
      var found := IndexOf(correct, correct[i]);
      assert found != -1;
      assert found == i;
    }
    AllCorrectScoresFull(vs);
  }

  lemma {:induction false} AllCorrectScoresFull(vs: seq<Verdict>)
    requires forall i :: 0 <= i < |vs| ==> vs[i] == Correct
    ensures TotalPoints(vs) == 225 * |vs|
  {
    if vs != [] {
      AllCorrectScoresFull(vs[..|vs| - 1]);
    }
  }

  /** A submission that contains every target of the answer earns at least
      the inclusion points for every position. */
  lemma CompleteSubmissionEarnsInclusion(correct: seq<string>, supplied: seq<string>)
    requires forall i :: 0 <= i < |correct| ==> correct[i] in supplied
    ensures TotalPoints(Summary(correct, supplied)) >= 75 * |correct|
  {
    var vs := Summary(correct, supplied);
    forall i | 0 <= i < |correct| ensures vs[i] != Incorrect {
      var j :| 0 <= j < |supplied| && supplied[j] == correct[i];
      assert IndexOf(supplied, correct[i]) != -1;
    }
    TotalPointsCounts(vs);
    NoIncorrectCounts(vs);
  }

  lemma {:induction false} NoIncorrectCounts(vs: seq<Verdict>)
    requires forall i :: 0 <= i < |vs| ==> vs[i] != Incorrect
    ensures CountOf(vs, Correct) + CountOf(vs, Misplaced) == |vs|
  {
    if vs != [] {
      NoIncorrectCounts(vs[..|vs| - 1]);
    }
  }
}
