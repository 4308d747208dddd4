/** Top-k retrieval and recall, with scores from a totally ordered type. */
module Retrieval {
  import opened Basics
  import opened Vectors

  datatype Scored = Scored(path: string, start: nat, end: nat, content: string, score: real)

  predicate Descending(xs: seq<Scored>) {
    forall i, j :: 0 <= i < j < |xs| ==> xs[i].score >= xs[j].score
  }

  /** The chunks of one score, in order: what a stable sort must not disturb. */
  function WithScore(xs: seq<Scored>, v: real): seq<Scored> {
    if xs == [] then []
    else WithScore(xs[..|xs| - 1], v) + if xs[|xs| - 1].score == v then [xs[|xs| - 1]] else []
  }

  /** sorted is what a stable descending sort makes of xs. */
  ghost predicate StablySorted(sorted: seq<Scored>, xs: seq<Scored>) {
    Descending(sorted) && forall v: real :: WithScore(sorted, v) == WithScore(xs, v)
  }

  /** Insert after every chunk that scores at least as much. */
  function Insert(sorted: seq<Scored>, x: Scored): (r: seq<Scored>)
    ensures |r| == |sorted| + 1
  {
    if sorted == [] || sorted[|sorted| - 1].score >= x.score then sorted + [x]
    else Insert(sorted[..|sorted| - 1], x) + [sorted[|sorted| - 1]]
  }

  function StableSort(xs: seq<Scored>): (r: seq<Scored>)
    ensures |r| == |xs|
  {
    if xs == [] then [] else Insert(StableSort(xs[..|xs| - 1]), xs[|xs| - 1])
  }

  lemma WithScoreSnoc(xs: seq<Scored>, x: Scored, v: real)
    ensures WithScore(xs + [x], v) == WithScore(xs, v) + if x.score == v then [x] else []
  {
    assert (xs + [x])[..|xs|] == xs;
  }

  lemma {:induction false} WithScoreAbsent(xs: seq<Scored>, v: real)
    requires forall i :: 0 <= i < |xs| ==> xs[i].score != v
    ensures WithScore(xs, v) == []
    decreases |xs|
  {
    if xs != [] {
      WithScoreAbsent(xs[..|xs| - 1], v);
    }
  }

  lemma DescendingSnoc(xs: seq<Scored>, x: Scored)
    requires Descending(xs) && (xs != [] ==> xs[|xs| - 1].score >= x.score)
    ensures Descending(xs + [x])
  {
  }

  lemma {:induction false} InsertDescends(sorted: seq<Scored>, x: Scored)
    requires Descending(sorted)
    ensures Descending(Insert(sorted, x))
    decreases |sorted|
  {
    if sorted == [] || sorted[|sorted| - 1].score >= x.score {
      DescendingSnoc(sorted, x);
    } else {
      var init, last := sorted[..|sorted| - 1], sorted[|sorted| - 1];
      InsertDescends(init, x);
      var r := Insert(init, x);
      assert r[|r| - 1] == x || (init != [] && r[|r| - 1] == init[|init| - 1]);
      DescendingSnoc(r, last);
    }
  }

  /** Insertion puts x last among the chunks of its score, and moves no other score's chunks. */
  lemma {:induction false} InsertKeepsScores(sorted: seq<Scored>, x: Scored, v: real)
    ensures WithScore(Insert(sorted, x), v) == WithScore(sorted + [x], v)
    decreases |sorted|
  {
    if sorted != [] && sorted[|sorted| - 1].score < x.score {
      var init, last := sorted[..|sorted| - 1], sorted[|sorted| - 1];
      assert Insert(sorted, x) == Insert(init, x) + [last];
      assert sorted == init + [last];
      hide Insert, WithScore;
      InsertKeepsScores(init, x, v);
      WithScoreSnoc(Insert(init, x), last, v);
      WithScoreSnoc(init, x, v);
      WithScoreSnoc(init, last, v);
      WithScoreSnoc(sorted, x, v);
    }
  }

  /** Sorting descends and is stable: among equal scores the original order is kept. */
  lemma {:induction false} SortIsStable(xs: seq<Scored>)
    ensures StablySorted(StableSort(xs), xs)
    decreases |xs|
  {
    if xs != [] {
      var init, last := xs[..|xs| - 1], xs[|xs| - 1];
      assert xs == init + [last];
      SortIsStable(init);
      InsertDescends(StableSort(init), last);
      forall v: real
        ensures WithScore(StableSort(xs), v) == WithScore(xs, v)
      {
        assert StableSort(xs) == Insert(StableSort(init), last);
        hide StableSort, Insert, WithScore, Descending;
        InsertKeepsScores(StableSort(init), last, v);
        WithScoreSnoc(StableSort(init), last, v);
        WithScoreSnoc(init, last, v);
      }
    }
  }

  lemma {:induction false} LastOfScore(xs: seq<Scored>, v: real)
    requires WithScore(xs, v) != []
    ensures exists i :: 0 <= i < |xs| && xs[i].score == v
    decreases |xs|
  {
    if xs[|xs| - 1].score != v {
      LastOfScore(xs[..|xs| - 1], v);
    }
  }

  ghost predicate SameByScore(a: seq<Scored>, b: seq<Scored>) {
    forall v: real :: WithScore(a, v) == WithScore(b, v)
  }

  /** The last chunk of one arrangement scores no lower than some chunk of the other. */
  lemma LastScoreIsHeld(a: seq<Scored>, b: seq<Scored>)
    requires Descending(b) && SameByScore(a, b) && a != []
    ensures b != [] && b[|b| - 1].score <= a[|a| - 1].score
  {
    var v := a[|a| - 1].score;
    assert WithScore(b, v) == WithScore(a, v) != [];
    LastOfScore(b, v);
  }

  lemma SameByScoreInit(a: seq<Scored>, b: seq<Scored>, x: Scored, y: Scored)
    requires SameByScore(a + [x], b + [y]) && x.score == y.score
    ensures x == y && SameByScore(a, b)
  {
    hide WithScore;
    var p, q := a + [x], b + [y];
    assert x == y by {
      WithScoreSnoc(a, x, x.score);
      WithScoreSnoc(b, y, x.score);
      assert WithScore(p, x.score) == WithScore(q, x.score);
      LastOf(WithScore(a, x.score), x, WithScore(b, x.score), y);
    }
    forall v: real
      ensures WithScore(a, v) == WithScore(b, v)
    {
      WithScoreSnoc(a, x, v);
      WithScoreSnoc(b, y, v);
      assert WithScore(p, v) == WithScore(q, v);
      if x.score == v {
        LastOf(WithScore(a, v), x, WithScore(b, v), y);
      } else {
        assert WithScore(a, v) + [] == WithScore(a, v) && WithScore(b, v) + [] == WithScore(b, v);
      }
    }
  }

  lemma LastOf(a: seq<Scored>, x: Scored, b: seq<Scored>, y: Scored)
    requires a + [x] == b + [y]
    ensures a == b && x == y
  {
    assert (a + [x])[|a|] == (b + [y])[|a|];
    assert a == (a + [x])[..|a|] == (b + [y])[..|a|] == b;
  }

  /** There is only one stable descending arrangement, so any stable sort returns this one. */
  lemma {:induction false} StableSortIsUnique(a: seq<Scored>, b: seq<Scored>)
    requires Descending(a) && Descending(b) && SameByScore(a, b)
    ensures a == b
    decreases |a|
  {
    if a == [] && b != [] {
      LastScoreIsHeld(b, a);
    } else if a != [] {
      LastScoreIsHeld(a, b);
      LastScoreIsHeld(b, a);
      var a', b' := a[..|a| - 1], b[..|b| - 1];
      assert a == a' + [a[|a| - 1]] && b == b' + [b[|b| - 1]];
      SameByScoreInit(a', b', a[|a| - 1], b[|b| - 1]);
      StableSortIsUnique(a', b');
    }
  }

  function TopK(xs: seq<Scored>, k: int): (r: seq<Scored>) {
    if k <= 0 then [] else StableSort(xs)[..if k > |xs| then |xs| else k]
  }

  // ------------------------------------------------------ what a ranking picks

  /** order lists positions of xs, each at most once. */
  predicate Positions(order: seq<nat>, n: nat) {
    && (forall i :: 0 <= i < |order| ==> order[i] < n)
    && (forall i, j :: 0 <= i < j < |order| ==> order[i] != order[j])
  }

  /** order lists every position of xs. */
  predicate Onto(order: seq<nat>, n: nat) {
    forall q: nat :: q < n ==> q in order
  }

  predicate Arranged(xs: seq<Scored>, order: seq<nat>, sorted: seq<Scored>) {
    && |order| == |sorted|
    && forall i :: 0 <= i < |order| ==> order[i] < |xs| && sorted[i] == xs[order[i]]
  }

  predicate Ordered(xs: seq<Scored>, order: seq<nat>) {
    forall i, j :: 0 <= i < j < |order| ==> order[i] != order[j] && Precedes(xs, order[i], order[j])
  }

  /** sorted is xs in the given order, all of it, best first and ties as they were. */
  predicate Ranks(xs: seq<Scored>, order: seq<nat>, sorted: seq<Scored>) {
    |sorted| == |xs| && Arranged(xs, order, sorted) && Onto(order, |xs|) && Ordered(xs, order)
  }

  /** Position p goes before q: a higher score, or the same and an earlier row. */
  predicate Precedes(xs: seq<Scored>, p: nat, q: nat) {
    && p < |xs| && q < |xs|
    && (xs[p].score > xs[q].score || (xs[p].score == xs[q].score && p < q))
  }

  /** Where insertion puts x: after all that score at least as much, before all that score less. */
  lemma {:induction false} InsertedAt(sorted: seq<Scored>, x: Scored) returns (at: nat)
    requires Descending(sorted)
    ensures at <= |sorted| && Insert(sorted, x) == sorted[..at] + [x] + sorted[at..]
    ensures forall i :: 0 <= i < at ==> sorted[i].score >= x.score
    ensures forall i :: at <= i < |sorted| ==> sorted[i].score < x.score
    decreases |sorted|
  {
    if sorted == [] || sorted[|sorted| - 1].score >= x.score {
      at := |sorted|;
      assert sorted[..at] + [x] + sorted[at..] == sorted + [x];
    } else {
      var init, last := sorted[..|sorted| - 1], sorted[|sorted| - 1];
      at := InsertedAt(init, x);
      assert init[..at] == sorted[..at] && init[at..] + [last] == sorted[at..];
      assert init[..at] + [x] + init[at..] + [last] == sorted[..at] + [x] + sorted[at..];
    }
  }

  lemma OntoGrows(order: seq<nat>, n: nat, at: nat)
    requires Onto(order, n) && at <= |order|
    ensures Onto(order[..at] + [n] + order[at..], n + 1)
  {
    var os := order[..at] + [n] + order[at..];
    assert os[at] == n;
    forall q: nat | q < n
      ensures q in os
    {
      assert q in order && order == order[..at] + order[at..];
    }
  }

  lemma ArrangedGrows(xs: seq<Scored>, x: Scored, order: seq<nat>, sorted: seq<Scored>, at: nat)
    requires Arranged(xs, order, sorted) && at <= |sorted|
    ensures Arranged(xs + [x], order[..at] + [|xs|] + order[at..], sorted[..at] + [x] + sorted[at..])
  {
  }

  /** Inserting the newest position keeps a ranking a ranking. */
  lemma RankingGrows(xs: seq<Scored>, x: Scored, order: seq<nat>, sorted: seq<Scored>, at: nat)
    requires Ranks(xs, order, sorted) && at <= |sorted|
    requires forall i :: 0 <= i < at ==> sorted[i].score >= x.score
    requires forall i :: at <= i < |sorted| ==> sorted[i].score < x.score
    ensures Ranks(xs + [x], order[..at] + [|xs|] + order[at..], sorted[..at] + [x] + sorted[at..])
  {
    assert |order| == |sorted|;
    hide Onto, Arranged, Precedes;
    OntoGrows(order, |xs|, at);
    ArrangedGrows(xs, x, order, sorted, at);
    var os := order[..at] + [|xs|] + order[at..];
    forall i, j | 0 <= i < j < |os|
      ensures os[i] != os[j] && Precedes(xs + [x], os[i], os[j])
    {
      RankedPair(xs, x, order, sorted, at, i, j);
    }
  }

  lemma RankedPair(xs: seq<Scored>, x: Scored, order: seq<nat>, sorted: seq<Scored>, at: nat, i: nat, j: nat)
    requires Ranks(xs, order, sorted) && at <= |sorted| && i < j <= |order|
    requires forall i :: 0 <= i < at ==> sorted[i].score >= x.score
    requires forall i :: at <= i < |sorted| ==> sorted[i].score < x.score
    ensures var os := order[..at] + [|xs|] + order[at..];
      os[i] != os[j] && Precedes(xs + [x], os[i], os[j])
  {
    hide Onto;
    var os := order[..at] + [|xs|] + order[at..];
    var p, q := if i < at then i else i - 1, if j < at then j else j - 1;
    if i == at {
      assert os[j] == order[q] && sorted[q] == xs[order[q]];
    } else if j == at {
      assert os[i] == order[p] && sorted[p] == xs[order[p]];
    } else {
      assert os[i] == order[p] && os[j] == order[q];
      assert Precedes(xs, order[p], order[q]);
    }
  }

  lemma RankLength(xs: seq<Scored>, order: seq<nat>, sorted: seq<Scored>)
    requires Ranks(xs, order, sorted)
    ensures |order| == |sorted| == |xs|
  {
  }

  lemma SortDescends(xs: seq<Scored>)
    ensures Descending(StableSort(xs))
  {
    SortIsStable(xs);
  }

  lemma InsertRanks(xs: seq<Scored>, x: Scored, before: seq<nat>, sorted: seq<Scored>) returns (order: seq<nat>)
    requires Ranks(xs, before, sorted) && Descending(sorted)
    ensures Ranks(xs + [x], order, Insert(sorted, x))
  {
    hide Insert, Ranks, Descending;
    var at := InsertedAt(sorted, x);
    RankLength(xs, before, sorted);
    RankingGrows(xs, x, before, sorted, at);
    order := before[..at] + [|xs|] + before[at..];
  }

  /** The sort is a ranking of its input. */
  lemma {:induction false} SortRanks(xs: seq<Scored>) returns (order: seq<nat>)
    ensures Ranks(xs, order, StableSort(xs))
    decreases |xs|
  {
    if xs == [] {
      order := [];
    } else {
      var init, last := xs[..|xs| - 1], xs[|xs| - 1];
      assert xs == init + [last] && StableSort(xs) == Insert(StableSort(init), last);
      hide StableSort, Insert, Ranks, WithScore, Descending, StablySorted;
      var before := SortRanks(init);
      SortDescends(init);
      order := InsertRanks(init, last, before, StableSort(init));
    }
  }

  /**
   * result is the k best of rows under score: that many distinct rows, each with only its
   * score filled in, best first and ties in row order, and no row left out precedes one taken.
   */
  ghost predicate KBest(rows: seq<Scored>, score: Scored -> real, k: nat, picks: seq<nat>, result: seq<Scored>) {
    && |result| == |picks| == (if k < |rows| then k else |rows|)
    && Positions(picks, |rows|)
    && (forall i :: 0 <= i < |picks| ==> result[i] == rows[picks[i]].(score := score(rows[picks[i]])))
    && (forall i, j :: 0 <= i < j < |picks| ==> Better(rows, score, picks[i], picks[j]))
    && (forall i, q: nat :: 0 <= i < |picks| && q < |rows| && q !in picks ==> Better(rows, score, picks[i], q))
  }

  ghost predicate Better(rows: seq<Scored>, score: Scored -> real, p: nat, q: nat) {
    && p < |rows| && q < |rows|
    && (score(rows[p]) > score(rows[q]) || (score(rows[p]) == score(rows[q]) && p < q))
  }

  ghost predicate IsKBest(rows: seq<Scored>, score: Scored -> real, k: nat, result: seq<Scored>) {
    exists picks :: KBest(rows, score, k, picks, result)
  }

  /** scored is rows with only the scores filled in. */
  predicate Filled(rows: seq<Scored>, f: Scored -> real, scored: seq<Scored>) {
    |scored| == |rows| && forall i :: 0 <= i < |rows| ==> scored[i] == rows[i].(score := f(rows[i]))
  }

  lemma PrecedesIsBetter(rows: seq<Scored>, scored: seq<Scored>, f: Scored -> real, p: nat, q: nat)
    requires Filled(rows, f, scored) && Precedes(scored, p, q)
    ensures Better(rows, f, p, q)
  {
  }

  lemma NotTaken(order: seq<nat>, m: nat, j: nat)
    requires m <= |order| && j < |order| && order[j] !in order[..m]
    ensures m <= j
  {
  }

  /** What a ranking leaves out after m is no better than what it took. */
  lemma LeftOutIsWorse(rows: seq<Scored>, scored: seq<Scored>, f: Scored -> real, order: seq<nat>,
                       m: nat, i: nat, q: nat)
    requires Filled(rows, f, scored) && Ordered(scored, order) && Onto(order, |rows|)
    requires i < m <= |order| && q < |rows| && q !in order[..m]
    ensures Better(rows, f, order[i], q)
  {
    assert q in order;
    var j :| 0 <= j < |order| && order[j] == q;
    NotTaken(order, m, j);
    PrecedesIsBetter(rows, scored, f, order[i], order[j]);
  }

  lemma RankingIsBest(rows: seq<Scored>, scored: seq<Scored>, f: Scored -> real, order: seq<nat>, k: nat)
    requires Filled(rows, f, scored) && Ranks(scored, order, StableSort(scored)) && 0 < k
    ensures IsKBest(rows, f, k, StableSort(scored)[..if k < |rows| then k else |rows|])
  {
    var sorted, m := StableSort(scored), if k < |rows| then k else |rows|;
    RankLength(scored, order, sorted);
    hide StableSort, Onto, Precedes, Better, Filled;
    var picks := order[..m];
    PicksAreScored(rows, scored, f, order, sorted, m);
    forall i, j | 0 <= i < j < m
      ensures Better(rows, f, picks[i], picks[j])
    {
      PrecedesIsBetter(rows, scored, f, order[i], order[j]);
    }
    forall i, q: nat | 0 <= i < m && q < |rows| && q !in picks
      ensures Better(rows, f, picks[i], q)
    {
      LeftOutIsWorse(rows, scored, f, order, m, i, q);
    }
    assert KBest(rows, f, k, picks, sorted[..m]);
  }

  lemma PicksAreScored(rows: seq<Scored>, scored: seq<Scored>, f: Scored -> real, order: seq<nat>,
                       sorted: seq<Scored>, m: nat)
    requires Filled(rows, f, scored) && Ranks(scored, order, sorted) && m <= |order|
    ensures Positions(order[..m], |rows|)
    ensures forall i :: 0 <= i < m ==> sorted[..m][i] == rows[order[..m][i]].(score := f(rows[order[..m][i]]))
  {
    hide Onto, Precedes;
  }

  /**
   * Scores every row against the query's vector, sorts, truncates. A non-positive k asks for
   * nothing and reads nothing; a failed embedding or load, or other than one vector, is an error.
   */
  method Retrieve(query: Result<seq<Vec>, string>, rows: Result<seq<Scored>, string>,
                  score: (Vec, Scored) -> real, k: int)
    returns (r: Result<seq<Scored>, string>)
    ensures k <= 0 ==> r == Ok([])
    ensures k > 0 ==> (r.Ok? <==> query.Ok? && |query.value| == 1 && rows.Ok?)
    ensures k > 0 && query.Err? ==> r == Err(query.error)
    ensures k > 0 && query.Ok? && |query.value| == 1 && rows.Err? ==> r == Err(rows.error)
    ensures k > 0 && r.Ok? ==> r.value == TopK(AllScored(rows.value, query.value[0], score), k)
    ensures k > 0 && r.Ok? ==>
      IsKBest(rows.value, (x: Scored) => score(query.value[0], x), k, r.value)
  {
    if k <= 0 {
      return Ok([]);
    }
    if query.Err? {
      return Err(query.error);
    }
    if |query.value| != 1 {
      return Err("index: query embedder returned another number of vectors than one");
    }
    if rows.Err? {
      return Err(rows.error);
    }
    var q, all := query.value[0], rows.value;
    var scored: seq<Scored> := [];
    for i := 0 to |all|
      invariant scored == AllScored(all, q, score)[..i]
    {
      scored := scored + [all[i].(score := score(q, all[i]))];
    }
    assert scored == AllScored(all, q, score);
    var sorted := StableSort(scored);
    ghost var order := SortRanks(scored);
    RankingIsBest(all, scored, (x: Scored) => score(q, x), order, k);
    var n := k;
    if n > |scored| {
      n := |scored|;
    }
    hide StableSort, Ranks, IsKBest;
    return Ok(sorted[..n]);
  }

  function AllScored(rows: seq<Scored>, q: Vec, score: (Vec, Scored) -> real): (r: seq<Scored>)
    ensures |r| == |rows|
  {
    Map((x: Scored) => x.(score := score(q, x)), rows)
  }

  /** No omitted row outscores a returned one, and a larger k only extends the result. */
  lemma TopKIsBest(xs: seq<Scored>, k: int, n: int)
    requires k <= n
    ensures TopK(xs, k) <= TopK(xs, n)
    ensures forall i, j :: 0 <= i < |TopK(xs, k)| && |TopK(xs, k)| <= j < |xs| ==>
              TopK(xs, k)[i].score >= StableSort(xs)[j].score
    ensures |TopK(xs, k)| == if k <= 0 then 0 else if k > |xs| then |xs| else k
  {
    SortIsStable(xs);
  }

  // -------------------------------------------------------------------- recall

  datatype Gold = Gold(path: string, start: nat, end: nat)

  predicate Overlaps(g: Gold, c: Scored) {
    c.path == g.path && c.start <= g.end && g.start <= c.end
  }

  predicate Hit(g: Gold, retrieved: seq<Scored>) {
    exists i :: 0 <= i < |retrieved| && Overlaps(g, retrieved[i])
  }

  predicate HoldsLine(c: Scored, line: nat) {
    c.start <= line <= c.end
  }

  /** Overlapping means sharing a line of the same file, for spans that hold a line. */
  lemma OverlapIsSharedLine(g: Gold, c: Scored)
    requires g.start <= g.end && c.start <= c.end
    ensures Overlaps(g, c) <==> c.path == g.path && exists line: nat :: HoldsLine(c, line) && g.start <= line <= g.end
  {
    if Overlaps(g, c) {
      assert HoldsLine(c, if c.start < g.start then g.start else c.start);
    }
  }

  function Hits(gold: seq<Gold>, retrieved: seq<Scored>): nat {
    Sum(Map((g: Gold) => if Hit(g, retrieved) then 1 else 0, gold))
  }

  method GoldHit(g: Gold, retrieved: seq<Scored>) returns (hit: bool)
    ensures hit == Hit(g, retrieved)
  {
    for i := 0 to |retrieved|
      invariant forall k :: 0 <= k < i ==> !Overlaps(g, retrieved[k])
    {
      var c := retrieved[i];
      if c.path == g.path && c.start <= g.end && g.start <= c.end {
        return true;
      }
    }
    return false;
  }

  /** Gold spans hit, as a fraction; zero when there is no gold. */
  method Recall(gold: seq<Gold>, retrieved: seq<Scored>) returns (recall: real)
    ensures gold == [] ==> recall == 0.0
    ensures gold != [] ==> recall * (|gold| as real) == Hits(gold, retrieved) as real
  {
    if |gold| == 0 {
      return 0.0;
    }
    var hits := 0;
    for i := 0 to |gold|
      invariant hits == Hits(gold[..i], retrieved)
    {
      assert gold[..i + 1] == gold[..i] + [gold[i]];
      HitsSnoc(gold[..i], gold[i], retrieved);
      var hit := GoldHit(gold[i], retrieved);
      if hit {
        hits := hits + 1;
      }
    }
    assert gold[..|gold|] == gold;
    return hits as real / |gold| as real;
  }

  lemma HitsSnoc(gold: seq<Gold>, g: Gold, retrieved: seq<Scored>)
    ensures Hits(gold + [g], retrieved) == Hits(gold, retrieved) + if Hit(g, retrieved) then 1 else 0
  {
    MapSumSnoc((h: Gold) => if Hit(h, retrieved) then 1 else 0, gold, g);
  }

  /** Asking for more never lowers recall: hits at k are hits at any larger k. */
  lemma RecallNeverFalls(gold: seq<Gold>, xs: seq<Scored>, k: int, n: int)
    requires k <= n
    ensures Hits(gold, TopK(xs, k)) <= Hits(gold, TopK(xs, n)) <= |gold|
  {
    TopKIsBest(xs, k, n);
    var small, large := TopK(xs, k), TopK(xs, n);
    hide TopK;
    HitsMonotone(gold, small, large);
  }

  lemma {:induction false} HitsMonotone(gold: seq<Gold>, small: seq<Scored>, large: seq<Scored>)
    requires small <= large
    ensures Hits(gold, small) <= Hits(gold, large) <= |gold|
    decreases |gold|
  {
    if gold != [] {
      var init, last := gold[..|gold| - 1], gold[|gold| - 1];
      assert gold == init + [last];
      HitsMonotone(init, small, large);
      HitsSnoc(init, last, small);
      HitsSnoc(init, last, large);
      hide Hits;
      if i :| 0 <= i < |small| && Overlaps(last, small[i]) {
        assert Overlaps(last, large[i]);
      }
    }
  }
}
