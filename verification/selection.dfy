/** Choosing the best k of a list by score: a stable ascending sort, cut off by a slice. */
module Selection {

  /** How many elements `s[:k]` keeps of n. */
  function SliceLength(n: nat, k: int): nat {
    if k >= 0 then if k < n then k else n
    else if n + k > 0 then n + k else 0
  }

  /** Better score first, and on equal scores the one that came first. */
  predicate Precedes(scores: seq<real>, i: nat, j: nat)
    requires i < |scores| && j < |scores|
  {
    scores[i] < scores[j] || (scores[i] == scores[j] && i < j)
  }

  predicate Within(ranking: seq<nat>, bound: nat) {
    forall j | 0 <= j < |ranking| :: ranking[j] < bound
  }

  /** Inserting an index behind every index that scores no worse: one step of a stable sort. */
  function Inserted(ranking: seq<nat>, i: nat, scores: seq<real>): seq<nat>
    requires i < |scores| && Within(ranking, |scores|)
  {
    if ranking == [] then [i]
    else
      var n := |ranking| - 1;
      if scores[ranking[n]] <= scores[i] then ranking + [i]
      else Inserted(ranking[..n], i, scores) + [ranking[n]]
  }

  lemma {:induction false} InsertedMembers(ranking: seq<nat>, i: nat, scores: seq<real>)
    requires i < |scores| && Within(ranking, |scores|)
    ensures |Inserted(ranking, i, scores)| == |ranking| + 1
    ensures forall j | 0 <= j <= |ranking| ::
      Inserted(ranking, i, scores)[j] in ranking || Inserted(ranking, i, scores)[j] == i
    ensures forall x | x in ranking || x == i :: x in Inserted(ranking, i, scores)
    decreases |ranking|
  {
    if ranking != [] {
      var n := |ranking| - 1;
      assert ranking[..n] + [ranking[n]] == ranking;
      InsertedMembers(ranking[..n], i, scores);
    }
  }

  /** Stable ascending order of the first n scores. */
  function Ranking(scores: seq<real>, n: nat): (r: seq<nat>)
    requires n <= |scores|
    ensures |r| == n && Within(r, n)
    ensures forall x | 0 <= x < n :: x in r
  {
    if n == 0 then []
    else
      InsertedMembers(Ranking(scores, n - 1), n - 1, scores);
      Inserted(Ranking(scores, n - 1), n - 1, scores)
  }

  ghost predicate Ordered(ranking: seq<nat>, scores: seq<real>)
    requires Within(ranking, |scores|)
  {
    if ranking == [] then true
    else
      var n := |ranking| - 1;
      && Ordered(ranking[..n], scores)
      && forall j | 0 <= j < n :: Precedes(scores, ranking[j], ranking[n])
  }

  lemma {:induction false} InsertedOrdered(ranking: seq<nat>, i: nat, scores: seq<real>)
    requires i < |scores| && Within(ranking, i) && Ordered(ranking, scores)
    ensures Within(Inserted(ranking, i, scores), |scores|)
    ensures Ordered(Inserted(ranking, i, scores), scores)
    decreases |ranking|
  {
    InsertedMembers(ranking, i, scores);
    if ranking != [] {
      var n := |ranking| - 1;
      assert ranking[..n] + [ranking[n]] == ranking;
      if scores[ranking[n]] <= scores[i] {
        assert (ranking + [i])[..n + 1] == ranking;
      } else {
        InsertedMembers(ranking[..n], i, scores);
        InsertedOrdered(ranking[..n], i, scores);
        var init := Inserted(ranking[..n], i, scores);
        assert (init + [ranking[n]])[..n + 1] == init;
        forall j | 0 <= j < |init|
          ensures Precedes(scores, init[j], ranking[n])
        {
          if init[j] != i {
            var c :| 0 <= c < n && ranking[..n][c] == init[j];
          }
        }
      }
    }
  }

  lemma {:induction false} RankingIsOrdered(scores: seq<real>, n: nat)
    requires n <= |scores|
    ensures Ordered(Ranking(scores, n), scores)
  {
    if n > 0 {
      RankingIsOrdered(scores, n - 1);
      InsertedOrdered(Ranking(scores, n - 1), n - 1, scores);
    }
  }

  lemma {:induction false} OrderedAt(ranking: seq<nat>, scores: seq<real>, a: nat, b: nat)
    requires Within(ranking, |scores|) && Ordered(ranking, scores) && a < b < |ranking|
    ensures Precedes(scores, ranking[a], ranking[b])
    decreases |ranking|
  {
    var n := |ranking| - 1;
    if b < n {
      OrderedAt(ranking[..n], scores, a, b);
    } else {
      assert ranking[..n][a] == ranking[a];
    }
  }

  /** The positions `select_best_parents` takes. */
  function Selected(scores: seq<real>, k: int): (picks: seq<nat>)
    ensures |picks| == SliceLength(|scores|, k)
    ensures Within(picks, |scores|)
  {
    Ranking(scores, |scores|)[..SliceLength(|scores|, k)]
  }

  /** How many elements a slice `[:k]` keeps: of a negative k, all but that many at the end. */
  lemma SliceLengthMeans(n: nat, k: int)
    ensures 0 <= k <= n ==> SliceLength(n, k) == k
    ensures k > n ==> SliceLength(n, k) == n
    ensures k < 0 <= n + k ==> SliceLength(n, k) as int == n + k
    ensures n + k < 0 ==> SliceLength(n, k) == 0
  {
  }

  /**
   * As many positions as asked for, or as there are; in order of their scores, earlier ones first
   * among equals; and none left out scores better, or as well and stands earlier.
   */
  lemma SelectionIsBest(scores: seq<real>, k: int)
    ensures k >= 0 ==> |Selected(scores, k)| == if k < |scores| then k else |scores|
    ensures k < 0 ==> |Selected(scores, k)| == if |scores| + k > 0 then |scores| + k else 0
    ensures forall a, b | 0 <= a < b < |Selected(scores, k)| ::
      var i, j := Selected(scores, k)[a], Selected(scores, k)[b];
      scores[i] < scores[j] || (scores[i] == scores[j] && i < j)
    ensures forall a, j | 0 <= a < |Selected(scores, k)| && 0 <= j < |scores| && j !in Selected(scores, k) ::
      var i := Selected(scores, k)[a];
      scores[i] < scores[j] || (scores[i] == scores[j] && i < j)
  {
    var ranking, picks := Ranking(scores, |scores|), Selected(scores, k);
    RankingIsOrdered(scores, |scores|);
    forall a, b | 0 <= a < b < |picks|
      ensures Precedes(scores, picks[a], picks[b])
    {
      OrderedAt(ranking, scores, a, b);
    }
    forall a, j | 0 <= a < |picks| && 0 <= j < |scores| && j !in picks
      ensures Precedes(scores, picks[a], j)
    {
      assert j in ranking;
      var b :| 0 <= b < |ranking| && ranking[b] == j;
      assert forall c | 0 <= c < |picks| :: picks[c] in picks;
      OrderedAt(ranking, scores, a, b);
    }
  }

  // ----- there is only one such selection

  /** Positions in order of their scores, earlier ones first among equals, all before those left out. */
  ghost predicate BestPositions(scores: seq<real>, picks: seq<nat>) {
    && Within(picks, |scores|)
    && (forall a, b | 0 <= a < b < |picks| :: Precedes(scores, picks[a], picks[b]))
    && (forall a, j | 0 <= a < |picks| && 0 <= j < |scores| && j !in picks :: Precedes(scores, picks[a], j))
  }

  lemma SelectedIsBest(scores: seq<real>, k: int)
    ensures BestPositions(scores, Selected(scores, k))
  {
    SelectionIsBest(scores, k);
  }

  /** What does not stand among the first a of the best comes no earlier than the a-th. */
  lemma NoneEarlier(scores: seq<real>, picks: seq<nat>, a: nat, x: nat)
    requires BestPositions(scores, picks) && a < |picks| && x < |scores|
    requires forall c | 0 <= c < a :: picks[c] != x
    ensures x == picks[a] || Precedes(scores, picks[a], x)
  {
    if x in picks {
      var b :| 0 <= b < |picks| && picks[b] == x;
    }
  }

  lemma {:induction false} BestIsUniqueAt(scores: seq<real>, p: seq<nat>, q: seq<nat>, a: nat)
    requires BestPositions(scores, p) && BestPositions(scores, q) && |p| == |q| && a <= |p|
    ensures p[..a] == q[..a]
  {
    if a > 0 {
      BestIsUniqueAt(scores, p, q, a - 1);
      assert forall c | 0 <= c < a - 1 :: p[c] == p[..a - 1][c] == q[..a - 1][c] == q[c];
      NoneEarlier(scores, p, a - 1, q[a - 1]);
      NoneEarlier(scores, q, a - 1, p[a - 1]);
    }
  }

  lemma BestIsUnique(scores: seq<real>, p: seq<nat>, q: seq<nat>)
    requires BestPositions(scores, p) && BestPositions(scores, q) && |p| == |q|
    ensures p == q
  {
    BestIsUniqueAt(scores, p, q, |p|);
    assert p[..|p|] == p && q[..|q|] == q;
  }
}
