/**
 * Nothing the search can do is left out: every legal individual, crossover, mutant and whole history
 * of generations is what some draws make. Each lemma prolongs the draws u that were used before.
 */
module GeneticDraws {
  import opened Selection
  import opened Randomness
  import opened Genetics

  // ----- only the draws that are used matter

  lemma {:induction false} ThrottlesLast(u: Draws, w: Draws, n: nat, c: Configuration, length: nat)
    requires c.low <= c.high && u <= w && n + length <= |u|
    ensures Throttles(w, n, c, length) == Throttles(u, n, c, length)
  {
    if length > 0 {
      ThrottlesLast(u, w, n, c, length - 1);
      assert Draw(w, n + length - 1) == Draw(u, n + length - 1);
    }
  }

  lemma IndividualLast(u: Draws, w: Draws, n: nat, c: Configuration)
    requires c.maxLength >= 1 && c.low <= c.high && u <= w && n + 1 + |Individual(u, n, c)| <= |u|
    ensures Individual(w, n, c) == Individual(u, n, c)
  {
    assert Draw(w, n) == Draw(u, n);
    ThrottlesLast(u, w, n + 1, c, |Individual(u, n, c)|);
  }

  lemma {:induction false} IndividualsLast(u: Draws, w: Draws, n: nat, c: Configuration, k: nat)
    requires c.maxLength >= 1 && c.low <= c.high && u <= w && Individuals(u, n, c, k).1 <= |u|
    ensures Individuals(w, n, c, k) == Individuals(u, n, c, k)
  {
    if k > 0 {
      IndividualsLast(u, w, n, c, k - 1);
      IndividualLast(u, w, Individuals(u, n, c, k - 1).1, c);
    }
  }

  lemma ChildLast(u: Draws, w: Draws, n: nat, c: Configuration, pool: seq<seq<int>>)
    requires |pool| >= 2 && AllLegal(c, pool) && u <= w && n + 4 <= |u|
    ensures Child(w, n, c, pool) == Child(u, n, c, pool)
  {
    assert Draw(w, n) == Draw(u, n) && Draw(w, n + 1) == Draw(u, n + 1);
    assert Draw(w, n + 2) == Draw(u, n + 2) && Draw(w, n + 3) == Draw(u, n + 3);
  }

  lemma {:induction false} ChildrenLast(u: Draws, w: Draws, n: nat, c: Configuration, pool: seq<seq<int>>, k: nat)
    requires |pool| >= 2 && AllLegal(c, pool) && u <= w && n + 4 * k <= |u|
    ensures Children(w, n, c, pool, k) == Children(u, n, c, pool, k)
  {
    if k > 0 {
      ChildrenLast(u, w, n, c, pool, k - 1);
      ChildLast(u, w, n + 4 * (k - 1), c, pool);
    }
  }

  lemma {:induction false} RedrawsLast(u: Draws, w: Draws, n: nat, c: Configuration, items: seq<int>, k: nat)
    requires k <= |items| && c.low <= c.high && u <= w && Redraws(u, n, c, items, k).1 <= |u|
    ensures Redraws(w, n, c, items, k) == Redraws(u, n, c, items, k)
  {
    if k > 0 {
      RedrawsLast(u, w, n, c, items, k - 1);
      var m := Redraws(u, n, c, items, k - 1).1;
      assert Draw(w, m) == Draw(u, m);
      assert Draw(u, m) < c.mutationRate ==> Draw(w, m + 1) == Draw(u, m + 1);
    }
  }

  lemma DeletionLast(u: Draws, w: Draws, n: nat, c: Configuration, items: seq<int>)
    requires u <= w && Deletion(u, n, c, items).1 <= |u|
    ensures Deletion(w, n, c, items) == Deletion(u, n, c, items)
    ensures n < Deletion(u, n, c, items).1
  {
    assert Draw(w, n) == Draw(u, n);
    assert Draw(u, n) < c.mutationRate && |items| > 1 ==> Draw(w, n + 1) == Draw(u, n + 1);
  }

  lemma MutantLast(u: Draws, w: Draws, n: nat, c: Configuration, items: seq<int>)
    requires c.low <= c.high && u <= w && Mutant(u, n, c, items).1 <= |u|
    ensures Mutant(w, n, c, items) == Mutant(u, n, c, items)
  {
    var (redrawn, m) := Redraws(u, n, c, items, |items|);
    DeletionLast(u, w, m, c, redrawn);
    RedrawsLast(u, w, n, c, items, |items|);
  }

  lemma {:induction false} RedrawsGoOn(u: Draws, n: nat, c: Configuration, items: seq<int>, k: nat)
    requires k <= |items| && c.low <= c.high
    ensures n <= Redraws(u, n, c, items, k).1
  {
    if k > 0 {
      RedrawsGoOn(u, n, c, items, k - 1);
    }
  }

  lemma {:induction false} MutantsLast(u: Draws, w: Draws, n: nat, c: Configuration, children: seq<seq<int>>, k: nat)
    requires k <= |children| && c.low <= c.high && u <= w && Mutants(u, n, c, children, k).1 <= |u|
    ensures Mutants(w, n, c, children, k) == Mutants(u, n, c, children, k)
    ensures n <= Mutants(u, n, c, children, k).1
  {
    if k > 0 {
      var m := Mutants(u, n, c, children, k - 1).1;
      RedrawsGoOn(u, m, c, children[k - 1], |children[k - 1]|);
      MutantLast(u, w, m, c, children[k - 1]);
      MutantsLast(u, w, n, c, children, k - 1);
    }
  }

  // ----- individuals

  lemma {:induction false} EveryThrottlesAreDrawn(u: Draws, c: Configuration, items: seq<int>) returns (w: Draws)
    requires c.low <= c.high && forall i | 0 <= i < |items| :: c.low <= items[i] <= c.high
    ensures u <= w && |w| == |u| + |items| && Throttles(w, |u|, c, |items|) == items
    decreases |items|
  {
    w := u;
    if items != [] {
      var k := |items| - 1;
      var v := EveryThrottlesAreDrawn(u, c, items[..k]);
      var x := EveryIntIsDrawn(items[k], c.low, c.high);
      w := v + [x];
      ThrottlesLast(v, w, |u|, c, k);
      assert Draw(w, |u| + k) == x;
      assert items[..k] + [items[k]] == items;
    }
  }

  /** Every legal sequence is a random individual for some draws. */
  lemma EveryIndividualIsDrawn(u: Draws, c: Configuration, items: seq<int>) returns (w: Draws)
    requires c.low <= c.high && Legal(c, items)
    ensures u <= w && |w| == |u| + 1 + |items| && Individual(w, |u|, c) == items
  {
    var x := EveryIntIsDrawn(|items|, 1, c.maxLength);
    w := EveryThrottlesAreDrawn(u + [x], c, items);
    assert Draw(w, |u|) == (u + [x])[|u|] == x;
  }

  lemma {:induction false} EveryPopulationIsDrawn(u: Draws, c: Configuration, generation: seq<seq<int>>)
    returns (w: Draws)
    requires c.maxLength >= 1 && c.low <= c.high && AllLegal(c, generation)
    ensures u <= w && Individuals(w, |u|, c, |generation|) == (generation, |w|)
    decreases |generation|
  {
    w := u;
    if generation != [] {
      var k := |generation| - 1;
      var v := EveryPopulationIsDrawn(u, c, generation[..k]);
      assert Legal(c, generation[k]);
      w := EveryIndividualIsDrawn(v, c, generation[k]);
      IndividualsLast(v, w, |u|, c, k);
      assert generation[..k] + [generation[k]] == generation;
    }
  }

  // ----- children

  /** Every crossover of two individuals at different positions of a pool is bred by some draws. */
  lemma EveryChildIsDrawn(u: Draws, c: Configuration, pool: seq<seq<int>>, child: seq<int>) returns (w: Draws)
    requires |pool| >= 2 && AllLegal(c, pool) && ChildOf(c, pool, child)
    ensures u <= w && |w| == |u| + 4 && Child(w, |u|, c, pool) == child
  {
    var a: nat, b: nat, i: nat, j: nat :|
      && a < |pool| && b < |pool| && a != b && 1 <= i <= |pool[a]| && 1 <= j <= |pool[b]|
      && child == Bred(pool[a], pool[b], i, j, c.maxLength);
    var x := EveryIntIsDrawn(a, 0, |pool| - 1);
    var y := EveryIntIsDrawn(if b < a then b else b - 1, 0, |pool| - 2);
    var s := EveryIntIsDrawn(i, 1, |pool[a]|);
    var t := EveryIntIsDrawn(j, 1, |pool[b]|);
    w := u + [x, y, s, t];
    assert Draw(w, |u|) == x && Draw(w, |u| + 1) == y && Draw(w, |u| + 2) == s && Draw(w, |u| + 3) == t;
    assert PairOf(w, |u|, |pool|) == (a, b);
  }

  lemma {:induction false} EveryChildrenAreDrawn(
    u: Draws, c: Configuration, pool: seq<seq<int>>, children: seq<seq<int>>) returns (w: Draws)
    requires |pool| >= 2 && AllLegal(c, pool) && forall i | 0 <= i < |children| :: ChildOf(c, pool, children[i])
    ensures u <= w && |w| == |u| + 4 * |children| && Children(w, |u|, c, pool, |children|) == children
    decreases |children|
  {
    w := u;
    if children != [] {
      var k := |children| - 1;
      var v := EveryChildrenAreDrawn(u, c, pool, children[..k]);
      w := EveryChildIsDrawn(v, c, pool, children[k]);
      ChildrenLast(v, w, |u|, c, pool, k);
      assert children[..k] + [children[k]] == children;
    }
  }

  // ----- mutants

  /** A draw that is below the rate, or one that is not. */
  lemma EveryHitIsDrawn(u: Draws, c: Configuration, hit: bool) returns (w: Draws)
    requires if hit then c.mutationRate > 0.0 else c.mutationRate < 1.0
    ensures u <= w && |w| == |u| + 1 && Hit(w, |u|, 0, c.mutationRate) == hit
  {
    w := u + [if hit || c.mutationRate <= 0.0 then 0.0 else c.mutationRate];
  }

  lemma OneMoreRedraw(u: Draws, v: Draws, w: Draws, c: Configuration, before: seq<int>, after: seq<int>, k: nat)
    requires c.low <= c.high && k < |before| == |after| && u <= v <= w
    requires Redraws(v, |u|, c, before, k) == (after[..k] + before[k..], |v|)
    requires
      if Draw(w, |v|) < c.mutationRate
      then |w| == |v| + 2 && after[k] == IntFrom(Draw(w, |v| + 1), c.low, c.high)
      else |w| == |v| + 1 && after[k] == before[k]
    ensures Redraws(w, |u|, c, before, k + 1) == (after[..k + 1] + before[k + 1..], |w|)
  {
    RedrawsLast(v, w, |u|, c, before, k);
    var some, more := after[..k] + before[k..], after[..k + 1] + before[k + 1..];
    assert some[k := after[k]] == more && some[k] == before[k];
    assert after[k] == before[k] ==> some == more;
  }

  lemma {:induction false} EveryRedrawIsDrawn(
    u: Draws, c: Configuration, before: seq<int>, after: seq<int>, k: nat) returns (w: Draws)
    requires c.low <= c.high && Redrawn(c, before, after) && k <= |before|
    ensures u <= w && Redraws(w, |u|, c, before, k) == (after[..k] + before[k..], |w|)
    decreases k
  {
    if k == 0 {
      w := u;
      assert after[..0] + before[0..] == before;
    } else {
      var v := EveryRedrawIsDrawn(u, c, before, after, k - 1);
      var hit := c.mutationRate >= 1.0 || after[k - 1] != before[k - 1];
      w := EveryHitIsDrawn(v, c, hit);
      if hit {
        var x := EveryIntIsDrawn(after[k - 1], c.low, c.high);
        w := w + [x];
        assert Draw(w, |v| + 1) == x;
      }
      OneMoreRedraw(u, v, w, c, before, after, k - 1);
    }
  }

  lemma EveryDeletionIsDrawn(u: Draws, c: Configuration, before: seq<int>, after: seq<int>) returns (w: Draws)
    requires Shortened(c, before, after)
    ensures u <= w && Deletion(w, |u|, c, before) == (after, |w|)
  {
    if after == before && (c.mutationRate >= 1.0 ==> |before| <= 1) {
      w := EveryHitIsDrawn(u, c, c.mutationRate >= 1.0);
    } else {
      var d :| 0 <= d < |before| && after == before[..d] + before[d + 1..];
      w := EveryHitIsDrawn(u, c, true);
      var x := EveryIntIsDrawn(d, 0, |before| - 1);
      w := w + [x];
      assert Draw(w, |u| + 1) == x;
    }
  }

  /** Every mutation of an individual within the rules is made by some draws. */
  lemma EveryMutantIsDrawn(u: Draws, c: Configuration, before: seq<int>, after: seq<int>) returns (w: Draws)
    requires c.low <= c.high && MutantOf(c, before, after)
    ensures u <= w && Mutant(w, |u|, c, before) == (after, |w|)
  {
    var redrawn: seq<int> :| Redrawn(c, before, redrawn) && Shortened(c, redrawn, after);
    var k := |before|;
    var v := EveryRedrawIsDrawn(u, c, before, redrawn, k);
    w := EveryDeletionIsDrawn(v, c, redrawn, after);
    assert redrawn[..k] + before[k..] == redrawn;
    RedrawsLast(v, w, |u|, c, before, k);
  }

  lemma OneMoreMutant(
    u: Draws, v: Draws, w: Draws, c: Configuration, before: seq<seq<int>>, after: seq<seq<int>>, k: nat)
    requires c.low <= c.high && k < |before| == |after| && u <= v <= w
    requires Mutants(v, |u|, c, before, k) == (after[..k], |v|)
    requires Mutant(w, |v|, c, before[k]) == (after[k], |w|)
    ensures Mutants(w, |u|, c, before, k + 1) == (after[..k + 1], |w|)
  {
    MutantsLast(v, w, |u|, c, before, k);
    assert after[..k] + [after[k]] == after[..k + 1];
  }

  lemma {:induction false} EveryMutantsAreDrawn(
    u: Draws, c: Configuration, before: seq<seq<int>>, after: seq<seq<int>>, k: nat) returns (w: Draws)
    requires c.low <= c.high && k <= |before| == |after|
    requires forall i | 0 <= i < k :: MutantOf(c, before[i], after[i])
    ensures u <= w && Mutants(w, |u|, c, before, k) == (after[..k], |w|)
    decreases k
  {
    w := u;
    if k > 0 {
      var v := EveryMutantsAreDrawn(u, c, before, after, k - 1);
      w := EveryMutantIsDrawn(v, c, before[k - 1], after[k - 1]);
      OneMoreMutant(u, v, w, c, before, after, k - 1);
    }
  }

  // ----- generations

  lemma {:induction false} MutantsHaveParents(c: Configuration, pool: seq<seq<int>>, next: seq<seq<int>>)
    returns (children: seq<seq<int>>)
    requires AllOffspring(c, pool, next)
    ensures |children| == |next|
    ensures forall i | 0 <= i < |next| :: ChildOf(c, pool, children[i]) && MutantOf(c, children[i], next[i])
    decreases |next|
  {
    children := [];
    if next != [] {
      var k := |next| - 1;
      assert Offspring(c, pool, next[k]);
      var child :| ChildOf(c, pool, child) && MutantOf(c, child, next[k]);
      assert AllOffspring(c, pool, next[..k]) by {
        assert forall i | 0 <= i < k :: next[..k][i] == next[i];
      }
      var some := MutantsHaveParents(c, pool, next[..k]);
      children := some + [child];
    }
  }

  /** Every generation of offspring of a pool is bred by some draws. */
  lemma EverySuccessorsAreDrawn(u: Draws, c: Configuration, pool: seq<seq<int>>, next: seq<seq<int>>)
    returns (w: Draws)
    requires |pool| >= 2 && AllLegal(c, pool) && c.low <= c.high
    requires AllOffspring(c, pool, next) && |next| == AtLeastZero(c.populationSize)
    ensures u <= w && Successors(w, |u|, c, pool) == (next, |w|)
  {
    var k := |next|;
    var children := MutantsHaveParents(c, pool, next);
    var v := EveryChildrenAreDrawn(u, c, pool, children);
    w := EveryMutantsAreDrawn(v, c, children, next, k);
    ChildrenLast(v, w, |u|, c, pool, k);
    assert next[..k] == next;
  }

  lemma SuccessorsLast(u: Draws, w: Draws, n: nat, c: Configuration, pool: seq<seq<int>>)
    requires |pool| >= 2 && AllLegal(c, pool) && c.low <= c.high
    requires u <= w && Successors(u, n, c, pool).1 <= |u|
    ensures Successors(w, n, c, pool) == Successors(u, n, c, pool)
    ensures n <= Successors(u, n, c, pool).1
  {
    var k := AtLeastZero(c.populationSize);
    MutantsLast(u, w, n + 4 * k, c, Children(u, n, c, pool, k), k);
    ChildrenLast(u, w, n, c, pool, k);
  }

  lemma SampleLast(u: Draws, w: Draws, n: nat, size: nat, k: nat)
    requires k <= size && u <= w && n + k <= |u|
    ensures SampleOf(w, n, size, k) == SampleOf(u, n, size, k)
  {
    PicksLast(u, w, n, Positions(size), k);
  }

  lemma PoolLast(u: Draws, w: Draws, n: nat, p: Problem, c: Configuration, generation: seq<seq<int>>)
    requires Breedable(p, c) && IsGeneration(c, generation) && u <= w && n + c.worstParents <= |u|
    ensures PoolOf(w, n, p, c, generation) == PoolOf(u, n, p, c, generation)
  {
    SampleLast(u, w, n, |generation|, c.worstParents);
  }

  lemma NextLast(u: Draws, w: Draws, n: nat, p: Problem, c: Configuration, generation: seq<seq<int>>)
    requires Breedable(p, c) && IsGeneration(c, generation)
    requires u <= w && NextGeneration(u, n, p, c, generation).1 <= |u|
    ensures NextGeneration(w, n, p, c, generation) == NextGeneration(u, n, p, c, generation)
    ensures n <= NextGeneration(u, n, p, c, generation).1
  {
    var pool := PoolOf(u, n, p, c, generation);
    NextOf(u, n, p, c, generation, pool);
    SuccessorsLast(u, w, n + c.worstParents, c, pool);
    PoolLast(u, w, n, p, c, generation);
    NextOf(w, n, p, c, generation, pool);
  }

  lemma ChosenIsBest(p: Problem, c: Configuration, generation: seq<seq<int>>, best: seq<nat>)
    requires p.mass != 0.0 && ChosenBest(p, c, generation, best)
    ensures best == BestOf(p, c, generation)
  {
    var scores := ScoresOf(p, c, generation, |generation|);
    forall i | 0 <= i < |generation|
      ensures scores[i] == Fitness(p, c, generation[i]).score
    {
      ScoreAt(p, c, generation, |generation|, i);
    }
    forall a, b | 0 <= a < b < |best|
      ensures Precedes(scores, best[a], best[b])
    {
      assert Fitter(p, c, generation, best[a], best[b]);
    }
    forall a, j | 0 <= a < |best| && 0 <= j < |scores| && j !in best
      ensures Precedes(scores, best[a], j)
    {
      assert Fitter(p, c, generation, best[a], j);
    }
    SelectedIsBest(scores, c.bestParents);
    BestIsUnique(scores, best, BestOf(p, c, generation));
  }

  lemma PoolIsParents(generation: seq<seq<int>>, best: seq<nat>, worst: seq<nat>, pool: seq<seq<int>>)
    requires Within(best, |generation|) && Within(worst, |generation|) && PoolFrom(generation, best, worst, pool)
    ensures pool == Parents(generation, best, worst)
  {
    ParentsFrom(generation, best, worst);
    var parents := Parents(generation, best, worst);
    forall i | 0 <= i < |pool|
      ensures pool[i] == parents[i]
    {
      if i >= |best| {
        assert pool[|best| + (i - |best|)] == parents[|best| + (i - |best|)];
      }
    }
  }

  lemma EveryPoolIsDrawn(
    u: Draws, p: Problem, c: Configuration, generation: seq<seq<int>>,
    best: seq<nat>, worst: seq<nat>, pool: seq<seq<int>>) returns (w: Draws)
    requires Breedable(p, c) && IsGeneration(c, generation)
    requires ChosenBest(p, c, generation, best) && Drawn(worst, c.worstParents, |generation|)
    requires PoolFrom(generation, best, worst, pool)
    ensures u <= w && |w| == |u| + c.worstParents && PoolOf(w, |u|, p, c, generation) == pool
  {
    w := EverySampleIsDrawn(u, worst, c.worstParents, |generation|);
    ChosenIsBest(p, c, generation, best);
    PoolIsParents(generation, best, worst, pool);
  }

  lemma NextBy(
    v: Draws, w: Draws, n: nat, p: Problem, c: Configuration, generation: seq<seq<int>>, pool: seq<seq<int>>,
    r: (seq<seq<int>>, nat))
    requires Breedable(p, c) && IsGeneration(c, generation)
    requires v <= w && n + c.worstParents == |v| && PoolOf(v, n, p, c, generation) == pool
    requires Successors(w, |v|, c, pool) == r
    ensures NextGeneration(w, n, p, c, generation) == r
  {
    PoolLast(v, w, n, p, c, generation);
    NextOf(w, n, p, c, generation, pool);
  }

  /** Every generation that may follow another one is bred from it by some draws. */
  lemma EveryNextIsDrawn(u: Draws, p: Problem, c: Configuration, generation: seq<seq<int>>, next: seq<seq<int>>)
    returns (w: Draws)
    requires Breedable(p, c) && IsGeneration(c, generation) && IsGeneration(c, next)
    requires Follows(p, c, generation, next)
    ensures u <= w && NextGeneration(w, |u|, p, c, generation) == (next, |w|)
  {
    var best: seq<nat>, worst: seq<nat>, pool :|
      && ChosenBest(p, c, generation, best) && Drawn(worst, c.worstParents, |generation|)
      && PoolFrom(generation, best, worst, pool)
      && AllOffspring(c, pool, next);
    var v := EveryPoolIsDrawn(u, p, c, generation, best, worst, pool);
    w := EverySuccessorsAreDrawn(v, c, pool, next);
    NextBy(v, w, |u|, p, c, generation, pool, (next, |w|));
  }

  // ----- whole histories

  /** Legal generations of full size, each bred from the one before. */
  ghost predicate History(p: Problem, c: Configuration, history: seq<seq<seq<int>>>)
    requires Breedable(p, c)
  {
    && (forall i | 0 <= i < |history| :: IsGeneration(c, history[i]))
    && (forall i | 0 < i < |history| :: Follows(p, c, history[i - 1], history[i]))
  }

  /** The draws make these generations, one after the other. */
  ghost predicate Makes(u: Draws, p: Problem, c: Configuration, history: seq<seq<seq<int>>>)
    requires Breedable(p, c)
  {
    forall i | 0 <= i < |history| :: Generation(u, 0, p, c, i).0 == history[i]
  }

  lemma GenerationGoesOn(u: Draws, p: Problem, c: Configuration, g: nat)
    requires Breedable(p, c) && Generation(u, 0, p, c, g + 1).1 <= |u|
    ensures Generation(u, 0, p, c, g).1 <= |u|
  {
    var (before, m) := Generation(u, 0, p, c, g);
    GenerationStep(u, 0, p, c, g);
    NextLast(u, u, m, p, c, before);
  }

  lemma NextStillFollows(
    u: Draws, w: Draws, p: Problem, c: Configuration, g: nat, before: seq<seq<int>>, m: nat)
    requires Breedable(p, c) && u <= w && IsGeneration(c, before)
    requires Generation(u, 0, p, c, g) == Generation(w, 0, p, c, g) == (before, m)
    requires Generation(u, 0, p, c, g + 1).1 <= |u|
    ensures Generation(w, 0, p, c, g + 1) == Generation(u, 0, p, c, g + 1)
  {
    GenerationStep(u, 0, p, c, g);
    GenerationStep(w, 0, p, c, g);
    NextLast(u, w, m, p, c, before);
  }

  lemma FirstLast(u: Draws, w: Draws, p: Problem, c: Configuration)
    requires Breedable(p, c) && u <= w
    ensures Settled(u, w, p, c, 0)
  {
    if Generation(u, 0, p, c, 0).1 <= |u| {
      IndividualsLast(u, w, 0, c, c.populationSize);
    }
  }

  /** The g-th generation is the same for the longer draws, if the shorter suffice for it. */
  predicate Settled(u: Draws, w: Draws, p: Problem, c: Configuration, g: nat)
    requires Breedable(p, c)
  {
    Generation(u, 0, p, c, g).1 <= |u| ==> Generation(w, 0, p, c, g) == Generation(u, 0, p, c, g)
  }

  lemma OneMoreSettled(u: Draws, w: Draws, p: Problem, c: Configuration, g: nat)
    requires Breedable(p, c) && u <= w && Settled(u, w, p, c, g)
    ensures Settled(u, w, p, c, g + 1)
  {
    if Generation(u, 0, p, c, g + 1).1 <= |u| {
      GenerationGoesOn(u, p, c, g);
      NextStillFollows(u, w, p, c, g, Generation(u, 0, p, c, g).0, Generation(u, 0, p, c, g).1);
    }
  }

  lemma GenerationLast(u: Draws, w: Draws, p: Problem, c: Configuration, g: nat)
    requires Breedable(p, c) && u <= w
    ensures Settled(u, w, p, c, g)
  {
    FirstLast(u, w, p, c);
    var i := 0;
    while i < g
      invariant i <= g && Settled(u, w, p, c, i)
    {
      OneMoreSettled(u, w, p, c, i);
      i := i + 1;
    }
  }

  /** The draws at hand suffice for the generation. */
  ghost predicate Reaches(u: Draws, p: Problem, c: Configuration, g: nat, generation: seq<seq<int>>)
    requires Breedable(p, c)
  {
    Generation(u, 0, p, c, g).0 == generation && Generation(u, 0, p, c, g).1 <= |u|
  }

  lemma StillReaches(u: Draws, w: Draws, p: Problem, c: Configuration, g: nat, generation: seq<seq<int>>)
    requires Breedable(p, c) && u <= w && Reaches(u, p, c, g, generation)
    ensures Reaches(w, p, c, g, generation)
  {
    GenerationLast(u, w, p, c, g);
  }

  lemma FirstIsDrawn(p: Problem, c: Configuration, generation: seq<seq<int>>) returns (w: Draws)
    requires Breedable(p, c) && IsGeneration(c, generation)
    ensures Generation(w, 0, p, c, 0) == (generation, |w|)
  {
    w := EveryPopulationIsDrawn([], c, generation);
  }

  lemma OneMoreIsDrawn(
    u: Draws, p: Problem, c: Configuration, g: nat, generation: seq<seq<int>>, next: seq<seq<int>>)
    returns (w: Draws)
    requires Breedable(p, c) && Generation(u, 0, p, c, g) == (generation, |u|)
    requires IsGeneration(c, next) && Follows(p, c, generation, next)
    ensures u <= w && Generation(w, 0, p, c, g + 1) == (next, |w|)
  {
    w := EveryNextIsDrawn(u, p, c, generation, next);
    GenerationLast(u, w, p, c, g);
    GenerationStep(w, 0, p, c, g);
  }

  /** The draws at hand suffice for the first k generations. */
  ghost predicate ReachesAll(u: Draws, p: Problem, c: Configuration, history: seq<seq<seq<int>>>, k: nat)
    requires Breedable(p, c) && k <= |history|
  {
    forall i {:trigger Reaches(u, p, c, i, history[i])} | 0 <= i < k :: Reaches(u, p, c, i, history[i])
  }

  lemma StillReachesAll(u: Draws, w: Draws, p: Problem, c: Configuration, history: seq<seq<seq<int>>>, k: nat)
    requires Breedable(p, c) && u <= w && k <= |history| && ReachesAll(u, p, c, history, k)
    ensures ReachesAll(w, p, c, history, k)
  {
    forall i | 0 <= i < k
      ensures Reaches(w, p, c, i, history[i])
    {
      StillReaches(u, w, p, c, i, history[i]);
    }
  }

  lemma OneMoreReached(u: Draws, p: Problem, c: Configuration, history: seq<seq<seq<int>>>, k: nat)
    requires Breedable(p, c) && k < |history| && ReachesAll(u, p, c, history, k) && Reaches(u, p, c, k, history[k])
    ensures ReachesAll(u, p, c, history, k + 1)
  {
  }

  lemma {:induction false} EveryHistoryIsDrawn(p: Problem, c: Configuration, history: seq<seq<seq<int>>>, k: nat)
    returns (w: Draws)
    requires Breedable(p, c) && History(p, c, history) && k < |history|
    ensures Generation(w, 0, p, c, k) == (history[k], |w|) && ReachesAll(w, p, c, history, k)
    decreases k
  {
    if k == 0 {
      w := FirstIsDrawn(p, c, history[0]);
    } else {
      var u := EveryHistoryIsDrawn(p, c, history, k - 1);
      OneMoreReached(u, p, c, history, k - 1);
      w := OneMoreIsDrawn(u, p, c, k - 1, history[k - 1], history[k]);
      StillReachesAll(u, w, p, c, history, k);
    }
  }

  /** Two generations that draws make, one after the other. */
  lemma MadeFollows(
    u: Draws, p: Problem, c: Configuration, g: nat, generation: seq<seq<int>>, next: seq<seq<int>>)
    requires Breedable(p, c)
    requires Generation(u, 0, p, c, g).0 == generation && Generation(u, 0, p, c, g + 1).0 == next
    ensures Follows(p, c, generation, next)
  {
    GenerationsFollow(u, 0, p, c, g);
  }

  lemma MadeIsHistory(u: Draws, p: Problem, c: Configuration, history: seq<seq<seq<int>>>)
    requires Breedable(p, c) && Makes(u, p, c, history)
    ensures History(p, c, history)
  {
    assert forall i | 0 <= i < |history| :: Generation(u, 0, p, c, i).0 == history[i];
    forall i | 0 < i < |history|
      ensures Follows(p, c, history[i - 1], history[i])
    {
      MadeFollows(u, p, c, i - 1, history[i - 1], history[i]);
    }
  }

  lemma HistoryIsMade(p: Problem, c: Configuration, history: seq<seq<seq<int>>>) returns (w: Draws)
    requires Breedable(p, c) && History(p, c, history)
    ensures Makes(w, p, c, history)
  {
    w := [];
    if history != [] {
      var k := |history| - 1;
      w := EveryHistoryIsDrawn(p, c, history, k);
      forall i | 0 <= i < |history|
        ensures Generation(w, 0, p, c, i).0 == history[i]
      {
        assert i == k || Reaches(w, p, c, i, history[i]);
      }
    }
  }

  /**
   * What a search can do, exactly: a sequence of generations is made by some draws if and only if
   * they are legal and of full size and each is bred from the best and some others of the one before.
   */
  lemma HistoriesAreMadeIff(p: Problem, c: Configuration, history: seq<seq<seq<int>>>)
    requires Breedable(p, c)
    ensures (exists u: Draws :: Makes(u, p, c, history)) <==> History(p, c, history)
  {
    if u: Draws :| Makes(u, p, c, history) {
      MadeIsHistory(u, p, c, history);
    }
    if History(p, c, history) {
      var w := HistoryIsMade(p, c, history);
    }
  }
}
