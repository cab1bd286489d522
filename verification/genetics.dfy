/**
 * The genetic search on values: what each operator makes of the random draws, and what holds of the
 * generations for all draws.
 */
module Genetics {
  import opened Kinematics
  import opened Selection
  import opened Randomness

  datatype Problem = Problem(v0: real, mass: real, friction: real, target: real)

  datatype Configuration = Configuration(
    maxLength: int,
    populationSize: int,
    generations: int,
    mutationRate: real,
    bestParents: int,
    worstParents: int,
    speedThreshold: real,
    low: int,
    high: int,
    distanceWeight: real,
    speedWeight: real,
    lengthWeight: real,
    nonzeroWeight: real,
    timeoutMs: real)

  // ----- fitness

  datatype Score = Score(score: real, distanceDiff: real, speedPenalty: real, lengthPenalty: nat)

  function Abs(x: real): real {
    if x < 0.0 then -x else x
  }

  function Nonzeros(throttles: seq<int>): nat {
    if throttles == [] then 0 else (if throttles[0] != 0 then 1 else 0) + Nonzeros(throttles[1..])
  }

  function Weighted(c: Configuration, distanceDiff: real, speedPenalty: real, length: nat, nonzeros: nat): real {
    c.distanceWeight * distanceDiff + c.speedWeight * speedPenalty
    + c.lengthWeight * (length as real) + (nonzeros as real) * c.nonzeroWeight
  }

  function ScoreOf(p: Problem, c: Configuration, distance: real, speed: real, length: nat, nonzeros: nat): Score {
    var distanceDiff := Abs(p.target - distance);
    var speedPenalty := if 0.0 <= speed <= c.speedThreshold then 0.0 else Abs(speed - c.speedThreshold);
    Score(Weighted(c, distanceDiff, speedPenalty, length, nonzeros), distanceDiff, speedPenalty, length)
  }

  /** The score of a sequence, lower being better. */
  function Fitness(p: Problem, c: Configuration, throttles: seq<int>): Score
    requires p.mass != 0.0
  {
    ScoreOf(p, c,
            Distance(p.v0, throttles, p.mass, p.friction),
            FinalVelocity(p.v0, throttles, p.mass, p.friction),
            |throttles|, Nonzeros(throttles))
  }

  lemma {:induction false} NonzerosAdd(a: seq<int>, b: seq<int>)
    ensures Nonzeros(a + b) == Nonzeros(a) + Nonzeros(b)
    decreases |a|
  {
    if a == [] {
      assert a + b == b;
    } else {
      assert (a + b)[1..] == a[1..] + b;
      NonzerosAdd(a[1..], b);
    }
  }

  /** The count adds up over parts, and a single throttle counts exactly if it is not zero. */
  lemma NonzerosCounts(a: seq<int>, x: int, b: seq<int>)
    ensures Nonzeros([]) == 0
    ensures Nonzeros(a + [x] + b) == Nonzeros(a) + Nonzeros(b) + if x == 0 then 0 else 1
  {
    NonzerosAdd(a + [x], b);
    NonzerosAdd(a, [x]);
    assert [x][1..] == [];
  }

  /** How far the way is from the target, on either side. */
  lemma GapMeans(p: Problem, c: Configuration, throttles: seq<int>)
    requires p.mass != 0.0
    ensures
      var gap, way := Fitness(p, c, throttles).distanceDiff, Distance(p.v0, throttles, p.mass, p.friction);
      (way <= p.target ==> gap == p.target - way) && (way >= p.target ==> gap == way - p.target)
  {
  }

  /** No penalty from standstill up to the threshold, and the distance from the threshold otherwise. */
  lemma SpeedPenaltyMeans(p: Problem, c: Configuration, throttles: seq<int>)
    requires p.mass != 0.0
    ensures
      var penalty, speed := Fitness(p, c, throttles).speedPenalty, FinalVelocity(p.v0, throttles, p.mass, p.friction);
      && (0.0 <= speed <= c.speedThreshold ==> penalty == 0.0)
      && (speed > c.speedThreshold ==> penalty == speed - c.speedThreshold)
      && (speed < 0.0 && speed <= c.speedThreshold ==> penalty == c.speedThreshold - speed)
    ensures Fitness(p, c, throttles).lengthPenalty == |throttles|
  {
  }

  lemma Distribute(w: real, x: real, y: real)
    ensures w * x - w * y == w * (x - y)
  {
  }

  /** The price of so much more distance, speed, length and throttles that are not zero. */
  predicate ChargedFor(c: Configuration, distance: real, speed: real, length: int, nonzeros: int, price: real) {
    price == c.distanceWeight * distance + c.speedWeight * speed
             + c.lengthWeight * (length as real) + c.nonzeroWeight * (nonzeros as real)
  }

  lemma WeightedDiffer(
    c: Configuration, d1: real, d2: real, v1: real, v2: real, l1: nat, l2: nat, n1: nat, n2: nat, diff: real)
    requires diff == Weighted(c, d1, v1, l1, n1) - Weighted(c, d2, v2, l2, n2)
    ensures ChargedFor(c, d1 - d2, v1 - v2, l1 - l2, n1 - n2, diff)
  {
    Distribute(c.distanceWeight, d1, d2);
    Distribute(c.speedWeight, v1, v2);
    Distribute(c.lengthWeight, l1 as real, l2 as real);
    Distribute(c.nonzeroWeight, n1 as real, n2 as real);
    assert l1 as real - l2 as real == (l1 - l2) as real && n1 as real - n2 as real == (n1 - n2) as real;
  }

  /** A score is the weighted sum of its own penalties, and of the zero-free throttles of the sequence. */
  predicate Scored(c: Configuration, s: Score, throttles: seq<int>) {
    s.score == Weighted(c, s.distanceDiff, s.speedPenalty, |throttles|, Nonzeros(throttles))
  }

  lemma FitnessIsScored(p: Problem, c: Configuration, throttles: seq<int>)
    requires p.mass != 0.0
    ensures Scored(c, Fitness(p, c, throttles), throttles)
  {
  }

  /** What each of the four costs: two scores differ by the price of their differences. */
  lemma ScoresDiffer(c: Configuration, a: seq<int>, s: Score, b: seq<int>, t: Score)
    requires Scored(c, s, a) && Scored(c, t, b)
    ensures ChargedFor(c, s.distanceDiff - t.distanceDiff, s.speedPenalty - t.speedPenalty,
                       |a| - |b|, Nonzeros(a) - Nonzeros(b), s.score - t.score)
  {
    WeightedDiffer(c, s.distanceDiff, t.distanceDiff, s.speedPenalty, t.speedPenalty,
                   |a|, |b|, Nonzeros(a), Nonzeros(b), s.score - t.score);
  }

  /** And nothing else is charged. */
  lemma NoPenaltyScoresZero(c: Configuration, s: Score)
    requires Scored(c, s, []) && s.distanceDiff == 0.0 && s.speedPenalty == 0.0
    ensures s.score == 0.0
  {
    assert (0 as real) == 0.0;
  }

  /** What a sequence costs in any case: its length and its throttles that are not zero. */
  function Effort(c: Configuration, throttles: seq<int>): real {
    c.lengthWeight * (|throttles| as real) + (Nonzeros(throttles) as real) * c.nonzeroWeight
  }

  lemma ProductSign(w: real, x: real)
    requires w > 0.0 && x >= 0.0
    ensures w * x >= 0.0 && (w * x == 0.0 <==> x == 0.0)
  {
  }

  /**
   * Missing the target or arriving too fast always costs: a score is at least the effort, and equal
   * to it exactly for a sequence that reaches the target at an allowed speed.
   */
  lemma OnlyArrivingIsFree(p: Problem, c: Configuration, throttles: seq<int>)
    requires p.mass != 0.0 && c.distanceWeight > 0.0 && c.speedWeight > 0.0
    ensures Fitness(p, c, throttles).score >= Effort(c, throttles)
    ensures Fitness(p, c, throttles).score == Effort(c, throttles) <==>
      && Distance(p.v0, throttles, p.mass, p.friction) == p.target
      && var speed := FinalVelocity(p.v0, throttles, p.mass, p.friction);
         0.0 <= speed <= c.speedThreshold || speed == c.speedThreshold
  {
    var s := Fitness(p, c, throttles);
    ProductSign(c.distanceWeight, s.distanceDiff);
    ProductSign(c.speedWeight, s.speedPenalty);
    assert s.score == c.distanceWeight * s.distanceDiff + c.speedWeight * s.speedPenalty + Effort(c, throttles);
  }

  // ----- individuals

  /** How often `range(n)` iterates. */
  function AtLeastZero(n: int): nat {
    if n > 0 then n else 0
  }

  /** Length within bounds and every throttle in range. */
  ghost predicate Legal(c: Configuration, items: seq<int>) {
    && 1 <= |items| <= c.maxLength
    && forall i | 0 <= i < |items| :: c.low <= items[i] <= c.high
  }

  /** A generation of the right size, every individual legal. */
  ghost predicate IsGeneration(c: Configuration, generation: seq<seq<int>>) {
    |generation| == AtLeastZero(c.populationSize) && AllLegal(c, generation)
  }

  ghost predicate AllLegal(c: Configuration, pool: seq<seq<int>>) {
    forall i {:trigger Legal(c, pool[i])} | 0 <= i < |pool| :: Legal(c, pool[i])
  }

  /** The cut, joined and trimmed child of two parents. */
  function Bred(a: seq<int>, b: seq<int>, i: nat, j: nat, maxLength: int): seq<int>
    requires 1 <= i <= |a| && 1 <= j <= |b|
  {
    var child := a[..i] + b[j..];
    if |child| >= maxLength then child[..SliceLength(|child|, maxLength)] else child
  }

  lemma BredIsLegal(c: Configuration, a: seq<int>, b: seq<int>, i: nat, j: nat)
    requires Legal(c, a) && Legal(c, b) && 1 <= i <= |a| && 1 <= j <= |b|
    ensures Legal(c, Bred(a, b, i, j, c.maxLength))
  {
  }

  /** The child has the first parent's throttles up to its cut, and then the second's from its own. */
  lemma BredAt(a: seq<int>, b: seq<int>, i: nat, j: nat, maxLength: nat, q: nat)
    requires 1 <= i <= |a| && 1 <= j <= |b|
    ensures |Bred(a, b, i, j, maxLength)| == if i + |b| - j <= maxLength then i + |b| - j else maxLength
    ensures q < |Bred(a, b, i, j, maxLength)| ==>
              Bred(a, b, i, j, maxLength)[q] == if q < i then a[q] else b[j + q - i]
  {
  }

  // ----- the operators; n is the number of draws used before

  function Throttles(u: Draws, n: nat, c: Configuration, length: nat): (items: seq<int>)
    requires c.low <= c.high
    ensures |items| == length && forall i | 0 <= i < length :: c.low <= items[i] <= c.high
  {
    if length == 0 then [] else Throttles(u, n, c, length - 1) + [IntFrom(Draw(u, n + length - 1), c.low, c.high)]
  }

  /** One random individual; it uses one draw for its length and one for each throttle. */
  function Individual(u: Draws, n: nat, c: Configuration): (items: seq<int>)
    requires c.maxLength >= 1 && c.low <= c.high
    ensures Legal(c, items)
  {
    var length := IntFrom(Draw(u, n), 1, c.maxLength);
    Throttles(u, n + 1, c, length)
  }

  /** k random individuals, and the number of draws used after them. */
  function Individuals(u: Draws, n: nat, c: Configuration, k: nat): (r: (seq<seq<int>>, nat))
    requires c.maxLength >= 1 && c.low <= c.high
    ensures |r.0| == k && AllLegal(c, r.0)
  {
    if k == 0 then ([], n)
    else
      var (some, m) := Individuals(u, n, c, k - 1);
      var next := Individual(u, m, c);
      (some + [next], m + 1 + |next|)
  }

  /** A crossover of two parents of a pool. */
  function Child(u: Draws, n: nat, c: Configuration, pool: seq<seq<int>>): seq<int>
    requires |pool| >= 2 && AllLegal(c, pool)
  {
    var couple := PairOf(u, n, |pool|);
    var a, b := pool[couple.0], pool[couple.1];
    assert Legal(c, a) && Legal(c, b);
    Bred(a, b, IntFrom(Draw(u, n + 2), 1, |a|), IntFrom(Draw(u, n + 3), 1, |b|), c.maxLength)
  }

  /** k children; each uses four draws. */
  function Children(u: Draws, n: nat, c: Configuration, pool: seq<seq<int>>, k: nat): (children: seq<seq<int>>)
    requires |pool| >= 2 && AllLegal(c, pool)
    ensures |children| == k
  {
    if k == 0 then [] else Children(u, n, c, pool, k - 1) + [Child(u, n + 4 * (k - 1), c, pool)]
  }

  lemma ChildrenStep(u: Draws, n: nat, c: Configuration, pool: seq<seq<int>>, k: nat)
    requires |pool| >= 2 && AllLegal(c, pool)
    ensures Children(u, n, c, pool, k + 1) == Children(u, n, c, pool, k) + [Child(u, n + 4 * k, c, pool)]
  {
  }

  /** The i-th of the draws from n on falls below the rate. */
  predicate Hit(u: Draws, n: nat, i: nat, rate: real) {
    Draw(u, n + i) < rate
  }

  /** The first k throttles redrawn where a draw falls below the rate. */
  function Redraws(u: Draws, n: nat, c: Configuration, items: seq<int>, k: nat): (r: (seq<int>, nat))
    requires k <= |items| && c.low <= c.high
    ensures |r.0| == |items|
  {
    if k == 0 then (items, n)
    else
      var (some, m) := Redraws(u, n, c, items, k - 1);
      if Draw(u, m) < c.mutationRate then (some[k - 1 := IntFrom(Draw(u, m + 1), c.low, c.high)], m + 2)
      else (some, m + 1)
  }

  /** A throttle becomes what the next draw gives if its own draw falls below the rate, and stays otherwise. */
  lemma {:induction false} RedrawAt(u: Draws, n: nat, c: Configuration, items: seq<int>, k: nat, i: nat)
    requires i < k <= |items| && c.low <= c.high
    ensures
      var m := Redraws(u, n, c, items, i).1;
      && Redraws(u, n, c, items, k).0[i] == (
        if Draw(u, m) < c.mutationRate then IntFrom(Draw(u, m + 1), c.low, c.high) else items[i])
      && Redraws(u, n, c, items, i + 1).1 == m + if Draw(u, m) < c.mutationRate then 2 else 1
  {
    if i < k - 1 {
      RedrawAt(u, n, c, items, k - 1, i);
    } else {
      RedrawsAreInRange(u, n, c, items, i);
    }
  }

  /** One throttle deleted where a draw falls below the rate and there is more than one. */
  function Deletion(u: Draws, n: nat, c: Configuration, items: seq<int>): (seq<int>, nat) {
    if Draw(u, n) < c.mutationRate && |items| > 1 then
      var d := IntFrom(Draw(u, n + 1), 0, |items| - 1);
      (items[..d] + items[d + 1..], n + 2)
    else
      (items, n + 1)
  }

  function Mutant(u: Draws, n: nat, c: Configuration, items: seq<int>): (seq<int>, nat)
    requires c.low <= c.high
  {
    var (redrawn, m) := Redraws(u, n, c, items, |items|);
    Deletion(u, m, c, redrawn)
  }

  /** The mutants of the first k children, one after the other. */
  function Mutants(u: Draws, n: nat, c: Configuration, children: seq<seq<int>>, k: nat): (r: (seq<seq<int>>, nat))
    requires k <= |children| && c.low <= c.high
    ensures |r.0| == k
  {
    if k == 0 then ([], n)
    else
      var (some, m) := Mutants(u, n, c, children, k - 1);
      var (next, m') := Mutant(u, m, c, children[k - 1]);
      (some + [next], m')
  }

  /** The individuals at the first k of the given positions. */
  function At(generation: seq<seq<int>>, picks: seq<nat>, k: nat): (pool: seq<seq<int>>)
    requires Within(picks, |generation|) && k <= |picks|
    ensures |pool| == k && forall i {:trigger pool[i]} | 0 <= i < k :: pool[i] == generation[picks[i]]
  {
    if k == 0 then [] else At(generation, picks, k - 1) + [generation[picks[k - 1]]]
  }

  function Parents(generation: seq<seq<int>>, best: seq<nat>, worst: seq<nat>): (pool: seq<seq<int>>)
    requires Within(best, |generation|) && Within(worst, |generation|)
    ensures |pool| == |best| + |worst|
  {
    At(generation, best, |best|) + At(generation, worst, |worst|)
  }

  /** Whom the pool holds: the chosen best, followed by those drawn. */
  lemma ParentsAt(generation: seq<seq<int>>, best: seq<nat>, worst: seq<nat>, i: nat)
    requires Within(best, |generation|) && Within(worst, |generation|) && i < |best| + |worst|
    ensures Parents(generation, best, worst)[i] == generation[if i < |best| then best[i] else worst[i - |best|]]
  {
  }

  /** The best of a generation and others drawn from it. */
  function Pool(u: Draws, n: nat, c: Configuration, generation: seq<seq<int>>, best: seq<nat>): (pool: seq<seq<int>>)
    requires 0 <= c.worstParents <= |generation| && Within(best, |generation|)
    ensures |pool| == |best| + c.worstParents
    ensures AllLegal(c, generation) ==> AllLegal(c, pool)
  {
    Parents(generation, best, SampleOf(u, n, |generation|, c.worstParents))
  }

  /** Steps 4 and 5: the children of a pool of parents, and the mutants of these. */
  function Successors(u: Draws, n: nat, c: Configuration, pool: seq<seq<int>>): (r: (seq<seq<int>>, nat))
    requires |pool| >= 2 && AllLegal(c, pool) && c.low <= c.high
    ensures IsGeneration(c, r.0)
  {
    var k := AtLeastZero(c.populationSize);
    MutatedChildren(u, n, c, pool, k);
    Mutants(u, n + 4 * k, c, Children(u, n, c, pool, k), k)
  }

  // ----- scores

  /** The scores of the first k individuals. */
  function ScoresOf(p: Problem, c: Configuration, generation: seq<seq<int>>, k: nat): (values: seq<real>)
    requires p.mass != 0.0 && k <= |generation|
    ensures |values| == k
  {
    if k == 0 then [] else ScoresOf(p, c, generation, k - 1) + [Fitness(p, c, generation[k - 1]).score]
  }

  lemma {:induction false} ScoreAt(p: Problem, c: Configuration, generation: seq<seq<int>>, k: nat, i: nat)
    requires p.mass != 0.0 && i < k <= |generation|
    ensures ScoresOf(p, c, generation, k)[i] == Fitness(p, c, generation[i]).score
  {
    if i < k - 1 {
      ScoreAt(p, c, generation, k - 1, i);
    }
  }

  /** The positions of the best parents. */
  function BestOf(p: Problem, c: Configuration, generation: seq<seq<int>>): (picks: seq<nat>)
    requires p.mass != 0.0
    ensures |picks| == SliceLength(|generation|, c.bestParents) && Within(picks, |generation|)
  {
    Selected(ScoresOf(p, c, generation, |generation|), c.bestParents)
  }

  /** The position of the first minimum among the first k values. */
  function FirstMinimum(values: seq<real>, k: nat): (first: nat)
    requires 0 < k <= |values|
    ensures first < k
  {
    if k == 1 then 0
    else
      var first := FirstMinimum(values, k - 1);
      if values[k - 1] < values[first] then k - 1 else first
  }

  lemma {:induction false} FirstMinimumIsFirst(values: seq<real>, k: nat)
    requires 0 < k <= |values|
    ensures forall i | 0 <= i < k :: values[FirstMinimum(values, k)] <= values[i]
    ensures forall i | 0 <= i < FirstMinimum(values, k) :: values[FirstMinimum(values, k)] < values[i]
  {
    if k > 1 {
      FirstMinimumIsFirst(values, k - 1);
    }
  }

  /** The best of a generation: the first one of minimal score. */
  function Best(p: Problem, c: Configuration, generation: seq<seq<int>>): seq<int>
    requires p.mass != 0.0 && generation != []
  {
    generation[FirstMinimum(ScoresOf(p, c, generation, |generation|), |generation|)]
  }

  /** No individual scores better than the best, and those before it score worse. */
  lemma BestIsFirst(p: Problem, c: Configuration, generation: seq<seq<int>>, i: nat)
    requires p.mass != 0.0 && i < |generation|
    ensures
      var k := FirstMinimum(ScoresOf(p, c, generation, |generation|), |generation|);
      && Best(p, c, generation) == generation[k]
      && Fitness(p, c, generation[k]).score <= Fitness(p, c, generation[i]).score
      && (i < k ==> Fitness(p, c, generation[k]).score < Fitness(p, c, generation[i]).score)
  {
    var values := ScoresOf(p, c, generation, |generation|);
    FirstMinimumIsFirst(values, |generation|);
    ScoreAt(p, c, generation, |generation|, i);
    ScoreAt(p, c, generation, |generation|, FirstMinimum(values, |generation|));
  }

  // ----- the search

  /** Exactly the configurations for which no draw, division or minimum of a generation raises. */
  predicate Breedable(p: Problem, c: Configuration) {
    && c.populationSize > 0 && c.maxLength >= 1 && c.low <= c.high && p.mass != 0.0
    && 0 <= c.worstParents <= c.populationSize
    && SliceLength(c.populationSize, c.bestParents) + c.worstParents >= 2
  }

  /** Exactly the configurations for which the search does not raise. */
  predicate Runnable(p: Problem, c: Configuration) {
    && (c.populationSize > 0 ==> c.maxLength >= 1 && c.low <= c.high)
    && (c.generations > 0 ==> Breedable(p, c))
  }

  /** Step 3: the parents of the next generation. */
  function PoolOf(u: Draws, n: nat, p: Problem, c: Configuration, generation: seq<seq<int>>): (pool: seq<seq<int>>)
    requires Breedable(p, c) && IsGeneration(c, generation)
    ensures |pool| >= 2 && AllLegal(c, pool)
  {
    Pool(u, n, c, generation, BestOf(p, c, generation))
  }

  /** Steps 3 to 5. */
  function NextGeneration(u: Draws, n: nat, p: Problem, c: Configuration, generation: seq<seq<int>>)
    : (r: (seq<seq<int>>, nat))
    requires Breedable(p, c) && IsGeneration(c, generation)
    ensures IsGeneration(c, r.0)
  {
    Successors(u, n + c.worstParents, c, PoolOf(u, n, p, c, generation))
  }

  lemma NextOf(u: Draws, n: nat, p: Problem, c: Configuration, generation: seq<seq<int>>, pool: seq<seq<int>>)
    requires Breedable(p, c) && IsGeneration(c, generation) && pool == PoolOf(u, n, p, c, generation)
    ensures NextGeneration(u, n, p, c, generation) == Successors(u, n + c.worstParents, c, pool)
  {
  }

  /** The g-th generation, as the draws make it, and the number of draws used then. */
  function Generation(u: Draws, n: nat, p: Problem, c: Configuration, g: nat): (r: (seq<seq<int>>, nat))
    requires Breedable(p, c)
    ensures IsGeneration(c, r.0)
    decreases g, 1
  {
    if g == 0 then Individuals(u, n, c, c.populationSize) else Later(u, n, p, c, g)
  }

  /** A generation bred from the one before. */
  function Later(u: Draws, n: nat, p: Problem, c: Configuration, g: nat): (r: (seq<seq<int>>, nat))
    requires Breedable(p, c) && g > 0
    ensures IsGeneration(c, r.0)
    decreases g, 0
  {
    var (before, m) := Generation(u, n, p, c, g - 1);
    NextGeneration(u, m, p, c, before)
  }

  lemma GenerationStep(u: Draws, n: nat, p: Problem, c: Configuration, g: nat)
    requires Breedable(p, c)
    ensures
      var (before, m) := Generation(u, n, p, c, g);
      Generation(u, n, p, c, g + 1) == NextGeneration(u, m, p, c, before)
  {
  }

  lemma BestIsLegal(u: Draws, n: nat, p: Problem, c: Configuration, g: nat)
    requires Breedable(p, c)
    ensures Legal(c, Best(p, c, Generation(u, n, p, c, g).0))
  {
  }

  /** Reading k is taken at the start, and reading k + g after g generations. */
  predicate Late(c: Configuration, readings: seq<real>, k: nat, g: nat) {
    Reading(readings, k + g) - Reading(readings, k) >= c.timeoutMs
  }

  /**
   * How many generations are evaluated: all of them, unless an earlier one ends too late. The count
   * starts from g generations that were evaluated before.
   */
  function Rounds(c: Configuration, readings: seq<real>, k: nat, g: nat): nat
    requires g <= c.generations
    decreases c.generations - g
  {
    if g == c.generations || (g > 0 && Late(c, readings, k, g)) then g
    else Rounds(c, readings, k, g + 1)
  }

  /** No generation up to g ended too late. */
  predicate InTime(c: Configuration, readings: seq<real>, k: nat, g: nat)
  {
    g == 0 || (!Late(c, readings, k, g) && InTime(c, readings, k, g - 1))
  }

  /** After g generations: the reading taken at the start, and the number of readings so far. */
  predicate Ticking(c: Configuration, readings: seq<real>, k: nat, g: nat, start: real, read: nat) {
    read == k + 1 + g && start == Reading(readings, k) && InTime(c, readings, k, g)
  }

  lemma OneMoreReading(c: Configuration, readings: seq<real>, k: nat, g: nat, start: real, now: real)
    requires Ticking(c, readings, k, g, start, k + 1 + g) && now == Reading(readings, k + 1 + g)
    ensures now - start >= c.timeoutMs ==> Late(c, readings, k, g + 1)
    ensures now - start < c.timeoutMs ==> Ticking(c, readings, k, g + 1, start, k + 2 + g)
  {
    assert k + 1 + g == k + (g + 1);
  }

  lemma {:induction false} RoundsFrom(c: Configuration, readings: seq<real>, k: nat, g: nat)
    requires g <= c.generations && InTime(c, readings, k, g)
    ensures Rounds(c, readings, k, 0) == Rounds(c, readings, k, g)
  {
    if g > 0 {
      RoundsFrom(c, readings, k, g - 1);
    }
  }

  /** The search stops after `last`: it ends too late, or there are no more, and none before it was late. */
  predicate StopsAfter(c: Configuration, readings: seq<real>, k: nat, last: nat) {
    && last < c.generations && InTime(c, readings, k, last)
    && (last + 1 == c.generations || Late(c, readings, k, last + 1))
  }

  lemma RoundsAre(c: Configuration, readings: seq<real>, k: nat, last: nat)
    requires StopsAfter(c, readings, k, last)
    ensures Rounds(c, readings, k, 0) == last + 1 && Rounds(c, readings, k, 0) - 1 == last
  {
    RoundsFrom(c, readings, k, last);
  }

  /** The search stops after the first generation that ends too late, or after the last one. */
  lemma {:induction false} RoundsStopInTime(c: Configuration, readings: seq<real>, k: nat, g: nat)
    requires 0 <= g <= c.generations && c.generations > 0
    ensures
      var rounds := Rounds(c, readings, k, g);
      && 1 <= rounds <= c.generations && g <= rounds
      && (forall i | 0 < i && g <= i < rounds :: !Late(c, readings, k, i))
      && (rounds < c.generations ==> Late(c, readings, k, rounds))
    decreases c.generations - g
  {
    if g < c.generations && (g == 0 || !Late(c, readings, k, g)) {
      RoundsStopInTime(c, readings, k, g + 1);
    }
  }

  /** The same for the whole search, by the clock: i is the number of any generation but the last. */
  lemma SearchStopsInTime(c: Configuration, readings: seq<real>, k: nat, i: nat)
    requires c.generations > 0
    ensures
      var rounds := Rounds(c, readings, k, 0);
      && 1 <= rounds <= c.generations
      && (0 < i < rounds ==> Reading(readings, k + i) - Reading(readings, k) < c.timeoutMs)
      && (rounds < c.generations ==> Reading(readings, k + rounds) - Reading(readings, k) >= c.timeoutMs)
  {
    RoundsStopInTime(c, readings, k, 0);
    assert 0 < i < Rounds(c, readings, k, 0) ==> !Late(c, readings, k, i);
  }

  // ----- what the operators keep, for all draws

  /** A crossover of two individuals at different positions of a pool. */
  ghost predicate ChildOf(c: Configuration, pool: seq<seq<int>>, child: seq<int>) {
    exists a: nat, b: nat, i: nat, j: nat ::
      && a < |pool| && b < |pool| && a != b && 1 <= i <= |pool[a]| && 1 <= j <= |pool[b]|
      && child == Bred(pool[a], pool[b], i, j, c.maxLength)
  }

  /** A mutated crossover. */
  ghost predicate Offspring(c: Configuration, pool: seq<seq<int>>, items: seq<int>) {
    exists child :: ChildOf(c, pool, child) && MutantOf(c, child, items)
  }

  ghost predicate AllOffspring(c: Configuration, pool: seq<seq<int>>, next: seq<seq<int>>) {
    forall i {:trigger Offspring(c, pool, next[i])} | 0 <= i < |next| :: Offspring(c, pool, next[i])
  }

  /**
   * Some throttles redrawn, none at rate 0 and all at rate 1, and at most one deleted, which at
   * rate 1 is certain if there is more than one.
   */
  ghost predicate MutantOf(c: Configuration, before: seq<int>, after: seq<int>) {
    exists redrawn: seq<int> :: Redrawn(c, before, redrawn) && Shortened(c, redrawn, after)
  }

  ghost predicate Redrawn(c: Configuration, before: seq<int>, after: seq<int>) {
    && |after| == |before|
    && (forall i | 0 <= i < |before| :: after[i] == before[i] || c.low <= after[i] <= c.high)
    && (c.mutationRate <= 0.0 ==> after == before)
    && (c.mutationRate >= 1.0 ==> forall i | 0 <= i < |after| :: c.low <= after[i] <= c.high)
  }

  ghost predicate Shortened(c: Configuration, before: seq<int>, after: seq<int>) {
    || (after == before && (c.mutationRate >= 1.0 ==> |before| <= 1))
    || (|before| > 1 && c.mutationRate > 0.0 && exists d | 0 <= d < |before| :: after == before[..d] + before[d + 1..])
  }

  lemma MutantIsLegal(c: Configuration, before: seq<int>, after: seq<int>)
    requires Legal(c, before) && MutantOf(c, before, after)
    ensures Legal(c, after)
  {
  }

  lemma ChildIsOne(u: Draws, n: nat, c: Configuration, pool: seq<seq<int>>)
    requires |pool| >= 2 && AllLegal(c, pool)
    ensures ChildOf(c, pool, Child(u, n, c, pool)) && Legal(c, Child(u, n, c, pool))
  {
    var couple := PairOf(u, n, |pool|);
    var a, b := pool[couple.0], pool[couple.1];
    assert Legal(c, a) && Legal(c, b);
    var i, j := IntFrom(Draw(u, n + 2), 1, |a|), IntFrom(Draw(u, n + 3), 1, |b|);
    assert Child(u, n, c, pool) == Bred(a, b, i, j, c.maxLength);
    BredIsLegal(c, a, b, i, j);
  }

  lemma {:induction false} ChildrenAreBred(u: Draws, n: nat, c: Configuration, pool: seq<seq<int>>, k: nat)
    requires |pool| >= 2 && AllLegal(c, pool)
    ensures
      var children := Children(u, n, c, pool, k);
      AllLegal(c, children) && forall i | 0 <= i < k :: ChildOf(c, pool, children[i])
  {
    if k > 0 {
      ChildrenAreBred(u, n, c, pool, k - 1);
      ChildIsOne(u, n + 4 * (k - 1), c, pool);
    }
  }

  lemma {:induction false} RedrawsAreInRange(u: Draws, n: nat, c: Configuration, items: seq<int>, k: nat)
    requires k <= |items| && c.low <= c.high
    ensures
      var s := Redraws(u, n, c, items, k).0;
      && (forall i | 0 <= i < k :: s[i] == items[i] || c.low <= s[i] <= c.high)
      && (forall i | k <= i < |items| :: s[i] == items[i])
      && (c.mutationRate <= 0.0 ==> s == items)
      && (c.mutationRate >= 1.0 ==> forall i | 0 <= i < k :: c.low <= s[i] <= c.high)
  {
    if k > 0 {
      RedrawsAreInRange(u, n, c, items, k - 1);
    }
  }

  lemma DeletionShortens(u: Draws, n: nat, c: Configuration, items: seq<int>)
    ensures Shortened(c, items, Deletion(u, n, c, items).0)
  {
    if Draw(u, n) < c.mutationRate && |items| > 1 {
      var d := IntFrom(Draw(u, n + 1), 0, |items| - 1);
      assert Deletion(u, n, c, items).0 == items[..d] + items[d + 1..];
    }
  }

  /** Whatever the draws, mutation redraws within the range, shortens by at most one, and honours rates 0 and 1. */
  lemma MutantIsOne(u: Draws, n: nat, c: Configuration, items: seq<int>)
    requires c.low <= c.high
    ensures MutantOf(c, items, Mutant(u, n, c, items).0)
  {
    RedrawsAreInRange(u, n, c, items, |items|);
    var (redrawn, m) := Redraws(u, n, c, items, |items|);
    assert Redrawn(c, items, redrawn);
    DeletionShortens(u, m, c, redrawn);
  }

  lemma {:induction false} MutantsAreSome(u: Draws, n: nat, c: Configuration, children: seq<seq<int>>, k: nat)
    requires k <= |children| && c.low <= c.high
    ensures forall i | 0 <= i < k :: MutantOf(c, children[i], Mutants(u, n, c, children, k).0[i])
  {
    if k > 0 {
      MutantsAreSome(u, n, c, children, k - 1);
      MutantIsOne(u, Mutants(u, n, c, children, k - 1).1, c, children[k - 1]);
    }
  }

  lemma OffspringOf(c: Configuration, pool: seq<seq<int>>, children: seq<seq<int>>, next: seq<seq<int>>)
    requires |next| == |children| && AllLegal(c, children)
    requires forall i | 0 <= i < |next| :: ChildOf(c, pool, children[i]) && MutantOf(c, children[i], next[i])
    ensures AllOffspring(c, pool, next) && AllLegal(c, next)
  {
    forall i | 0 <= i < |next|
      ensures Offspring(c, pool, next[i]) && Legal(c, next[i])
    {
      MutantIsLegal(c, children[i], next[i]);
    }
  }

  lemma MutatedChildren(u: Draws, n: nat, c: Configuration, pool: seq<seq<int>>, k: nat)
    requires |pool| >= 2 && AllLegal(c, pool) && c.low <= c.high
    ensures AllOffspring(c, pool, Mutants(u, n + 4 * k, c, Children(u, n, c, pool, k), k).0)
    ensures AllLegal(c, Mutants(u, n + 4 * k, c, Children(u, n, c, pool, k), k).0)
  {
    var children := Children(u, n, c, pool, k);
    ChildrenAreBred(u, n, c, pool, k);
    MutantsAreSome(u, n + 4 * k, c, children, k);
    OffspringOf(c, pool, children, Mutants(u, n + 4 * k, c, children, k).0);
  }

  lemma SuccessorsAreOffspring(u: Draws, n: nat, c: Configuration, pool: seq<seq<int>>)
    requires |pool| >= 2 && AllLegal(c, pool) && c.low <= c.high
    ensures AllOffspring(c, pool, Successors(u, n, c, pool).0)
  {
    MutatedChildren(u, n, c, pool, AtLeastZero(c.populationSize));
  }

  /** The individual at i has the better score than that at j, or the same and stands earlier. */
  predicate Fitter(p: Problem, c: Configuration, generation: seq<seq<int>>, i: nat, j: nat)
    requires p.mass != 0.0 && i < |generation| && j < |generation|
  {
    var s, t := Fitness(p, c, generation[i]).score, Fitness(p, c, generation[j]).score;
    s < t || (s == t && i < j)
  }

  /** As many positions as asked for, in order of fitness, and none left out is fitter than one of them. */
  ghost predicate ChosenBest(p: Problem, c: Configuration, generation: seq<seq<int>>, best: seq<nat>)
    requires p.mass != 0.0
  {
    && |best| == SliceLength(|generation|, c.bestParents) && Within(best, |generation|)
    && (forall a, b | 0 <= a < b < |best| :: Fitter(p, c, generation, best[a], best[b]))
    && (forall a, j | 0 <= a < |best| && 0 <= j < |generation| && j !in best :: Fitter(p, c, generation, best[a], j))
  }

  /** The pool holds the individuals at the given positions. */
  predicate PoolFrom(generation: seq<seq<int>>, best: seq<nat>, worst: seq<nat>, pool: seq<seq<int>>)
    requires Within(best, |generation|) && Within(worst, |generation|)
  {
    && |pool| == |best| + |worst|
    && (forall i | 0 <= i < |best| :: pool[i] == generation[best[i]])
    && (forall i | 0 <= i < |worst| :: pool[|best| + i] == generation[worst[i]])
  }

  /**
   * One generation and the next: every new individual is a mutated crossover of two parents at
   * different positions of a pool, which holds the best by fitness and some that were drawn.
   */
  ghost predicate Follows(p: Problem, c: Configuration, generation: seq<seq<int>>, next: seq<seq<int>>)
    requires p.mass != 0.0
  {
    exists best: seq<nat>, worst: seq<nat>, pool ::
      && ChosenBest(p, c, generation, best) && Drawn(worst, c.worstParents, |generation|)
      && PoolFrom(generation, best, worst, pool)
      && AllOffspring(c, pool, next)
  }

  lemma BestIsChosen(p: Problem, c: Configuration, generation: seq<seq<int>>)
    requires p.mass != 0.0
    ensures ChosenBest(p, c, generation, BestOf(p, c, generation))
  {
    var scores, best := ScoresOf(p, c, generation, |generation|), BestOf(p, c, generation);
    forall i | 0 <= i < |generation|
      ensures scores[i] == Fitness(p, c, generation[i]).score
    {
      ScoreAt(p, c, generation, |generation|, i);
    }
    SelectionIsBest(scores, c.bestParents);
    forall a, b | 0 <= a < b < |best|
      ensures Fitter(p, c, generation, best[a], best[b])
    {
      var i, j := best[a], best[b];
      assert scores[i] < scores[j] || (scores[i] == scores[j] && i < j);
    }
    forall a, j | 0 <= a < |best| && 0 <= j < |generation| && j !in best
      ensures Fitter(p, c, generation, best[a], j)
    {
      var i := best[a];
      assert scores[i] < scores[j] || (scores[i] == scores[j] && i < j);
    }
  }

  lemma PoolOfHolds(u: Draws, n: nat, p: Problem, c: Configuration, generation: seq<seq<int>>)
    requires Breedable(p, c) && IsGeneration(c, generation)
    ensures Drawn(SampleOf(u, n, |generation|, c.worstParents), c.worstParents, |generation|)
    ensures PoolFrom(generation, BestOf(p, c, generation), SampleOf(u, n, |generation|, c.worstParents),
                     PoolOf(u, n, p, c, generation))
  {
    SampleIsDrawn(u, n, |generation|, c.worstParents);
    ParentsFrom(generation, BestOf(p, c, generation), SampleOf(u, n, |generation|, c.worstParents));
  }

  lemma SuccessorsFollow(
    u: Draws, n: nat, p: Problem, c: Configuration, generation: seq<seq<int>>,
    best: seq<nat>, worst: seq<nat>, pool: seq<seq<int>>)
    requires Breedable(p, c) && ChosenBest(p, c, generation, best) && Drawn(worst, c.worstParents, |generation|)
    requires PoolFrom(generation, best, worst, pool) && |pool| >= 2 && AllLegal(c, pool)
    ensures Follows(p, c, generation, Successors(u, n, c, pool).0)
  {
    SuccessorsAreOffspring(u, n, c, pool);
    FollowsBy(p, c, generation, best, worst, pool, Successors(u, n, c, pool).0);
  }

  lemma NextFollows(u: Draws, n: nat, p: Problem, c: Configuration, generation: seq<seq<int>>)
    requires Breedable(p, c) && IsGeneration(c, generation)
    ensures Follows(p, c, generation, NextGeneration(u, n, p, c, generation).0)
  {
    var pool := PoolOf(u, n, p, c, generation);
    PoolOfHolds(u, n, p, c, generation);
    BestIsChosen(p, c, generation);
    SuccessorsFollow(u, n + c.worstParents, p, c, generation, BestOf(p, c, generation),
                     SampleOf(u, n, |generation|, c.worstParents), pool);
  }

  lemma ParentsFrom(generation: seq<seq<int>>, best: seq<nat>, worst: seq<nat>)
    requires Within(best, |generation|) && Within(worst, |generation|)
    ensures PoolFrom(generation, best, worst, Parents(generation, best, worst))
  {
    var pool := Parents(generation, best, worst);
    forall i | 0 <= i < |pool|
      ensures pool[i] == generation[if i < |best| then best[i] else worst[i - |best|]]
    {
      ParentsAt(generation, best, worst, i);
    }
  }

  /** For all draws, every generation is legal, of full size, and bred from the one before. */
  lemma GenerationsFollow(u: Draws, n: nat, p: Problem, c: Configuration, g: nat)
    requires Breedable(p, c)
    ensures IsGeneration(c, Generation(u, n, p, c, g).0) && IsGeneration(c, Generation(u, n, p, c, g + 1).0)
    ensures Follows(p, c, Generation(u, n, p, c, g).0, Generation(u, n, p, c, g + 1).0)
  {
    var (before, m) := Generation(u, n, p, c, g);
    GenerationStep(u, n, p, c, g);
    NextFollows(u, m, p, c, before);
  }

  lemma FollowsBy(
    p: Problem, c: Configuration, generation: seq<seq<int>>, best: seq<nat>, worst: seq<nat>,
    pool: seq<seq<int>>, next: seq<seq<int>>)
    requires p.mass != 0.0 && ChosenBest(p, c, generation, best) && Drawn(worst, c.worstParents, |generation|)
    requires PoolFrom(generation, best, worst, pool) && AllOffspring(c, pool, next)
    ensures Follows(p, c, generation, next)
  {
  }
}
