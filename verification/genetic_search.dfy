/**
 * The genetic search in its own form: lists are heap objects, mutation is in place, and random
 * numbers and the time come from objects that hand them out one after the other.
 */
module GeneticSearch {
  import opened Wrappers
  import opened Kinematics
  import opened Selection
  import opened Randomness
  import opened Genetics

  /** A Python list of throttles. */
  class ThrottleList {
    var items: seq<int>

    constructor (items: seq<int>)
      ensures this.items == items
    {
      this.items := items;
    }
  }

  /** The throttles of every individual, as they stand. */
  ghost predicate Holds(population: seq<ThrottleList>, generation: seq<seq<int>>)
    reads population
  {
    && |population| == |generation|
    && forall i | 0 <= i < |generation| :: population[i].items == generation[i]
  }

  /** The same, and the draws used so far. */
  ghost predicate Yields(population: seq<ThrottleList>, drawn: nat, next: (seq<seq<int>>, nat))
    reads population
  {
    Holds(population, next.0) && drawn == next.1
  }

  // ----- scoring and selection

  method ComputeFitness(p: Problem, c: Configuration, throttles: seq<int>) returns (r: Result<Score, SearchError>)
    ensures r.Failure? <==> p.mass == 0.0 && throttles != []
    ensures r.Success? && p.mass != 0.0 ==> r.value == Fitness(p, c, throttles)
    ensures r.Success? && p.mass == 0.0 ==> r.value == ScoreOf(p, c, 0.0, p.v0, 0, 0)
  {
    var totals :- CalculateTotalDistance(p.v0, throttles, p.mass, p.friction);
    return Success(ScoreOf(p, c, totals.0, totals.1, |throttles|, Nonzeros(throttles)));
  }

  method EvaluateAll(p: Problem, c: Configuration, population: seq<ThrottleList>, ghost generation: seq<seq<int>>)
    returns (r: Result<seq<Score>, SearchError>)
    requires Holds(population, generation) && AllLegal(c, generation)
    ensures r.Failure? <==> p.mass == 0.0 && population != []
    ensures r.Success? ==> |r.value| == |population|
    ensures r.Success? && p.mass != 0.0 ==>
      forall i | 0 <= i < |generation| :: r.value[i] == Fitness(p, c, generation[i])
  {
    var scores := [];
    for k := 0 to |population|
      invariant |scores| == k && (k > 0 ==> p.mass != 0.0)
      invariant p.mass != 0.0 ==> forall i | 0 <= i < k :: scores[i] == Fitness(p, c, generation[i])
    {
      assert Legal(c, generation[k]);
      var score :- ComputeFitness(p, c, population[k].items);
      scores := scores + [score];
    }
    return Success(scores);
  }

  /** The first k scores. */
  function Values(scores: seq<Score>, k: nat): (values: seq<real>)
    requires k <= |scores|
    ensures |values| == k && forall i | 0 <= i < k :: values[i] == scores[i].score
  {
    if k == 0 then [] else Values(scores, k - 1) + [scores[k - 1].score]
  }

  /** `min` by score, and the first position holding an equal record: the first minimum. */
  method BestPosition(scores: seq<Score>) returns (r: Result<nat, SearchError>)
    ensures r.Failure? <==> scores == []
    ensures r.Success? ==> r.value == FirstMinimum(Values(scores, |scores|), |scores|)
  {
    if scores == [] {
      return Failure(EmptyMinimum);
    }
    ghost var values := Values(scores, |scores|);
    var best := scores[0];
    for i := 1 to |scores|
      invariant best == scores[FirstMinimum(values, i)]
    {
      if scores[i].score < best.score {
        best := scores[i];
      }
    }
    FirstMinimumIsFirst(values, |scores|);
    var k := 0;
    while scores[k] != best
      invariant k <= FirstMinimum(values, |scores|)
      decreases |scores| - k
    {
      k := k + 1;
    }
    return Success(k);
  }

  /** `select_best_parents`. */
  method SelectBestParents(population: seq<ThrottleList>, scores: seq<Score>, k: int)
    returns (parents: seq<ThrottleList>)
    requires |population| == |scores|
    ensures
      var picks := Selected(Values(scores, |scores|), k);
      && |parents| == |picks| == SliceLength(|population|, k)
      && forall i | 0 <= i < |parents| :: picks[i] < |population| && parents[i] == population[picks[i]]
  {
    var picks := Selected(Values(scores, |scores|), k);
    parents := [];
    for i := 0 to |picks|
      invariant |parents| == i
      invariant forall j | 0 <= j < i :: parents[j] == population[picks[j]]
    {
      parents := parents + [population[picks[i]]];
    }
  }

  // ----- individuals

  /** `crossover`: always a new list. */
  method Crossover(random: RandomSource, parent1: ThrottleList, parent2: ThrottleList, maxLength: int)
    returns (r: Result<ThrottleList, SearchError>)
    modifies random
    ensures r.Failure? <==> parent1.items == [] || parent2.items == []
    ensures r.Success? ==> fresh(r.value) && random.drawn == old(random.drawn) + 2
    ensures r.Success? ==>
      var n := old(random.drawn);
      var i := IntFrom(Draw(random.draws, n), 1, |parent1.items|);
      var j := IntFrom(Draw(random.draws, n + 1), 1, |parent2.items|);
      r.value.items == Bred(parent1.items, parent2.items, i, j, maxLength)
  {
    var i :- random.RandInt(1, |parent1.items|);
    var j :- random.RandInt(1, |parent2.items|);
    var child := parent1.items[..i] + parent2.items[j..];
    if |child| >= maxLength {
      child := child[..SliceLength(|child|, maxLength)];
    }
    var list := new ThrottleList(child);
    return Success(list);
  }

  /** The loop of `mutate`; with an empty range it fails at the first throttle to be redrawn. */
  method Redraw(random: RandomSource, list: ThrottleList, c: Configuration) returns (r: Result<(), SearchError>)
    modifies random, list
    ensures c.low <= c.high ==>
      && r == Success(())
      && (list.items, random.drawn) ==
         Redraws(random.draws, old(random.drawn), c, old(list.items), |old(list.items)|)
    ensures c.low > c.high && r.Success? ==> random.drawn == old(random.drawn) + |old(list.items)|
    ensures c.low > c.high ==>
      && list.items == old(list.items)
      && (r.Failure? <==> exists i :: 0 <= i < |list.items| && Hit(random.draws, old(random.drawn), i, c.mutationRate))
  {
    ghost var before, n := list.items, random.drawn;
    for i := 0 to |list.items|
      invariant |list.items| == |before|
      invariant c.low <= c.high ==> (list.items, random.drawn) == Redraws(random.draws, n, c, before, i)
      invariant c.low > c.high ==> list.items == before && random.drawn == n + i
      invariant c.low > c.high ==> forall k | 0 <= k < i :: !Hit(random.draws, n, k, c.mutationRate)
    {
      var u := random.Random();
      if u < c.mutationRate {
        assert c.low > c.high ==> Hit(random.draws, n, i, c.mutationRate);
        var x :- random.RandInt(c.low, c.high);
        list.items := list.items[i := x];
      }
    }
    return Success(());
  }

  /** `mutate`: in place. */
  method Mutate(random: RandomSource, list: ThrottleList, c: Configuration)
    returns (r: Result<ThrottleList, SearchError>)
    modifies random, list
    ensures c.low <= c.high ==> r.Success?
    ensures c.low > c.high ==>
      (r.Failure? <==>
         exists i :: 0 <= i < |old(list.items)| && Hit(random.draws, old(random.drawn), i, c.mutationRate))
    ensures r.Success? ==> r.value == list
    ensures r.Success? && c.low > c.high ==>
      (list.items, random.drawn) ==
      Deletion(random.draws, old(random.drawn) + |old(list.items)|, c, old(list.items))
    ensures c.low <= c.high ==>
      (list.items, random.drawn) == Mutant(random.draws, old(random.drawn), c, old(list.items))
  {
    var _ :- Redraw(random, list, c);
    var u := random.Random();
    if u < c.mutationRate && |list.items| > 1 {
      var d := random.RandInt(0, |list.items| - 1);
      list.items := list.items[..d.value] + list.items[d.value + 1..];
    }
    return Success(list);
  }

  /** The list comprehension of `generate_initial_population`. */
  method RandomThrottles(random: RandomSource, c: Configuration) returns (r: Result<seq<int>, SearchError>)
    modifies random
    ensures r.Failure? <==> c.maxLength < 1 || c.low > c.high
    ensures r.Success? ==>
      && r.value == Individual(random.draws, old(random.drawn), c)
      && random.drawn == old(random.drawn) + 1 + |r.value|
  {
    ghost var n := random.drawn;
    var length :- random.RandInt(1, c.maxLength);
    var throttles: seq<int> := [];
    while |throttles| < length
      invariant |throttles| <= length && random.drawn == n + 1 + |throttles|
      invariant |throttles| > 0 ==> c.low <= c.high
      invariant c.low <= c.high ==> throttles == Throttles(random.draws, n + 1, c, |throttles|)
    {
      var x :- random.RandInt(c.low, c.high);
      throttles := throttles + [x];
    }
    return Success(throttles);
  }

  /** `generate_initial_population`. */
  method GenerateInitialPopulation(random: RandomSource, c: Configuration)
    returns (r: Result<seq<ThrottleList>, SearchError>)
    modifies random
    ensures r.Failure? <==> c.populationSize > 0 && (c.maxLength < 1 || c.low > c.high)
    ensures r.Success? ==> |r.value| == AtLeastZero(c.populationSize) && Distinct(r.value)
    ensures r.Success? ==> forall i | 0 <= i < |r.value| :: fresh(r.value[i])
    ensures r.Success? && c.populationSize > 0 ==>
      Yields(r.value, random.drawn, Individuals(random.draws, old(random.drawn), c, c.populationSize))
  {
    ghost var n, made := random.drawn, ([], random.drawn);
    var population: seq<ThrottleList> := [];
    while |population| < c.populationSize
      invariant |population| > 0 ==> c.maxLength >= 1 && c.low <= c.high
      invariant |population| <= AtLeastZero(c.populationSize) && Distinct(population)
      invariant forall i | 0 <= i < |population| :: fresh(population[i])
      invariant Holds(population, made.0) && random.drawn == made.1
      invariant c.maxLength >= 1 && c.low <= c.high ==> made == Individuals(random.draws, n, c, |population|)
    {
      var throttles :- RandomThrottles(random, c);
      var list := new ThrottleList(throttles);
      population, made := population + [list], (made.0 + [throttles], random.drawn);
    }
    return Success(population);
  }

  // ----- one generation

  /** Step 3: the best of the population, and others drawn from it. */
  method SelectParents(
    random: RandomSource, c: Configuration, population: seq<ThrottleList>, scores: seq<Score>,
    ghost generation: seq<seq<int>>)
    returns (r: Result<seq<ThrottleList>, SearchError>)
    requires |population| == |scores| && Holds(population, generation)
    modifies random
    ensures r.Failure? <==> c.worstParents < 0 || c.worstParents > |population|
    ensures r.Success? ==>
      && Holds(r.value, Pool(random.draws, old(random.drawn), c, generation,
                             Selected(Values(scores, |scores|), c.bestParents)))
      && (forall i | 0 <= i < SliceLength(|population|, c.bestParents) ::
            i < |r.value| && r.value[i] == population[Selected(Values(scores, |scores|), c.bestParents)[i]])
      && random.drawn == old(random.drawn) + c.worstParents
  {
    var best := SelectBestParents(population, scores, c.bestParents);
    var worst :- random.Sample(population, c.worstParents);
    return Success(best + worst);
  }

  method BreedChild(random: RandomSource, c: Configuration, parents: seq<ThrottleList>, ghost pool: seq<seq<int>>)
    returns (r: Result<ThrottleList, SearchError>)
    requires Holds(parents, pool) && AllLegal(c, pool)
    modifies random
    ensures r.Success? <==> |parents| >= 2
    ensures r.Success? ==>
      && fresh(r.value) && random.drawn == old(random.drawn) + 4
      && r.value.items == Child(random.draws, old(random.drawn), c, pool)
  {
    var couple :- random.Sample(parents, 2);
    PairIsSample(random.draws, random.drawn - 2, |parents|);
    ghost var pair := PairOf(random.draws, random.drawn - 2, |parents|);
    assert Legal(c, pool[pair.0]) && Legal(c, pool[pair.1]);
    r := Crossover(random, couple[0], couple[1], c.maxLength);
  }

  /** The next of the children that are bred from n draws on. */
  method NextChild(
    random: RandomSource, c: Configuration, parents: seq<ThrottleList>,
    ghost pool: seq<seq<int>>, ghost n: nat, ghost k: nat)
    returns (r: Result<ThrottleList, SearchError>)
    requires Holds(parents, pool) && AllLegal(c, pool) && random.drawn == n + 4 * k
    modifies random
    ensures r.Success? <==> |parents| >= 2
    ensures r.Success? ==> fresh(r.value) && random.drawn == n + 4 * (k + 1)
    ensures r.Success? ==>
      Children(random.draws, n, c, pool, k) + [r.value.items] == Children(random.draws, n, c, pool, k + 1)
  {
    r := BreedChild(random, c, parents, pool);
    if r.Success? {
      ChildrenStep(random.draws, n, c, pool, k);
    }
  }

  /** Step 4: children of parents drawn from a pool. */
  method BreedChildren(random: RandomSource, c: Configuration, parents: seq<ThrottleList>, ghost pool: seq<seq<int>>)
    returns (r: Result<seq<ThrottleList>, SearchError>)
    requires Holds(parents, pool) && AllLegal(c, pool)
    modifies random
    ensures r.Success? <==> (c.populationSize > 0 ==> |parents| >= 2)
    ensures r.Success? ==> |r.value| == AtLeastZero(c.populationSize) && Distinct(r.value)
    ensures r.Success? ==> forall i | 0 <= i < |r.value| :: fresh(r.value[i])
    ensures r.Success? && c.populationSize > 0 ==>
      && Holds(r.value, Children(random.draws, old(random.drawn), c, pool, c.populationSize))
      && random.drawn == old(random.drawn) + 4 * c.populationSize
  {
    ghost var u, n, made: seq<seq<int>> := random.draws, random.drawn, [];
    var next: seq<ThrottleList> := [];
    while |next| < c.populationSize
      invariant |made| <= AtLeastZero(c.populationSize) && (made != [] ==> |pool| >= 2)
      invariant Holds(parents, pool) && Holds(next, made) && random.drawn == n + 4 * |made|
      invariant Distinct(next) && forall i | 0 <= i < |next| :: fresh(next[i])
      invariant |pool| >= 2 ==> made == Children(u, n, c, pool, |made|)
    {
      var child :- NextChild(random, c, parents, pool, n, |made|);
      next, made := next + [child], made + [child.items];
    }
    return Success(next);
  }

  /** Step 5: every child is mutated in place, once. */
  method MutateAll(random: RandomSource, c: Configuration, children: seq<ThrottleList>, ghost before: seq<seq<int>>)
    requires Distinct(children) && c.low <= c.high && Holds(children, before)
    modifies random, children
    ensures
      Yields(children, random.drawn, Mutants(random.draws, old(random.drawn), c, before, |before|))
  {
    ghost var u, n := random.draws, random.drawn;
    ghost var done := Mutants(u, n, c, before, 0);
    for k := 0 to |children|
      invariant done == Mutants(u, n, c, before, k) && random.drawn == done.1
      invariant forall i | 0 <= i < k :: children[i].items == done.0[i]
      invariant forall i | k <= i < |children| :: children[i].items == before[i]
    {
      ghost var next := Mutant(u, random.drawn, c, before[k]);
      var _ := Mutate(random, children[k], c);
      assert (children[k].items, random.drawn) == next;
      done := (done.0 + [next.0], next.1);
    }
  }

  /** Steps 4 and 5 of a generation. Nothing that existed before is changed. */
  method Breed(random: RandomSource, c: Configuration, parents: seq<ThrottleList>, ghost pool: seq<seq<int>>)
    returns (r: Result<seq<ThrottleList>, SearchError>)
    requires Holds(parents, pool) && AllLegal(c, pool) && (c.populationSize > 0 ==> c.low <= c.high)
    modifies random
    ensures r.Success? <==> (c.populationSize > 0 ==> |parents| >= 2)
    ensures r.Success? ==> |r.value| == AtLeastZero(c.populationSize) && Distinct(r.value)
    ensures r.Success? ==> forall i | 0 <= i < |r.value| :: fresh(r.value[i])
    ensures r.Success? && c.populationSize > 0 ==>
      Yields(r.value, random.drawn, Successors(random.draws, old(random.drawn), c, pool))
  {
    ghost var n := random.drawn;
    var next :- BreedChildren(random, c, parents, pool);
    if next != [] {
      MutateAll(random, c, next, Children(random.draws, n, c, pool, c.populationSize));
    }
    return Success(next);
  }

  // ----- the search

  datatype SearchResult = SearchResult(sequence: Option<ThrottleList>, score: Option<Score>)

  lemma ScoresAreOf(p: Problem, c: Configuration, generation: seq<seq<int>>, scores: seq<Score>)
    requires p.mass != 0.0 && |scores| == |generation|
    requires forall i | 0 <= i < |generation| :: scores[i] == Fitness(p, c, generation[i])
    ensures Values(scores, |scores|) == ScoresOf(p, c, generation, |generation|)
  {
    forall i | 0 <= i < |generation|
      ensures Values(scores, |scores|)[i] == ScoresOf(p, c, generation, |generation|)[i]
    {
      ScoreAt(p, c, generation, |generation|, i);
    }
  }

  /** Step 3, given the scores. */
  method ChooseParents(
    random: RandomSource, p: Problem, c: Configuration, population: seq<ThrottleList>, scores: seq<Score>,
    ghost generation: seq<seq<int>>)
    returns (r: Result<seq<ThrottleList>, SearchError>, ghost pool: seq<seq<int>>)
    requires Holds(population, generation) && IsGeneration(c, generation) && |scores| == |generation|
    requires generation != [] ==>
      p.mass != 0.0 && forall i | 0 <= i < |generation| :: scores[i] == Fitness(p, c, generation[i])
    modifies random
    ensures r.Failure? <==> c.worstParents < 0 || c.worstParents > |population|
    ensures r.Success? ==> |r.value| == SliceLength(|population|, c.bestParents) + c.worstParents
    ensures r.Success? ==> Holds(r.value, pool) && AllLegal(c, pool)
    ensures r.Success? && Breedable(p, c) ==>
      pool == PoolOf(random.draws, old(random.drawn), p, c, generation)
      && random.drawn == old(random.drawn) + c.worstParents
  {
    ghost var n := random.drawn;
    pool := [];
    r := SelectParents(random, c, population, scores, generation);
    if r.Success? {
      pool := Pool(random.draws, n, c, generation, Selected(Values(scores, |scores|), c.bestParents));
      if generation != [] {
        ScoresAreOf(p, c, generation, scores);
      }
    }
  }

  /** Steps 4 and 5, given the parents. */
  method BreedNext(
    random: RandomSource, p: Problem, c: Configuration, parents: seq<ThrottleList>,
    ghost pool: seq<seq<int>>, ghost n: nat, ghost generation: seq<seq<int>>)
    returns (r: Result<seq<ThrottleList>, SearchError>)
    requires Holds(parents, pool) && AllLegal(c, pool) && (c.populationSize > 0 ==> c.low <= c.high)
    requires IsGeneration(c, generation)
    requires Breedable(p, c) ==>
      pool == PoolOf(random.draws, n, p, c, generation) && random.drawn == n + c.worstParents
    modifies random
    ensures r.Success? <==> (c.populationSize > 0 ==> |parents| >= 2)
    ensures r.Success? ==> Distinct(r.value) && forall i | 0 <= i < |r.value| :: fresh(r.value[i])
    ensures r.Success? && Breedable(p, c) ==>
      Yields(r.value, random.drawn, NextGeneration(random.draws, n, p, c, generation))
  {
    if Breedable(p, c) {
      NextOf(random.draws, n, p, c, generation, pool);
    }
    r := Breed(random, c, parents, pool);
  }

  /** Steps 3 to 5 of a generation, given the scores. */
  method NextPopulation(
    random: RandomSource, p: Problem, c: Configuration, population: seq<ThrottleList>, scores: seq<Score>,
    ghost generation: seq<seq<int>>)
    returns (r: Result<seq<ThrottleList>, SearchError>)
    requires Holds(population, generation) && IsGeneration(c, generation) && |scores| == |generation|
    requires generation != [] ==>
      p.mass != 0.0 && forall i | 0 <= i < |generation| :: scores[i] == Fitness(p, c, generation[i])
    requires c.populationSize > 0 ==> c.maxLength >= 1 && c.low <= c.high
    modifies random
    ensures c.populationSize > 0 ==> (r.Success? <==> Breedable(p, c))
    ensures r.Success? ==> Distinct(r.value) && forall i | 0 <= i < |r.value| :: fresh(r.value[i])
    ensures r.Success? && c.populationSize > 0 ==>
      Yields(r.value, random.drawn, NextGeneration(random.draws, old(random.drawn), p, c, generation))
  {
    ghost var n := random.drawn;
    var chosen, pool := ChooseParents(random, p, c, population, scores, generation);
    var parents :- chosen;
    r := BreedNext(random, p, c, parents, pool, n, generation);
  }

  /**
   * One generation: the population is scored, the next one bred, and only then the best individual
   * of the old population looked up.
   */
  method RunGeneration(
    random: RandomSource, p: Problem, c: Configuration, population: seq<ThrottleList>, ghost generation: seq<seq<int>>)
    returns (r: Result<(ThrottleList, Score, seq<ThrottleList>), SearchError>)
    requires Holds(population, generation) && IsGeneration(c, generation)
    requires c.populationSize > 0 ==> c.maxLength >= 1 && c.low <= c.high
    modifies random
    ensures r.Success? <==> Breedable(p, c)
    ensures r.Success? ==> r.value.0 in population
    ensures r.Success? ==> r.value.0.items == Best(p, c, generation) && r.value.1 == Fitness(p, c, r.value.0.items)
    ensures r.Success? ==> Distinct(r.value.2) && forall i | 0 <= i < |r.value.2| :: fresh(r.value.2[i])
    ensures r.Success? ==>
      Yields(r.value.2, random.drawn, NextGeneration(random.draws, old(random.drawn), p, c, generation))
  {
    var scores :- EvaluateAll(p, c, population, generation);
    var next :- NextPopulation(random, p, c, population, scores, generation);
    var k :- BestPosition(scores);
    ScoresAreOf(p, c, generation, scores);
    return Success((population[k], scores[k], next));
  }

  /** The population before the g-th generation is evaluated, and the draws used for it. */
  ghost predicate Underway(
    u: Draws, drawn: nat, n: nat, p: Problem, c: Configuration, g: nat,
    population: seq<ThrottleList>, current: seq<seq<int>>)
    reads population
  {
    && Holds(population, current) && IsGeneration(c, current)
    && (c.populationSize > 0 ==> c.maxLength >= 1 && c.low <= c.high)
    && (Breedable(p, c) ==> (current, drawn) == Generation(u, n, p, c, g))
  }

  /** The initial population, as the search uses it. */
  method Start(random: RandomSource, p: Problem, c: Configuration)
    returns (r: Result<seq<ThrottleList>, SearchError>, ghost current: seq<seq<int>>)
    modifies random
    ensures r.Success? <==> (c.populationSize > 0 ==> c.maxLength >= 1 && c.low <= c.high)
    ensures r.Success? ==> Underway(random.draws, random.drawn, old(random.drawn), p, c, 0, r.value, current)
  {
    ghost var n := random.drawn;
    r := GenerateInitialPopulation(random, c);
    current := if r.Success? && c.populationSize > 0 then Individuals(random.draws, n, c, c.populationSize).0 else [];
  }

  /** What the search has found after the g-th generation. */
  ghost predicate Found(u: Draws, n: nat, p: Problem, c: Configuration, g: nat, result: SearchResult)
    requires Breedable(p, c)
    reads if result.sequence.Some? then {result.sequence.value} else {}
  {
    && result.sequence.Some?
    && result.sequence.value.items == Best(p, c, Generation(u, n, p, c, g).0)
    && result.score == Some(Fitness(p, c, result.sequence.value.items))
    && Legal(c, result.sequence.value.items)
  }

  /** The turn of the search that evaluates the g-th generation and breeds the next. */
  method Advance(
    random: RandomSource, p: Problem, c: Configuration, population: seq<ThrottleList>,
    ghost current: seq<seq<int>>, ghost n: nat, ghost g: nat)
    returns (r: Result<(SearchResult, seq<ThrottleList>), SearchError>, ghost next: seq<seq<int>>)
    requires Underway(random.draws, random.drawn, n, p, c, g, population, current)
    modifies random
    ensures r.Success? <==> Breedable(p, c)
    ensures r.Success? ==> Found(random.draws, n, p, c, g, r.value.0)
    ensures r.Success? ==> Underway(random.draws, random.drawn, n, p, c, g + 1, r.value.1, next)
  {
    if Breedable(p, c) {
      GenerationStep(random.draws, n, p, c, g);
      BestIsLegal(random.draws, n, p, c, g);
    }
    next := [];
    var ran :- RunGeneration(random, p, c, population, current);
    next := Generation(random.draws, n, p, c, g + 1).0;
    return Success((SearchResult(Some(ran.0), Some(ran.1)), ran.2)), next;
  }

  /** The same, and the look at the clock after it. */
  method Turn(
    random: RandomSource, clock: Clock, p: Problem, c: Configuration, population: seq<ThrottleList>, start: real,
    ghost current: seq<seq<int>>, ghost n: nat, ghost k: nat, ghost g: nat)
    returns (r: Result<(SearchResult, seq<ThrottleList>, bool), SearchError>, ghost next: seq<seq<int>>)
    requires Underway(random.draws, random.drawn, n, p, c, g, population, current)
    requires Ticking(c, clock.readings, k, g, start, clock.read) && g < c.generations
    modifies random, clock
    ensures r.Success? <==> Breedable(p, c)
    ensures r.Success? ==> Found(random.draws, n, p, c, g, r.value.0)
    ensures r.Success? ==> Underway(random.draws, random.drawn, n, p, c, g + 1, r.value.1, next)
    ensures r.Success? && (r.value.2 || g + 1 == c.generations) ==> StopsAfter(c, clock.readings, k, g)
    ensures r.Success? && !r.value.2 ==> Ticking(c, clock.readings, k, g + 1, start, clock.read)
  {
    var ran;
    ran, next := Advance(random, p, c, population, current, n, g);
    var turn :- ran;
    var now := clock.Now();
    OneMoreReading(c, clock.readings, k, g, start, now);
    return Success((turn.0, turn.1, now - start >= c.timeoutMs)), next;
  }

  /** The loop over the generations; `last` is the last one that was evaluated. */
  method Search(
    random: RandomSource, clock: Clock, p: Problem, c: Configuration, initial: seq<ThrottleList>,
    ghost generation: seq<seq<int>>, ghost n: nat)
    returns (r: Result<SearchResult, SearchError>, ghost last: nat)
    requires Underway(random.draws, random.drawn, n, p, c, 0, initial, generation)
    modifies random, clock
    ensures r.Success? <==> (c.generations > 0 ==> Breedable(p, c))
    ensures r.Success? && c.generations <= 0 ==> r.value == SearchResult(None, None)
    ensures r.Success? && c.generations > 0 ==>
      Found(random.draws, n, p, c, last, r.value) && StopsAfter(c, clock.readings, old(clock.read), last)
  {
    ghost var k := clock.read;
    last := 0;
    var population, best := initial, SearchResult(None, None);
    ghost var current := generation;
    var start := clock.Now();
    for g := 0 to AtLeastZero(c.generations)
      invariant Ticking(c, clock.readings, k, g, start, clock.read)
      invariant Underway(random.draws, random.drawn, n, p, c, g, population, current)
      invariant g == 0 ==> best == SearchResult(None, None)
      invariant g > 0 ==> Breedable(p, c) && last == g - 1 && Found(random.draws, n, p, c, last, best)
      invariant g > 0 && g == c.generations ==> StopsAfter(c, clock.readings, k, last)
    {
      var ran, next := Turn(random, clock, p, c, population, start, current, n, k, g);
      var turn :- ran;
      last, best, population, current := g, turn.0, turn.1, next;
      if turn.2 {
        return Success(best), last;
      }
    }
    return Success(best), last;
  }

  /** The same, with the number of evaluated generations that the clock allows. */
  method SearchRounds(
    random: RandomSource, clock: Clock, p: Problem, c: Configuration, initial: seq<ThrottleList>,
    ghost generation: seq<seq<int>>, ghost n: nat)
    returns (r: Result<SearchResult, SearchError>)
    requires Underway(random.draws, random.drawn, n, p, c, 0, initial, generation)
    modifies random, clock
    ensures r.Success? <==> (c.generations > 0 ==> Breedable(p, c))
    ensures r.Success? && c.generations <= 0 ==> r.value == SearchResult(None, None)
    ensures r.Success? && c.generations > 0 ==>
      var rounds := Rounds(c, clock.readings, old(clock.read), 0);
      rounds > 0 && Found(random.draws, n, p, c, rounds - 1, r.value)
  {
    ghost var k, last := clock.read, 0;
    r, last := Search(random, clock, p, c, initial, generation, n);
    if c.generations > 0 && r.Success? {
      RoundsAre(c, clock.readings, k, last);
    }
  }

  /**
   * `find_optimal_throttle_sequence`, for all random draws and all clock readings: the list returned
   * is, as it stands on return, the first of minimal fitness in the last evaluated generation, which
   * the draws and the readings determine, and the score is its fitness.
   */
  method FindOptimal(random: RandomSource, clock: Clock, p: Problem, c: Configuration)
    returns (r: Result<SearchResult, SearchError>)
    modifies random, clock
    ensures r.Success? <==> Runnable(p, c)
    ensures r.Success? && c.generations <= 0 ==> r.value == SearchResult(None, None)
    ensures r.Success? && c.generations > 0 ==>
      var rounds := Rounds(c, clock.readings, old(clock.read), 0);
      rounds > 0 && Found(random.draws, old(random.drawn), p, c, rounds - 1, r.value)
  {
    ghost var n := random.drawn;
    var started, generation := Start(random, p, c);
    var population :- started;
    r := SearchRounds(random, clock, p, c, population, generation, n);
  }
}
