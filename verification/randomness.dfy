/** Random draws and clock readings: whatever they are, in the order in which they are used. */
module Randomness {
  import opened Wrappers
  import opened Kinematics
  import opened Selection

  /**
   * The numbers `random.random` yields one after the other, as many as an execution uses; what
   * would come after them does not matter and is taken to be 0.
   */
  type Draws = u: seq<real> | forall n | 0 <= n < |u| :: 0.0 <= u[n] < 1.0

  function Draw(u: Draws, n: nat): (x: real)
    ensures 0.0 <= x < 1.0
  {
    if n < |u| then u[n] else 0.0
  }

  /** An integer of a range, scaled from a draw. */
  function IntFrom(u: real, low: int, high: int): (x: int)
    requires 0.0 <= u < 1.0 && low <= high
    ensures low <= x <= high
  {
    ScaledBelow(u, (high - low + 1) as real);
    low + (u * ((high - low + 1) as real)).Floor
  }

  lemma ScaledBelow(u: real, width: real)
    requires 0.0 <= u < 1.0 && width >= 1.0
    ensures 0.0 <= u * width < width
  {
  }

  /** Every integer of a range is drawn by some number. */
  lemma EveryIntIsDrawn(x: int, low: int, high: int) returns (u: real)
    requires low <= x <= high
    ensures 0.0 <= u < 1.0 && IntFrom(u, low, high) == x
  {
    var width := (high - low + 1) as real;
    u := (x - low) as real / width;
    assert u * width == (x - low) as real;
  }

  // ----- samples

  predicate Distinct<T(==)>(s: seq<T>) {
    forall i, j | 0 <= i < j < |s| :: s[i] != s[j]
  }

  /** k different positions in a list of n. */
  ghost predicate Drawn(picks: seq<nat>, k: int, n: nat) {
    |picks| == k && Within(picks, n) && Distinct(picks)
  }

  function Without(free: seq<nat>, i: nat): seq<nat>
    requires i < |free|
  {
    free[..i] + free[i + 1..]
  }

  /** k of the free positions, one draw for each. */
  function Picks(u: Draws, n: nat, free: seq<nat>, k: nat): (picks: seq<nat>)
    requires k <= |free|
    ensures |picks| == k
    decreases k
  {
    if k == 0 then []
    else
      var i := IntFrom(Draw(u, n), 0, |free| - 1);
      [free[i]] + Picks(u, n + 1, Without(free, i), k - 1)
  }

  lemma {:induction false} PicksAreFree(u: Draws, n: nat, free: seq<nat>, k: nat)
    requires k <= |free| && Distinct(free)
    ensures Distinct(Picks(u, n, free, k))
    ensures forall j | 0 <= j < k :: Picks(u, n, free, k)[j] in free
    decreases k
  {
    if k > 0 {
      var i := IntFrom(Draw(u, n), 0, |free| - 1);
      var rest := Without(free, i);
      PicksAreFree(u, n + 1, rest, k - 1);
      assert forall x | x in rest :: x in free && x != free[i];
    }
  }

  /** Some positions picked already, and the rest of k still to come. */
  function Completed(u: Draws, n: nat, free: seq<nat>, k: nat, picks: seq<nat>): seq<nat>
    requires |picks| <= k <= |picks| + |free|
  {
    picks + Picks(u, n, free, k - |picks|)
  }

  lemma OneMorePick(u: Draws, n: nat, free: seq<nat>, k: nat, picks: seq<nat>, i: nat)
    requires |picks| < k <= |picks| + |free| && i == IntFrom(Draw(u, n), 0, |free| - 1)
    ensures Completed(u, n, free, k, picks) == Completed(u, n + 1, Without(free, i), k, picks + [free[i]])
  {
  }

  function Positions(n: nat): (all: seq<nat>)
    ensures |all| == n && forall i | 0 <= i < n :: all[i] == i
  {
    if n == 0 then [] else Positions(n - 1) + [n - 1]
  }

  /** A sample of k out of n. */
  function SampleOf(u: Draws, n: nat, size: nat, k: nat): (picks: seq<nat>)
    requires k <= size
    ensures |picks| == k && Within(picks, size)
  {
    PicksAreFree(u, n, Positions(size), k);
    assert forall x | x in Positions(size) :: x < size;
    Picks(u, n, Positions(size), k)
  }

  lemma SampleIsDrawn(u: Draws, n: nat, size: nat, k: nat)
    requires k <= size
    ensures Drawn(SampleOf(u, n, size, k), k, size)
  {
    PicksAreFree(u, n, Positions(size), k);
  }

  /** Only the draws that are used matter. */
  lemma {:induction false} PicksLast(u: Draws, w: Draws, n: nat, free: seq<nat>, k: nat)
    requires k <= |free| && u <= w && n + k <= |u|
    ensures Picks(w, n, free, k) == Picks(u, n, free, k)
    decreases k
  {
    if k > 0 {
      assert Draw(w, n) == Draw(u, n);
      PicksLast(u, w, n + 1, Without(free, IntFrom(Draw(u, n), 0, |free| - 1)), k - 1);
    }
  }

  lemma StillFree(free: seq<nat>, i: nat, picks: seq<nat>)
    requires i < |free| && picks != [] && picks[0] == free[i] && Distinct(picks)
    requires forall j | 0 <= j < |picks| :: picks[j] in free
    ensures Distinct(picks[1..]) && forall j | 0 <= j < |picks[1..]| :: picks[1..][j] in Without(free, i)
  {
    forall j | 0 <= j < |picks[1..]|
      ensures picks[1..][j] in Without(free, i)
    {
      assert picks[1..][j] == picks[j + 1] != free[i];
      var m :| 0 <= m < |free| && free[m] == picks[j + 1];
      assert Without(free, i)[if m < i then m else m - 1] == free[m];
    }
  }

  /** Any different free positions, in any order, are picked by some numbers, whatever was drawn before. */
  lemma {:induction false} EveryPickIsDrawn(u: Draws, free: seq<nat>, picks: seq<nat>) returns (w: Draws)
    requires |picks| <= |free| && Distinct(picks) && forall j | 0 <= j < |picks| :: picks[j] in free
    ensures u <= w && |w| == |u| + |picks| && Picks(w, |u|, free, |picks|) == picks
    decreases |picks|
  {
    w := u;
    if picks != [] {
      assert picks[0] in free;
      var i :| 0 <= i < |free| && free[i] == picks[0];
      StillFree(free, i, picks);
      var x := EveryIntIsDrawn(i, 0, |free| - 1);
      w := EveryPickIsDrawn(u + [x], Without(free, i), picks[1..]);
      assert Draw(w, |u|) == (u + [x])[|u|] == x;
    }
  }

  /** Every sample that `random.sample` can yield is drawn by some numbers, whatever was drawn before. */
  lemma EverySampleIsDrawn(u: Draws, picks: seq<nat>, k: nat, size: nat) returns (w: Draws)
    requires k <= size && Drawn(picks, k, size)
    ensures u <= w && |w| == |u| + k && SampleOf(w, |u|, size, k) == picks
  {
    forall j | 0 <= j < |picks|
      ensures picks[j] in Positions(size)
    {
      assert Positions(size)[picks[j]] == picks[j];
    }
    w := EveryPickIsDrawn(u, Positions(size), picks);
  }

  /** A sample of two: the second counts around the first. */
  function PairOf(u: Draws, n: nat, size: nat): (pair: (nat, nat))
    requires size >= 2
    ensures pair.0 < size && pair.1 < size && pair.0 != pair.1
  {
    var first, second := IntFrom(Draw(u, n), 0, size - 1), IntFrom(Draw(u, n + 1), 0, size - 2);
    (first, if second < first then second else second + 1)
  }

  lemma PairIsSample(u: Draws, n: nat, size: nat)
    requires size >= 2
    ensures SampleOf(u, n, size, 2) == [PairOf(u, n, size).0, PairOf(u, n, size).1]
  {
    var all := Positions(size);
    var first := IntFrom(Draw(u, n), 0, size - 1);
    var rest := Without(all, first);
    var second := IntFrom(Draw(u, n + 1), 0, size - 2);
    assert Picks(u, n + 1, rest, 1) == [rest[second]] + Picks(u, n + 2, Without(rest, second), 0);
    assert Picks(u, n, all, 2) == [all[first]] + Picks(u, n + 1, rest, 1);
  }

  // ----- the module `random`

  class RandomSource {
    const draws: Draws
    var drawn: nat

    constructor (draws: Draws)
      ensures this.draws == draws && drawn == 0
    {
      this.draws, drawn := draws, 0;
    }

    /** `random.random`. */
    method Random() returns (u: real)
      modifies this
      ensures u == Draw(draws, old(drawn)) && drawn == old(drawn) + 1
      ensures old(drawn) < |draws| ==> u == draws[old(drawn)]
    {
      u := Draw(draws, drawn);
      drawn := drawn + 1;
    }

    /** `random.randint`. */
    method RandInt(low: int, high: int) returns (r: Result<int, SearchError>)
      modifies this
      ensures r.Failure? <==> low > high
      ensures r.Failure? ==> drawn == old(drawn)
      ensures r.Success? ==> r.value == IntFrom(Draw(draws, old(drawn)), low, high) && drawn == old(drawn) + 1
    {
      if low > high {
        return Failure(EmptyRange);
      }
      var u := Random();
      return Success(IntFrom(u, low, high));
    }

    /** `random.sample`: the elements at k different positions. */
    method Sample<T>(pool: seq<T>, k: int) returns (r: Result<seq<T>, SearchError>)
      modifies this
      ensures r.Failure? <==> k < 0 || k > |pool|
      ensures r.Failure? ==> drawn == old(drawn)
      ensures r.Success? ==> |r.value| == k && drawn == old(drawn) + k
      ensures r.Success? ==>
        forall i | 0 <= i < k :: r.value[i] == pool[SampleOf(draws, old(drawn), |pool|, k)[i]]
    {
      if k < 0 || k > |pool| {
        return Failure(SampleTooLarge);
      }
      ghost var sample := SampleOf(draws, drawn, |pool|, k);
      var picks: seq<nat>, free := [], Positions(|pool|);
      assert Completed(draws, drawn, free, k, picks) == sample;
      while |picks| < k
        invariant |picks| <= k && drawn == old(drawn) + |picks| && |free| == |pool| - |picks|
        invariant Completed(draws, drawn, free, k, picks) == sample
      {
        var draw := RandInt(0, |free| - 1);
        OneMorePick(draws, drawn - 1, free, k, picks, draw.value);
        picks := picks + [free[draw.value]];
        free := Without(free, draw.value);
      }
      assert picks == sample;
      return Success(seq(k, i requires 0 <= i < k => pool[picks[i]]));
    }
  }

  // ----- the module `time`

  function Reading(readings: seq<real>, k: nat): real {
    if k < |readings| then readings[k] else 0.0
  }

  class Clock {
    const readings: seq<real>
    var read: nat

    constructor (readings: seq<real>)
      ensures this.readings == readings && read == 0
    {
      this.readings, read := readings, 0;
    }

    /** `time.monotonic_ns`, in milliseconds. */
    method Now() returns (t: real)
      modifies this
      ensures t == Reading(readings, old(read)) && read == old(read) + 1
      ensures old(read) < |readings| ==> t == readings[old(read)]
    {
      t := Reading(readings, read);
      read := read + 1;
    }
  }
}
