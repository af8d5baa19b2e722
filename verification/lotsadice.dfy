/**
 * `rollDice`: roll `numRolls` dice of `dieSize` sides, spreading the rolls
 * over `numCPUs` workers and adding up their subtotals.
 *
 * The random source is a sequence of non-negative draws (`rand.Int` never
 * returns a negative value); worker `i` consumes its own contiguous slice of
 * it, `[RollsBefore(i), RollsBefore(i + 1))`. The goroutines become a
 * sequential loop over the workers, and the channel becomes a buffer of
 * subtotals from which the receiving loop takes whichever one arrives next.
 */
module LotsaDice {
  import opened GoArith

  // ---------------------------------------------------------------------
  // Rolls and their sums

  /** One roll, `rand.Int()%dieSize + 1`, for the draw `r`. */
  function RollValue(r: nat, dieSize: int): (v: int)
    requires dieSize != 0
    ensures 1 <= v <= Abs(dieSize)
  {
    Rem(r, dieSize) + 1
  }

  /** The sum of the rolls made from `draws`, added up from left to right: at least one per roll. */
  function SumRolls(draws: seq<nat>, dieSize: int): (s: int)
    requires dieSize != 0 || draws == []
    ensures |draws| <= s
    decreases |draws|
  {
    if draws == [] then 0
    else SumRolls(draws[..|draws| - 1], dieSize) + RollValue(draws[|draws| - 1], dieSize)
  }

  /** `k` rolls add up to at least `k` and at most `k * |dieSize|`; with a one-sided die, to exactly `k`. */
  lemma {:induction false} SumRollsBounds(draws: seq<nat>, dieSize: int)
    requires dieSize != 0 || draws == []
    ensures |draws| <= SumRolls(draws, dieSize) <= |draws| * Abs(dieSize)
    ensures dieSize == 1 ==> SumRolls(draws, dieSize) == |draws|
    decreases |draws|
  {
    if draws != [] {
      var n := |draws| - 1;
      SumRollsBounds(draws[..n], dieSize);
      MulSucc(n, Abs(dieSize));
    }
  }

  /** Rolling two stretches of draws one after the other adds their sums. */
  lemma {:induction false} SumRollsAppend(a: seq<nat>, b: seq<nat>, dieSize: int)
    requires dieSize != 0 || (a == [] && b == [])
    ensures SumRolls(a + b, dieSize) == SumRolls(a, dieSize) + SumRolls(b, dieSize)
    decreases |b|
  {
    if b == [] {
      assert a + b == a;
    } else {
      var n := |b| - 1;
      assert (a + b)[..|a + b| - 1] == a + b[..n];
      SumRollsAppend(a, b[..n], dieSize);
    }
  }

  /** The rolls of the draws before `hi` are those before `lo` and those of the slice `[lo, hi)`. */
  lemma SumRollsSplit(rs: seq<nat>, lo: nat, hi: nat, dieSize: int)
    requires lo <= hi <= |rs|
    requires dieSize != 0 || hi == 0
    ensures SumRolls(rs[..hi], dieSize) == SumRolls(rs[..lo], dieSize) + SumRolls(rs[lo..hi], dieSize)
  {
    assert rs[..hi] == rs[..lo] + rs[lo..hi];
    SumRollsAppend(rs[..lo], rs[lo..hi], dieSize);
  }

  // ---------------------------------------------------------------------
  // Sums of subtotals, whatever order they arrive in

  function Sum(s: seq<int>): int
    decreases |s|
  {
    if s == [] then 0 else Sum(s[..|s| - 1]) + s[|s| - 1]
  }

  lemma {:induction false} SumAppend(a: seq<int>, b: seq<int>)
    ensures Sum(a + b) == Sum(a) + Sum(b)
    decreases |b|
  {
    if b == [] {
      assert a + b == a;
    } else {
      var n := |b| - 1;
      assert (a + b)[..|a + b| - 1] == a + b[..n];
      SumAppend(a, b[..n]);
    }
  }

  lemma SumSnoc(s: seq<int>, x: int)
    ensures Sum(s + [x]) == Sum(s) + x
  {
    assert (s + [x])[..|s|] == s;
  }

  /** Taking the element at `k` out of `s` takes exactly `s[k]` off its sum. */
  lemma {:induction false} SumRemove(s: seq<int>, k: nat)
    requires k < |s|
    ensures Sum(s) == Sum(s[..k] + s[k + 1..]) + s[k]
    decreases |s|
  {
    var n := |s| - 1;
    if k == n {
      assert s[..k] + s[k + 1..] == s[..n];
    } else {
      var init := s[..n];
      SumRemove(init, k);
      var rest := init[..k] + init[k + 1..];
      assert s[..k] + s[k + 1..] == rest + [s[n]];
      SumSnoc(rest, s[n]);
    }
  }

  /**
   * The total of the subtotals does not depend on the order the channel
   * delivers them in: any rearrangement has the same sum.
   */
  lemma {:induction false} SumPermutation(s: seq<int>, t: seq<int>)
    requires multiset(s) == multiset(t)
    ensures Sum(s) == Sum(t)
    decreases |s|
  {
    if s == [] {
      assert |t| == |multiset(t)| == 0;
    } else {
      var n := |s| - 1;
      var x := s[n];
      assert s == s[..n] + [x];
      assert x in multiset(t);
      var k :| 0 <= k < |t| && t[k] == x;
      assert t == t[..k] + [x] + t[k + 1..];
      assert multiset(t[..k] + t[k + 1..]) == multiset(t) - multiset{x};
      assert multiset(s[..n]) == multiset(s) - multiset{x};
      SumPermutation(s[..n], t[..k] + t[k + 1..]);
      SumRemove(t, k);
    }
  }

  // ---------------------------------------------------------------------
  // The partition of the rolls over the workers

  /**
   * `rollsForThisCPU` of worker `index`: the share `numRolls / numCPUs`,
   * plus one for the first `numRolls % numCPUs` workers (Go's truncating
   * operators, so a negative `numRolls` gives every worker a share <= 0).
   */
  function Share(numRolls: int, numCPUs: int, index: int): (s: int)
    requires numCPUs >= 1
    ensures Quot(numRolls, numCPUs) <= s <= Quot(numRolls, numCPUs) + 1
    ensures numRolls >= 0 ==> s >= 0
  {
    Quot(numRolls, numCPUs) + (if index < Rem(numRolls, numCPUs) then 1 else 0)
  }

  /** How many rolls worker `index` actually makes: its `for j` loop runs `Share` times, or not at all. */
  function Performed(numRolls: int, numCPUs: int, index: int): (p: nat)
    requires numCPUs >= 1
    ensures numRolls >= 0 ==> p == Share(numRolls, numCPUs, index)
    ensures numRolls <= 0 && index >= 0 ==> p == 0
  {
    Max(Share(numRolls, numCPUs, index), 0)
  }

  /** How many rolls the workers before `index` make together: where worker `index` starts in the stream. */
  function RollsBefore(numRolls: int, numCPUs: int, index: nat): (n: nat)
    requires numCPUs >= 1
    ensures numRolls <= 0 ==> n == 0
  {
    if index == 0 then 0
    else RollsBefore(numRolls, numCPUs, index - 1) + Performed(numRolls, numCPUs, index - 1)
  }

  /**
   * With `numRolls == numCPUs * q + r` and `0 <= r < numCPUs` (the quotient
   * and remainder), worker `index` makes `q + 1` rolls when `index < r`, and
   * `q` rolls otherwise.
   */
  lemma ShareOfWorker(numRolls: int, numCPUs: int, index: nat, q: int, r: int)
    requires numCPUs >= 1 && numRolls >= 0
    requires numRolls == numCPUs * q + r && 0 <= r < numCPUs
    ensures Performed(numRolls, numCPUs, index) == if index < r then q + 1 else q
  {
    QuotRemUnique(numRolls, numCPUs, q, r);
  }

  /** A negative roll count gives no worker any roll. */
  lemma NegativeShares(numRolls: int, numCPUs: int, index: nat)
    requires numCPUs >= 1 && numRolls <= 0
    ensures Share(numRolls, numCPUs, index) <= 0
    ensures Performed(numRolls, numCPUs, index) == 0
  {
  }

  /** Any two workers' shares differ by at most one roll. */
  lemma SharesFair(numRolls: int, numCPUs: int, i: nat, j: nat)
    requires numCPUs >= 1 && i < numCPUs && j < numCPUs
    ensures -1 <= Share(numRolls, numCPUs, i) - Share(numRolls, numCPUs, j) <= 1
    ensures -1 <= Performed(numRolls, numCPUs, i) - Performed(numRolls, numCPUs, j) <= 1
  {
  }

  /** The workers before `index` make `index * (numRolls / numCPUs) + min(index, numRolls % numCPUs)` rolls. */
  lemma {:induction false} RollsBeforeClosedForm(numRolls: int, numCPUs: int, index: nat)
    requires numCPUs >= 1
    ensures numRolls >= 0 ==>
      RollsBefore(numRolls, numCPUs, index) == index * Quot(numRolls, numCPUs) + Min(index, Rem(numRolls, numCPUs))
    ensures numRolls <= 0 ==> RollsBefore(numRolls, numCPUs, index) == 0
  {
    if index > 0 {
      RollsBeforeClosedForm(numRolls, numCPUs, index - 1);
      MulSucc(index - 1, Quot(numRolls, numCPUs));
    }
  }

  /**
   * The partition neither loses nor duplicates a roll: over all `numCPUs`
   * workers exactly `numRolls` rolls are made (none for a negative count).
   */
  lemma PartitionExact(numRolls: int, numCPUs: int)
    requires numCPUs >= 1
    ensures RollsBefore(numRolls, numCPUs, numCPUs) == Max(numRolls, 0)
  {
    RollsBeforeClosedForm(numRolls, numCPUs, numCPUs);
    QuotRemIdentity(numRolls, numCPUs);
  }

  /** The workers' slices of the stream stay inside the first `numRolls` draws. */
  lemma RollsBeforeBounded(numRolls: int, numCPUs: int, index: nat)
    requires numCPUs >= 1 && index <= numCPUs
    ensures RollsBefore(numRolls, numCPUs, index) <= Max(numRolls, 0)
  {
    RollsBeforeClosedForm(numRolls, numCPUs, index);
    if numRolls >= 0 {
      PrefixAtMost(index, numCPUs, Quot(numRolls, numCPUs), Rem(numRolls, numCPUs));
      QuotRemIdentity(numRolls, numCPUs);
    }
  }

  lemma MulSucc(n: int, a: int)
    ensures n * a + a == (n + 1) * a
  {
  }

  lemma PrefixAtMost(i: nat, w: nat, q: nat, r: nat)
    requires i <= w
    ensures i * q + Min(i, r) <= w * q + r
  {
    assert i * q <= w * q;
  }

  // ---------------------------------------------------------------------
  // The workers and the aggregation

  /**
   * The body of one goroutine: it works out `rollsForThisCPU` from the
   * captured `rollsPerCPU` and `extraRolls` and adds up that many rolls.
   */
  method RollWorker(ghost numRolls: int, ghost numCPUs: int, rollsPerCPU: int, extraRolls: int,
                    index: nat, dieSize: int, draws: seq<nat>)
    returns (subtotal: int)
    requires numCPUs >= 1
    requires rollsPerCPU == Quot(numRolls, numCPUs) && extraRolls == Rem(numRolls, numCPUs)
    requires |draws| >= Performed(numRolls, numCPUs, index)
    requires dieSize != 0 || Performed(numRolls, numCPUs, index) == 0
    ensures subtotal == SumRolls(draws[..Performed(numRolls, numCPUs, index)], dieSize)
    ensures Performed(numRolls, numCPUs, index) <= subtotal
    ensures subtotal <= Performed(numRolls, numCPUs, index) * Abs(dieSize)
  {
    var rollsForThisCPU := rollsPerCPU;
    if index < extraRolls {
      rollsForThisCPU := rollsForThisCPU + 1;
    }
    ghost var k := Performed(numRolls, numCPUs, index);
    subtotal := 0;
    var j := 0;
    while j < rollsForThisCPU
      invariant 0 <= j <= k
      invariant k == Max(rollsForThisCPU, 0)
      invariant subtotal == SumRolls(draws[..j], dieSize)
    {
      assert draws[..j + 1][..j] == draws[..j];
      subtotal := subtotal + RollValue(draws[j], dieSize);
      j := j + 1;
    }
    SumRollsBounds(draws[..k], dieSize);
  }

  /**
   * `sub` is what goroutine `i` sends: the sum of the rolls of its own slice
   * of the draws, which holds `Performed(i)` draws.
   */
  ghost predicate WorkerSubtotal(numRolls: int, dieSize: int, numCPUs: int, rs: seq<nat>, i: nat, sub: int)
    requires numCPUs >= 1 && i < numCPUs
    requires dieSize != 0 || numRolls <= 0
    requires |rs| >= numRolls
  {
    && RollsBefore(numRolls, numCPUs, i + 1) <= Max(numRolls, 0)
    && sub == SumRolls(rs[RollsBefore(numRolls, numCPUs, i)..RollsBefore(numRolls, numCPUs, i + 1)], dieSize)
  }

  /** A worker's subtotal lies between its number of rolls and that number times `|dieSize|`. */
  lemma SubtotalBounds(numRolls: int, dieSize: int, numCPUs: int, rs: seq<nat>, i: nat, sub: int)
    requires numCPUs >= 1 && i < numCPUs
    requires dieSize != 0 || numRolls <= 0
    requires |rs| >= numRolls
    requires WorkerSubtotal(numRolls, dieSize, numCPUs, rs, i, sub)
    ensures Performed(numRolls, numCPUs, i) <= sub <= Performed(numRolls, numCPUs, i) * Abs(dieSize)
  {
    SumRollsBounds(rs[RollsBefore(numRolls, numCPUs, i)..RollsBefore(numRolls, numCPUs, i + 1)], dieSize);
  }

  /** Appending the next worker's subtotal keeps every subtotal that worker's own. */
  lemma WorkersExtend(numRolls: int, dieSize: int, numCPUs: int, rs: seq<nat>, subtotals: seq<int>, sub: int)
    requires |subtotals| < numCPUs
    requires dieSize != 0 || numRolls <= 0
    requires |rs| >= numRolls
    requires forall j :: 0 <= j < |subtotals| ==> WorkerSubtotal(numRolls, dieSize, numCPUs, rs, j, subtotals[j])
    requires WorkerSubtotal(numRolls, dieSize, numCPUs, rs, |subtotals|, sub)
    ensures forall j :: 0 <= j < |subtotals| + 1 ==>
      WorkerSubtotal(numRolls, dieSize, numCPUs, rs, j, (subtotals + [sub])[j])
  {
    forall j | 0 <= j < |subtotals| + 1
      ensures WorkerSubtotal(numRolls, dieSize, numCPUs, rs, j, (subtotals + [sub])[j])
    {
      if j < |subtotals| {
        assert (subtotals + [sub])[j] == subtotals[j];
      }
    }
  }

  /** `v` is a possible sum of `k` rolls of a `dieSize`-sided die: between `k` and `k * |dieSize|`. */
  predicate RollRange(k: int, dieSize: int, v: int) {
    k <= v <= k * Abs(dieSize)
  }

  /** Every worker's subtotal lies between its number of rolls and that number times `|dieSize|`. */
  lemma SubtotalsBounds(numRolls: int, dieSize: int, numCPUs: int, rs: seq<nat>, subtotals: seq<int>)
    requires numCPUs >= 1 && |subtotals| == numCPUs
    requires dieSize != 0 || numRolls <= 0
    requires |rs| >= numRolls
    requires forall i :: 0 <= i < numCPUs ==> WorkerSubtotal(numRolls, dieSize, numCPUs, rs, i, subtotals[i])
    ensures forall i :: 0 <= i < numCPUs ==> RollRange(Performed(numRolls, numCPUs, i), dieSize, subtotals[i])
  {
    forall i | 0 <= i < numCPUs
      ensures Performed(numRolls, numCPUs, i) <= subtotals[i] <= Performed(numRolls, numCPUs, i) * Abs(dieSize)
    {
      SubtotalBounds(numRolls, dieSize, numCPUs, rs, i, subtotals[i]);
    }
  }

  /**
   * Starting goroutine `i` on its own slice of the draws: it sends
   * `WorkerSubtotal`, and the draws before the next worker's slice roll to
   * those before its own slice plus its subtotal.
   */
  method LaunchWorker(numRolls: int, dieSize: int, numCPUs: int, rs: seq<nat>,
                      rollsPerCPU: int, extraRolls: int, i: nat)
    returns (sub: int)
    requires numCPUs >= 1 && i < numCPUs
    requires dieSize != 0 || numRolls <= 0
    requires |rs| >= numRolls
    requires rollsPerCPU == Quot(numRolls, numCPUs) && extraRolls == Rem(numRolls, numCPUs)
    ensures WorkerSubtotal(numRolls, dieSize, numCPUs, rs, i, sub)
    ensures SumRolls(rs[..RollsBefore(numRolls, numCPUs, i + 1)], dieSize)
      == SumRolls(rs[..RollsBefore(numRolls, numCPUs, i)], dieSize) + sub
  {
    var lo, hi := RollsBefore(numRolls, numCPUs, i), RollsBefore(numRolls, numCPUs, i + 1);
    RollsBeforeBounded(numRolls, numCPUs, i + 1);
    sub := RollWorker(numRolls, numCPUs, rollsPerCPU, extraRolls, i, dieSize, rs[lo..hi]);
    assert rs[lo..hi][..hi - lo] == rs[lo..hi];
    SumRollsSplit(rs, lo, hi, dieSize);
  }

  /**
   * The goroutine launch loop of `rollDice`: worker `i` rolls its share on
   * its own slice of the draws, and together the subtotals cover the first
   * `numRolls` draws exactly once.
   */
  method FanOut(numRolls: int, dieSize: int, numCPUs: int, rs: seq<nat>) returns (subtotals: seq<int>)
    requires numCPUs >= 1
    requires dieSize != 0 || numRolls <= 0
    requires |rs| >= numRolls
    ensures |subtotals| == numCPUs
    ensures forall i :: 0 <= i < numCPUs ==> WorkerSubtotal(numRolls, dieSize, numCPUs, rs, i, subtotals[i])
    ensures forall i :: 0 <= i < numCPUs ==> RollRange(Performed(numRolls, numCPUs, i), dieSize, subtotals[i])
    ensures Sum(subtotals) == SumRolls(rs[..Max(numRolls, 0)], dieSize)
  {
    var rollsPerCPU := Quot(numRolls, numCPUs);
    var extraRolls := Rem(numRolls, numCPUs);
    subtotals := [];
    for i := 0 to numCPUs
      invariant |subtotals| == i
      invariant RollsBefore(numRolls, numCPUs, i) <= Max(numRolls, 0)
      invariant Sum(subtotals) == SumRolls(rs[..RollsBefore(numRolls, numCPUs, i)], dieSize)
      invariant forall j :: 0 <= j < i ==> WorkerSubtotal(numRolls, dieSize, numCPUs, rs, j, subtotals[j])
    {
      var sub := LaunchWorker(numRolls, dieSize, numCPUs, rs, rollsPerCPU, extraRolls, i);
      SumSnoc(subtotals, sub);
      WorkersExtend(numRolls, dieSize, numCPUs, rs, subtotals, sub);
      subtotals := subtotals + [sub];
    }
    PartitionExact(numRolls, numCPUs);
    SubtotalsBounds(numRolls, dieSize, numCPUs, rs, subtotals);
  }

  /**
   * The receiving loop of `rollDice`: `numCPUs` receives from the channel,
   * each taking whichever buffered subtotal is delivered next. Whatever the
   * order, the result is the sum of all subtotals.
   */
  method FanIn(subtotals: seq<int>) returns (total: int)
    ensures total == Sum(subtotals)
  {
    var pending := subtotals;
    total := 0;
    for i := 0 to |subtotals|
      invariant |pending| == |subtotals| - i
      invariant total + Sum(pending) == Sum(subtotals)
    {
      var k :| 0 <= k < |pending|;
      SumRemove(pending, k);
      total := total + pending[k];
      pending := pending[..k] + pending[k + 1..];
    }
  }

  /**
   * `rollDice`: the total of `numRolls` rolls of a `dieSize`-sided die over
   * `numCPUs` workers. It is the sum of the rolls of the first `numRolls`
   * draws, so it depends neither on the number of workers nor on the order
   * the subtotals are received in, and it lies in `[numRolls, numRolls * |dieSize|]`.
   */
  method RollDice(numRolls: int, dieSize: int, numCPUs: int, rs: seq<nat>) returns (total: int)
    requires numCPUs >= 1
    requires dieSize != 0 || numRolls <= 0
    requires |rs| >= numRolls
    ensures total == SumRolls(rs[..Max(numRolls, 0)], dieSize)
    ensures numRolls >= 0 ==> numRolls <= total <= numRolls * Abs(dieSize)
    ensures numRolls <= 0 ==> total == 0
    ensures dieSize == 1 && numRolls >= 0 ==> total == numRolls
  {
    var subtotals := FanOut(numRolls, dieSize, numCPUs, rs);
    total := FanIn(subtotals);
    SumRollsBounds(rs[..Max(numRolls, 0)], dieSize);
  }
}
