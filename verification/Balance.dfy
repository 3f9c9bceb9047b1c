/**
 The balance monitor: each successful poll stores the balance in atomic units and an alarm fires when the balance goes
 from not low to low. Balances are real numbers here, floating-point in the source.
 */
module Balance {
  import opened Prelude
  import opened Client

  datatype Poll = Success(uiAmount: real) | Failure

  const ATOMIC_PER_USDC: real := 1000000.0

  /** The source's `as u64` cast: truncation, negative values to zero, large ones to the largest integer. */
  function ToAtomic(uiAmount: real): u64 {
    var scaled := uiAmount * ATOMIC_PER_USDC;
    if scaled <= 0.0 then 0
    else if scaled.Floor > U64_MAX then U64_MAX
    else scaled.Floor
  }

  function Successes(polls: seq<Poll>): seq<real> {
    if polls == [] then []
    else
      var n := |polls| - 1;
      Successes(polls[..n]) + (if polls[n].Success? then [polls[n].uiAmount] else [])
  }

  /** The shared balance after some polls: that of the last success, or what it was. */
  function BalanceAfter(before: u64, successes: seq<real>): u64 {
    if successes == [] then before else ToAtomic(successes[|successes| - 1])
  }

  predicate StartsLow(threshold: real, xs: seq<real>, i: nat)
    requires i < |xs|
  {
    xs[i] < threshold && (i == 0 || xs[i - 1] >= threshold)
  }

  /** The amounts at which a low stretch of successful polls begins. */
  function Alarms(threshold: real, xs: seq<real>): seq<real> {
    if xs == [] then []
    else
      var n := |xs| - 1;
      Alarms(threshold, xs[..n]) + (if StartsLow(threshold, xs, n) then [xs[n]] else [])
  }

  class BalanceMonitor {
    const validAddress: bool
    const threshold: real
    const hasCallback: bool
    var balance: u64
    var fired: seq<real>

    /** `validAddress` says whether the wallet address parses. */
    constructor (validAddress: bool, threshold: real, hasCallback: bool)
      ensures this.validAddress == validAddress && this.threshold == threshold && this.hasCallback == hasCallback
      ensures balance == NOT_POLLED && fired == []
    {
      this.validAddress := validAddress;
      this.threshold := threshold;
      this.hasCallback := hasCallback;
      balance := NOT_POLLED;
      fired := [];
    }

    /** The poll loop, which in the source never ends, on the polls made so far; it is not entered if the address is invalid. */
    method Run(polls: seq<Poll>)
      modifies this
      ensures balance == if validAddress then BalanceAfter(old(balance), Successes(polls)) else old(balance)
      ensures fired == old(fired) + (if validAddress && hasCallback then Alarms(threshold, Successes(polls)) else [])
    {
      if !validAddress {
        return;
      }
      var wasLow := false;
      ghost var xs: seq<real> := [];
      ghost var alarms: seq<real> := [];
      ghost var before, firedBefore := balance, fired;
      for i := 0 to |polls|
        invariant xs == Successes(polls[..i]) && alarms == Alarms(threshold, xs)
        invariant balance == BalanceAfter(before, xs)
        invariant hasCallback ==> fired == firedBefore + alarms
        invariant !hasCallback ==> fired == firedBefore
        invariant wasLow == EndsLow(threshold, xs)
      {
        if polls[i].Success? {
          var uiAmount := polls[i].uiAmount;
          SuccessStep(threshold, before, polls, i);
          xs := xs + [uiAmount];
          balance := ToAtomic(uiAmount);
          var isLow := uiAmount < threshold;
          if isLow && !wasLow {
            alarms := alarms + [uiAmount];
            if hasCallback {
              fired := fired + [uiAmount];
            }
          }
          wasLow := isLow;
        } else {
          FailureStep(polls, i);
        }
      }
      assert polls[..|polls|] == polls;
    }
  }

  predicate EndsLow(threshold: real, xs: seq<real>) {
    xs != [] && xs[|xs| - 1] < threshold
  }

  lemma FailureStep(polls: seq<Poll>, i: nat)
    requires i < |polls| && polls[i].Failure?
    ensures Successes(polls[..i + 1]) == Successes(polls[..i])
  {
    assert polls[..i + 1][..i] == polls[..i];
  }

  /** A successful poll adds one success, and an alarm if it is low and the success before it was not. */
  lemma SuccessStep(threshold: real, before: u64, polls: seq<Poll>, i: nat)
    requires i < |polls| && polls[i].Success?
    ensures var xs, a := Successes(polls[..i]), polls[i].uiAmount;
            && Successes(polls[..i + 1]) == xs + [a]
            && Alarms(threshold, xs + [a]) == Alarms(threshold, xs) + (if a < threshold && !EndsLow(threshold, xs) then [a] else [])
            && BalanceAfter(before, xs + [a]) == ToAtomic(a)
            && EndsLow(threshold, xs + [a]) == (a < threshold)
  {
    var xs := Successes(polls[..i]);
    assert polls[..i + 1][..i] == polls[..i];
    assert (xs + [polls[i].uiAmount])[..|xs|] == xs;
  }

  /** `last_known_balance`. */
  function LastKnownBalance(balance: u64): Option<real> {
    if balance == NOT_POLLED then None else Some(balance as real / ATOMIC_PER_USDC)
  }

  // ---------------------------------------------------------------- alarms count low stretches

  /** Positions `i` to `j - 1` are low and the stretch cannot be extended to either side. */
  ghost predicate MaximalLowRun(threshold: real, xs: seq<real>, i: nat, j: nat) {
    && i < j <= |xs|
    && (forall k :: i <= k < j ==> xs[k] < threshold)
    && (i > 0 ==> xs[i - 1] >= threshold)
    && (j < |xs| ==> xs[j] >= threshold)
  }

  ghost function RunStarts(threshold: real, xs: seq<real>): set<nat> {
    set i: nat | i < |xs| && StartsLow(threshold, xs, i)
  }

  lemma {:induction false} OneRunPerStart(threshold: real, xs: seq<real>, i: nat, end: nat)
    requires i < end <= |xs| && StartsLow(threshold, xs, i) && forall k :: i <= k < end ==> xs[k] < threshold
    ensures exists j: nat :: MaximalLowRun(threshold, xs, i, j)
    decreases |xs| - end
  {
    if end < |xs| && xs[end] < threshold {
      OneRunPerStart(threshold, xs, i, end + 1);
    } else {
      assert MaximalLowRun(threshold, xs, i, end);
    }
  }

  /** A position starts a low stretch iff exactly one maximal stretch begins there. */
  lemma StartsAreRuns(threshold: real, xs: seq<real>, i: nat)
    ensures i in RunStarts(threshold, xs) <==> exists j: nat :: MaximalLowRun(threshold, xs, i, j)
    ensures forall j: nat, k: nat :: MaximalLowRun(threshold, xs, i, j) && MaximalLowRun(threshold, xs, i, k) ==> j == k
  {
    if i in RunStarts(threshold, xs) {
      OneRunPerStart(threshold, xs, i, i + 1);
    }
  }

  /** The number of alarms is the number of maximal low stretches of the successful polls; failed polls do not count. */
  lemma {:induction false} OneAlarmPerLowRun(threshold: real, xs: seq<real>)
    ensures |Alarms(threshold, xs)| == |RunStarts(threshold, xs)|
  {
    if xs != [] {
      OneAlarmPerLowRun(threshold, xs[..|xs| - 1]);
      StartsStep(threshold, xs);
    } else {
      assert RunStarts(threshold, xs) == {};
    }
  }

  lemma StartsStep(threshold: real, xs: seq<real>)
    requires xs != []
    ensures var n := |xs| - 1;
            |RunStarts(threshold, xs)|
            == |RunStarts(threshold, xs[..n])| + (if StartsLow(threshold, xs, n) then 1 else 0)
  {
    var n := |xs| - 1;
    var before := RunStarts(threshold, xs[..n]);
    assert forall i: nat :: i < n ==> StartsLow(threshold, xs, i) == StartsLow(threshold, xs[..n], i);
    if StartsLow(threshold, xs, n) {
      assert RunStarts(threshold, xs) == before + {n};
    } else {
      assert RunStarts(threshold, xs) == before;
    }
  }

  /** The successful polls that found a low balance. */
  function Lows(threshold: real, xs: seq<real>): seq<real> {
    if xs == [] then []
    else
      var n := |xs| - 1;
      Lows(threshold, xs[..n]) + (if xs[n] < threshold then [xs[n]] else [])
  }

  ghost predicate LowTwice(threshold: real, xs: seq<real>, i: nat) {
    i + 1 < |xs| && xs[i] < threshold && xs[i + 1] < threshold
  }

  lemma {:induction false} AlarmsAmongLows(threshold: real, xs: seq<real>)
    ensures |Alarms(threshold, xs)| <= |Lows(threshold, xs)|
    ensures |Alarms(threshold, xs)| == |Lows(threshold, xs)| <==> forall i: nat :: !LowTwice(threshold, xs, i)
    ensures |Alarms(threshold, xs)| == |Lows(threshold, xs)| ==> Alarms(threshold, xs) == Lows(threshold, xs)
  {
    if xs != [] {
      var n := |xs| - 1;
      AlarmsAmongLows(threshold, xs[..n]);
      assert forall i: nat :: i + 1 != n ==> LowTwice(threshold, xs, i) == LowTwice(threshold, xs[..n], i);
      if n > 0 {
        assert LowTwice(threshold, xs, n - 1) <==> xs[n] < threshold && !StartsLow(threshold, xs, n);
        assert !LowTwice(threshold, xs[..n], n - 1);
      }
    }
  }

  /** The callback is made for every poll that finds a low balance exactly if no two successive successful polls do. */
  lemma EveryLowPollAlarmsIff(threshold: real, xs: seq<real>)
    ensures Alarms(threshold, xs) == Lows(threshold, xs) <==> forall i: nat :: !LowTwice(threshold, xs, i)
  {
    AlarmsAmongLows(threshold, xs);
  }

  /** After a low poll another one makes no callback. */
  lemma LowAgainIsSilent(threshold: real, xs: seq<real>, a: real)
    requires EndsLow(threshold, xs) && a < threshold
    ensures Alarms(threshold, xs + [a]) == Alarms(threshold, xs) && Lows(threshold, xs + [a]) == Lows(threshold, xs) + [a]
  {
    assert (xs + [a])[..|xs|] == xs;
  }

  /** Two low polls, one callback. */
  lemma SecondLowPollIsSilent(threshold: real, a: real, b: real)
    requires a < threshold && b < threshold
    ensures Alarms(threshold, [a] + [b]) == [a] && Lows(threshold, [a] + [b]) == [a, b]
  {
    LowAgainIsSilent(threshold, [a], b);
    assert [a][..0] == [];
  }

  // ---------------------------------------------------------------- the shared balance

  /** The sentinel means that no poll has succeeded, exactly if the last balance is below the sentinel's own value. */
  lemma SentinelIff(polls: seq<Poll>)
    ensures var xs := Successes(polls);
            BalanceAfter(NOT_POLLED, xs) == NOT_POLLED
            <==> xs == [] || xs[|xs| - 1] * 1000000.0 >= 0xFFFF_FFFF_FFFF_FFFF as real
  {
  }

  /** The free model is used exactly if one is set and the last successful poll found less than one atomic unit. */
  lemma FallbackIff(fallback: Option<string>, polls: seq<Poll>)
    ensures var xs := Successes(polls);
            UsesFallback(fallback, BalanceAfter(NOT_POLLED, xs))
            <==> fallback.Some? && xs != [] && xs[|xs| - 1] * 1000000.0 < 1.0
  {
  }

  /** Nothing is reported exactly if no poll has succeeded or the last balance reaches the sentinel's value. */
  lemma NothingKnownIff(polls: seq<Poll>)
    ensures var xs := Successes(polls);
            LastKnownBalance(BalanceAfter(NOT_POLLED, xs)).None?
            <==> xs == [] || xs[|xs| - 1] * 1000000.0 >= 0xFFFF_FFFF_FFFF_FFFF as real
  {
    SentinelIff(polls);
  }

  /** The successful polls, in order: failed ones leave no trace. */
  lemma {:induction false} SuccessesOf(a: seq<Poll>, b: seq<Poll>, x: real)
    ensures Successes(a + b) == Successes(a) + Successes(b)
    ensures Successes([Failure]) == [] && Successes([Success(x)]) == [x]
  {
    assert [Failure][..0] == [] && [Success(x)][..0] == [];
    if b == [] {
      assert a + b == a;
    } else {
      SuccessesOf(a, b[..|b| - 1], x);
      assert (a + b)[..|a + b| - 1] == a + b[..|b| - 1];
    }
  }

  /** What the client reports is the last polled balance to within one atomic unit, for balances from zero up to the sentinel. */
  lemma KnownBalanceIsClose(polls: seq<Poll>)
    requires var xs := Successes(polls); xs != [] && 0.0 <= xs[|xs| - 1] * 1000000.0 < 0xFFFF_FFFF_FFFF_FFFF as real
    ensures var xs := Successes(polls); var last := xs[|xs| - 1];
            var known := LastKnownBalance(BalanceAfter(NOT_POLLED, xs));
            known.Some? && known.value <= last < known.value + 1.0 / 1000000.0
  {
  }
}
