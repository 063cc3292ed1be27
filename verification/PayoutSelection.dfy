/** Which customers a new payout run takes: a running total and a count, both limited. */
module PayoutSelection {

  import opened Wrappers

  /** A customer who may be paid out. The donation is unknown (null) once everything is donated. */
  datatype Candidate = Candidate(account: nat, balance: real, donation: Option<real>, donateAll: bool)

  function MaxReal(a: real, b: real): real { if a >= b then a else b }

  function MinReal(a: real, b: real): real { if a <= b then a else b }

  /** What is transferred to the bank account; greatest() and least() ignore a null donation. */
  function Amount(c: Candidate): real
  {
    if c.donateAll || c.donation.None? then 0.0 else MaxReal(0.0, c.balance - c.donation.value)
  }

  function Donation(c: Candidate): real
  {
    if c.donateAll || c.donation.None? then c.balance else MinReal(c.balance, c.donation.value)
  }

  /** sum(balance - donation) over the first n candidates: nulls are skipped, and a sum of nulls is null. */
  function Running(cs: seq<Candidate>, n: nat): Option<real>
    requires n <= |cs|
  {
    if n == 0 then None
    else
      match (Running(cs, n - 1), cs[n - 1].donation)
      case (before, None) => before
      case (None, Some(d)) => Some(cs[n - 1].balance - d)
      case (Some(total), Some(d)) => Some(total + cs[n - 1].balance - d)
  }

  function RunningAt(cs: seq<Candidate>, i: nat): Option<real>
    requires i < |cs|
  {
    Running(cs, i + 1)
  }

  /** The i-th candidate passes both limits. */
  predicate Passes(cs: seq<Candidate>, maxSum: real, maxNum: int, i: nat)
    requires i < |cs|
  {
    RunningAt(cs, i).Some? && RunningAt(cs, i).value <= maxSum && i + 1 <= maxNum
  }

  /** The selected ones among the first n candidates, in order. */
  function Selected(cs: seq<Candidate>, maxSum: real, maxNum: int, n: nat): seq<Candidate>
    requires n <= |cs|
  {
    if n == 0 then []
    else Selected(cs, maxSum, maxNum, n - 1) + (if Passes(cs, maxSum, maxNum, n - 1) then [cs[n - 1]] else [])
  }

  function Selection(cs: seq<Candidate>, maxSum: real, maxNum: int): seq<Candidate>
  {
    Selected(cs, maxSum, maxNum, |cs|)
  }

  /** The check before the run is created looks at the sum only. */
  predicate SomeoneFits(cs: seq<Candidate>, maxSum: real)
  {
    exists i :: 0 <= i < |cs| && RunningAt(cs, i).Some? && RunningAt(cs, i).value <= maxSum
  }

  function Paid(cs: seq<Candidate>): real
  {
    if cs == [] then 0.0 else Paid(cs[..|cs| - 1]) + Amount(cs[|cs| - 1])
  }

  // ---- the usual case: every donation known and within the balance -------------------

  predicate Ordinary(c: Candidate) { !c.donateAll && c.donation.Some? && 0.0 <= c.donation.value <= c.balance }

  predicate AllOrdinary(cs: seq<Candidate>) { forall i :: 0 <= i < |cs| ==> Ordinary(cs[i]) }

  lemma {:induction false} RunningIsPaid(cs: seq<Candidate>, n: nat)
    requires AllOrdinary(cs) && 0 < n <= |cs|
    ensures Running(cs, n) == Some(Paid(cs[..n]))
  {
    assert cs[..n][..n - 1] == cs[..n - 1];
    if n > 1 {
      RunningIsPaid(cs, n - 1);
    } else {
      assert cs[..0] == [];
    }
  }

  lemma {:induction false} PaidGrows(cs: seq<Candidate>, m: nat, n: nat)
    requires m <= n <= |cs|
    ensures Paid(cs[..m]) <= Paid(cs[..n])
    decreases n
  {
    if m < n {
      PaidGrows(cs, m, n - 1);
      assert cs[..n][..n - 1] == cs[..n - 1];
    }
  }

  /** Both limits hold for the first k candidates. */
  predicate Within(cs: seq<Candidate>, maxSum: real, maxNum: int, k: nat)
    requires k <= |cs|
  {
    k <= maxNum && Paid(cs[..k]) <= maxSum
  }

  lemma {:induction false} SelectedPrefix(cs: seq<Candidate>, maxSum: real, maxNum: int, n: nat, k: nat)
    requires AllOrdinary(cs) && n <= |cs| && k <= n
    requires forall i :: 0 <= i < n ==> (i < k <==> Passes(cs, maxSum, maxNum, i))
    ensures Selected(cs, maxSum, maxNum, n) == cs[..k]
  {
    if n > 0 {
      if k == n {
        SelectedPrefix(cs, maxSum, maxNum, n - 1, n - 1);
        assert cs[..n] == cs[..n - 1] + [cs[n - 1]];
      } else {
        SelectedPrefix(cs, maxSum, maxNum, n - 1, k);
      }
    }
  }

  /** The longest prefix of candidates within both limits, counted from `k` on. */
  function Longest(cs: seq<Candidate>, maxSum: real, maxNum: int, k: nat): (r: nat)
    requires k <= |cs|
    ensures k <= r <= |cs|
    decreases |cs| - k
  {
    if k < |cs| && Passes(cs, maxSum, maxNum, k) then Longest(cs, maxSum, maxNum, k + 1) else k
  }

  lemma {:induction false} LongestPasses(cs: seq<Candidate>, maxSum: real, maxNum: int, k: nat)
    requires AllOrdinary(cs) && k <= |cs|
    ensures var r := Longest(cs, maxSum, maxNum, k);
            forall i :: k <= i < |cs| ==> (i < r <==> Passes(cs, maxSum, maxNum, i))
    decreases |cs| - k
  {
    if k < |cs| && Passes(cs, maxSum, maxNum, k) {
      LongestPasses(cs, maxSum, maxNum, k + 1);
    } else if k < |cs| {
      forall i | k <= i < |cs| ensures !Passes(cs, maxSum, maxNum, i) {
        RunningIsPaid(cs, k + 1);
        RunningIsPaid(cs, i + 1);
        PaidGrows(cs, k + 1, i + 1);
      }
    }
  }

  /** The run takes the longest prefix, by account number, that stays within both limits, and whenever the
      check lets the run be created it takes someone. */
  lemma LongestPrefixIsTaken(cs: seq<Candidate>, maxSum: real, maxNum: int)
    requires AllOrdinary(cs)
    ensures var k := |Selection(cs, maxSum, maxNum)|;
            && k <= |cs| && Selection(cs, maxSum, maxNum) == cs[..k]
            && (k > 0 ==> Within(cs, maxSum, maxNum, k))
            && (forall m :: k < m <= |cs| ==> !Within(cs, maxSum, maxNum, m))
            && (maxNum > 0 && SomeoneFits(cs, maxSum) ==> k > 0)
  {
    var r := Longest(cs, maxSum, maxNum, 0);
    LongestPasses(cs, maxSum, maxNum, 0);
    SelectedPrefix(cs, maxSum, maxNum, |cs|, r);
    if r > 0 {
      assert Passes(cs, maxSum, maxNum, r - 1);
      RunningIsPaid(cs, r);
    }
    forall m | r < m <= |cs| ensures !Within(cs, maxSum, maxNum, m) {
      RunningIsPaid(cs, m);
      assert !Passes(cs, maxSum, maxNum, m - 1);
    }
    if maxNum > 0 && SomeoneFits(cs, maxSum) {
      var i :| 0 <= i < |cs| && RunningAt(cs, i).Some? && RunningAt(cs, i).value <= maxSum;
      RunningIsPaid(cs, 1);
      RunningIsPaid(cs, i + 1);
      PaidGrows(cs, 1, i + 1);
      assert Passes(cs, maxSum, maxNum, 0);
    }
  }

  /** Every row splits the balance, whatever the donation says. */
  lemma AmountAndDonation(c: Candidate)
    ensures Amount(c) + Donation(c) == c.balance
    ensures Amount(c) >= 0.0
    ensures c.balance >= 0.0 && (c.donation.None? || c.donation.value >= 0.0) ==> Donation(c) >= 0.0 && Amount(c) <= c.balance
  {
  }

  // ---- all cases: what the limit on the sum is worth ---------------------------------

  /** The part of a donation the balance no longer covers. */
  function Excess(c: Candidate): real
  {
    if c.donation.None? then 0.0 else Amount(c) - (c.balance - c.donation.value)
  }

  function TotalExcess(cs: seq<Candidate>): real
  {
    if cs == [] then 0.0 else TotalExcess(cs[..|cs| - 1]) + Excess(cs[|cs| - 1])
  }

  /** A donate-all row never carries a donation of its own. */
  predicate Entered(cs: seq<Candidate>)
  {
    forall i :: 0 <= i < |cs| ==>
      (cs[i].donateAll ==> cs[i].donation.None?) && (cs[i].donation.Some? ==> cs[i].donation.value >= 0.0)
  }

  predicate Overdrawn(c: Candidate) { c.donation.Some? && c.donation.value > c.balance }

  /** The running total is what is paid less the excess, as far as any donation is known. */
  lemma {:induction false} RunningInGeneral(cs: seq<Candidate>, n: nat)
    requires Entered(cs) && n <= |cs|
    ensures Running(cs, n).Some? ==> Running(cs, n).value == Paid(cs[..n]) - TotalExcess(cs[..n])
    ensures Running(cs, n).None? ==> Paid(cs[..n]) == 0.0 && TotalExcess(cs[..n]) == 0.0
    ensures TotalExcess(cs[..n]) >= 0.0
  {
    if n > 0 {
      RunningInGeneral(cs, n - 1);
      assert cs[..n][..n - 1] == cs[..n - 1];
    }
  }

  lemma {:induction false} ExcessGrows(cs: seq<Candidate>, m: nat, n: nat)
    requires Entered(cs) && m <= n <= |cs|
    ensures TotalExcess(cs[..m]) <= TotalExcess(cs[..n])
    decreases n
  {
    if m < n {
      ExcessGrows(cs, m, n - 1);
      assert cs[..n][..n - 1] == cs[..n - 1];
    }
  }

  lemma {:induction false} PaidAppend(cs: seq<Candidate>, c: Candidate)
    ensures Paid(cs + [c]) == Paid(cs) + Amount(c)
  {
    assert (cs + [c])[..|cs|] == cs;
  }

  /** An overdrawn candidate stands before one who is paid something. */
  predicate Masked(cs: seq<Candidate>)
  {
    exists j, l :: 0 <= j < l < |cs| && Overdrawn(cs[j]) && Amount(cs[l]) > 0.0
  }

  /** If nothing is masked the selected ones are never paid more than the limit. */
  lemma {:induction false} UnmaskedStaysWithin(cs: seq<Candidate>, maxSum: real, maxNum: int, n: nat)
    requires Entered(cs) && !Masked(cs) && maxSum >= 0.0 && n <= |cs|
    ensures Paid(Selected(cs, maxSum, maxNum, n)) <= maxSum
    ensures Paid(Selected(cs, maxSum, maxNum, n)) <= Paid(cs[..n])
  {
    if n > 0 {
      UnmaskedStaysWithin(cs, maxSum, maxNum, n - 1);
      assert cs[..n][..n - 1] == cs[..n - 1];
      var before := Selected(cs, maxSum, maxNum, n - 1);
      if Passes(cs, maxSum, maxNum, n - 1) {
        PaidAppend(before, cs[n - 1]);
        if Amount(cs[n - 1]) > 0.0 {
          RunningInGeneral(cs, n);
          NothingOverdrawnBefore(cs, n - 1, n - 1);
          assert TotalExcess(cs[..n]) == 0.0;
        }
      } else {
        assert Selected(cs, maxSum, maxNum, n) == before;
      }
    }
  }

  lemma {:induction false} NothingOverdrawnBefore(cs: seq<Candidate>, n: nat, l: nat)
    requires Entered(cs) && !Masked(cs) && n <= l < |cs| && Amount(cs[l]) > 0.0
    ensures TotalExcess(cs[..n]) == 0.0
  {
    if n > 0 {
      NothingOverdrawnBefore(cs, n - 1, l);
      assert cs[..n][..n - 1] == cs[..n - 1];
      assert !Overdrawn(cs[n - 1]);
    }
  }

  /** The largest running total of the first n candidates, at least zero. */
  function Peak(cs: seq<Candidate>, n: nat): (r: real)
    requires n <= |cs|
    ensures r >= 0.0
    ensures forall i :: 0 <= i < n && RunningAt(cs, i).Some? ==> RunningAt(cs, i).value <= r
  {
    if n == 0 then 0.0
    else
      var before := Peak(cs, n - 1);
      if RunningAt(cs, n - 1).Some? then MaxReal(before, RunningAt(cs, n - 1).value) else before
  }

  lemma {:induction false} PeakIsBelow(cs: seq<Candidate>, n: nat, bound: real)
    requires n <= |cs| && 0.0 < bound
    requires forall i :: 0 <= i < n && RunningAt(cs, i).Some? ==> RunningAt(cs, i).value < bound
    ensures Peak(cs, n) < bound
  {
    if n > 0 {
      assert RunningAt(cs, n - 1).Some? ==> RunningAt(cs, n - 1).value < bound;
      PeakIsBelow(cs, n - 1, bound);
    }
  }

  /** With limits above all running totals, all of the first n that count are taken and paid. */
  lemma {:induction false} AllAreTaken(cs: seq<Candidate>, maxSum: real, maxNum: int, n: nat)
    requires Entered(cs) && n <= |cs| && n <= maxNum
    requires forall i :: 0 <= i < n && RunningAt(cs, i).Some? ==> RunningAt(cs, i).value <= maxSum
    ensures Paid(Selected(cs, maxSum, maxNum, n)) == Paid(cs[..n])
  {
    if n > 0 {
      AllAreTaken(cs, maxSum, maxNum, n - 1);
      assert cs[..n][..n - 1] == cs[..n - 1];
      if RunningAt(cs, n - 1).Some? {
        assert Passes(cs, maxSum, maxNum, n - 1);
        PaidAppend(Selected(cs, maxSum, maxNum, n - 1), cs[n - 1]);
      } else {
        RunningInGeneral(cs, n);
        RunningInGeneral(cs, n - 1);
        assert Selected(cs, maxSum, maxNum, n) == Selected(cs, maxSum, maxNum, n - 1);
      }
    }
  }

  lemma {:induction false} NoOneElse(cs: seq<Candidate>, maxSum: real, maxNum: int, n: nat, m: nat)
    requires n <= m <= |cs| && maxNum == n
    ensures Selected(cs, maxSum, maxNum, m) == Selected(cs, maxSum, maxNum, n)
    decreases m
  {
    if n < m {
      NoOneElse(cs, maxSum, maxNum, n, m - 1);
    }
  }

  /** If something is masked there are limits the payouts exceed. */
  lemma MaskedExceeds(cs: seq<Candidate>) returns (maxSum: real, maxNum: int)
    requires Entered(cs) && Masked(cs)
    ensures maxSum >= 0.0 && maxNum > 0 && Paid(Selection(cs, maxSum, maxNum)) > maxSum
  {
    var j, l :| 0 <= j < l < |cs| && Overdrawn(cs[j]) && Amount(cs[l]) > 0.0;
    var n := l + 1;
    maxSum, maxNum := Peak(cs, n), n;
    AllAreTaken(cs, maxSum, maxNum, n);
    NoOneElse(cs, maxSum, maxNum, n, |cs|);
    forall i | 0 <= i < n && RunningAt(cs, i).Some? ensures RunningAt(cs, i).value < Paid(cs[..n]) {
      BelowPaid(cs, j, l, i);
    }
    PaidGrows(cs, 0, l);
    assert cs[..n][..l] == cs[..l];
    PeakIsBelow(cs, n, Paid(cs[..n]));
  }

  lemma BelowPaid(cs: seq<Candidate>, j: nat, l: nat, i: nat)
    requires Entered(cs) && j < l < |cs| && Overdrawn(cs[j]) && Amount(cs[l]) > 0.0 && i <= l
    ensures RunningAt(cs, i).Some? ==> RunningAt(cs, i).value < Paid(cs[..l + 1])
  {
    assert cs[..l + 1][..l] == cs[..l];
    RunningInGeneral(cs, i + 1);
    if i < l {
      PaidGrows(cs, i + 1, l);
    } else {
      ExcessGrows(cs, j + 1, l + 1);
      assert cs[..j + 1][..j] == cs[..j];
      RunningInGeneral(cs, j);
    }
  }

  /** The limit on the sum can be relied on exactly when no candidate whose donation exceeds the balance
      stands before one who is paid something. */
  lemma SumLimitHolds(cs: seq<Candidate>)
    requires Entered(cs)
    ensures (forall maxSum: real, maxNum: int :: maxSum >= 0.0 ==> Paid(Selection(cs, maxSum, maxNum)) <= maxSum)
            <==> !Masked(cs)
  {
    if Masked(cs) {
      var maxSum, maxNum := MaskedExceeds(cs);
      assert Paid(Selection(cs, maxSum, maxNum)) > maxSum;
    } else {
      forall maxSum: real, maxNum: int | maxSum >= 0.0 ensures Paid(Selection(cs, maxSum, maxNum)) <= maxSum {
        UnmaskedStaysWithin(cs, maxSum, maxNum, |cs|);
      }
    }
  }

  /** A created run is never empty exactly when the first candidate's total is known and the smallest. */
  lemma NeverEmpty(cs: seq<Candidate>)
    ensures (forall maxSum: real, maxNum: int :: maxNum > 0 && SomeoneFits(cs, maxSum) ==> Selection(cs, maxSum, maxNum) != [])
            <==> forall i :: 0 <= i < |cs| && RunningAt(cs, i).Some? ==>
                   RunningAt(cs, 0).Some? && RunningAt(cs, 0).value <= RunningAt(cs, i).value
  {
    if i :| 0 <= i < |cs| && RunningAt(cs, i).Some?
            && !(RunningAt(cs, 0).Some? && RunningAt(cs, 0).value <= RunningAt(cs, i).value) {
      var maxSum := RunningAt(cs, i).value;
      assert SomeoneFits(cs, maxSum);
      NoOneElse(cs, maxSum, 1, 1, |cs|);
      assert !Passes(cs, maxSum, 1, 0);
      assert Selected(cs, maxSum, 1, 1) == Selected(cs, maxSum, 1, 0) + [];
      assert Selection(cs, maxSum, 1) == [];
    } else {
      forall maxSum: real, maxNum: int | maxNum > 0 && SomeoneFits(cs, maxSum)
        ensures Selection(cs, maxSum, maxNum) != []
      {
        var i :| 0 <= i < |cs| && RunningAt(cs, i).Some? && RunningAt(cs, i).value <= maxSum;
        assert Passes(cs, maxSum, maxNum, 0);
        FirstStays(cs, maxSum, maxNum, |cs|);
      }
    }
  }

  lemma {:induction false} FirstStays(cs: seq<Candidate>, maxSum: real, maxNum: int, n: nat)
    requires 1 <= n <= |cs| && Passes(cs, maxSum, maxNum, 0)
    ensures Selected(cs, maxSum, maxNum, n) != []
  {
    if n == 1 {
      assert Selected(cs, maxSum, maxNum, 1) == Selected(cs, maxSum, maxNum, 0) + [cs[0]];
    } else {
      FirstStays(cs, maxSum, maxNum, n - 1);
    }
  }

  // ---- given limits ------------------------------------------------------------------

  lemma {:induction false} SelectedIfSomeonePasses(cs: seq<Candidate>, maxSum: real, maxNum: int, n: nat)
    requires n <= |cs|
    ensures Selected(cs, maxSum, maxNum, n) != [] <==> exists i :: 0 <= i < n && Passes(cs, maxSum, maxNum, i)
  {
    if n > 0 {
      SelectedIfSomeonePasses(cs, maxSum, maxNum, n - 1);
      if i :| 0 <= i < n && Passes(cs, maxSum, maxNum, i) && i < n - 1 {
        assert Selected(cs, maxSum, maxNum, n - 1) != [];
      }
    }
  }

  /** For the limits of one run: it takes someone if and only if one of the first maxNum running totals is
      known and within the sum. */
  lemma NonEmptyIfTotalFits(cs: seq<Candidate>, maxSum: real, maxNum: int)
    ensures Selection(cs, maxSum, maxNum) != [] <==>
              exists i :: 0 <= i < |cs| && i < maxNum && RunningAt(cs, i).Some? && RunningAt(cs, i).value <= maxSum
  {
    SelectedIfSomeonePasses(cs, maxSum, maxNum, |cs|);
    if i :| 0 <= i < |cs| && i < maxNum && RunningAt(cs, i).Some? && RunningAt(cs, i).value <= maxSum {
      assert Passes(cs, maxSum, maxNum, i);
    }
  }

  /** What the candidates count for that one run passes over. */
  function PassedOver(cs: seq<Candidate>, maxSum: real, maxNum: int, n: nat): real
    requires n <= |cs|
  {
    if n == 0 then 0.0
    else
      var c := cs[n - 1];
      PassedOver(cs, maxSum, maxNum, n - 1)
      + (if Passes(cs, maxSum, maxNum, n - 1) || c.donation.None? then 0.0 else c.balance - c.donation.value)
  }

  /** What it pays of the balances: everything counted, less what it passes over, plus the excess of those it takes. */
  lemma {:induction false} PaidByRun(cs: seq<Candidate>, maxSum: real, maxNum: int, n: nat)
    requires Entered(cs) && n <= |cs|
    ensures Paid(Selected(cs, maxSum, maxNum, n))
            == (match Running(cs, n) case Some(total) => total case None => 0.0)
               - PassedOver(cs, maxSum, maxNum, n) + TotalExcess(Selected(cs, maxSum, maxNum, n))
  {
    if n > 0 {
      PaidByRun(cs, maxSum, maxNum, n - 1);
      var before, c := Selected(cs, maxSum, maxNum, n - 1), cs[n - 1];
      if Passes(cs, maxSum, maxNum, n - 1) {
        PaidAppend(before, c);
        assert (before + [c])[..|before|] == before;
      } else {
        assert Selected(cs, maxSum, maxNum, n) == before;
      }
    }
  }

  /** Up to its last payout a run pays what the running total says, which is within the limit, plus the excess
      of those it takes, less what it passes over: it keeps its limit if and only if the excess is not larger
      than the room the total leaves and what was passed over together. */
  lemma SumLimitOfRun(cs: seq<Candidate>, maxSum: real, maxNum: int, n: nat)
    requires Entered(cs) && n < |cs| && Passes(cs, maxSum, maxNum, n)
    requires forall i :: n < i < |cs| ==> !Passes(cs, maxSum, maxNum, i)
    ensures Paid(Selection(cs, maxSum, maxNum)) <= maxSum <==>
              TotalExcess(Selection(cs, maxSum, maxNum))
              <= maxSum - RunningAt(cs, n).value + PassedOver(cs, maxSum, maxNum, n + 1)
  {
    PaidByRun(cs, maxSum, maxNum, n + 1);
    NoOneAfter(cs, maxSum, maxNum, n + 1, |cs|);
  }

  lemma {:induction false} NoOneAfter(cs: seq<Candidate>, maxSum: real, maxNum: int, n: nat, m: nat)
    requires n <= m <= |cs| && forall i :: n <= i < |cs| ==> !Passes(cs, maxSum, maxNum, i)
    ensures Selected(cs, maxSum, maxNum, m) == Selected(cs, maxSum, maxNum, n)
    decreases m
  {
    if n < m {
      NoOneAfter(cs, maxSum, maxNum, n, m - 1);
    }
  }
}
