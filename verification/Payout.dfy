/** Payout runs: created from a selection of customers, then either done, which books the money out, or revoked. */
module Payout {

  import opened Wrappers
  import opened Ledger
  import opened PayoutSelection

  datatype Info = Info(donation: Option<real>, donateAll: bool, hasEnteredInfo: bool, payoutExport: bool, hasTag: bool)

  datatype PayoutRow = PayoutRow(account: nat, run: nat, amount: real, donation: real)

  datatype RunRow = RunRow(done: bool, revoked: bool)

  datatype Kind = Sepa | DonationExit

  /** A booking "payout run <run> sepa exit" or "payout run <run> donation exit". */
  datatype PaidOut = PaidOut(run: nat, account: nat, kind: Kind, amount: real)

  /** `infos` has an entry for every customer account; a payout run's id is its place in `runs`. */
  datatype State = State(accounts: Accounts, infos: map<nat, Info>, payouts: seq<PayoutRow>, runs: seq<RunRow>,
                         paidOut: seq<PaidOut>)

  datatype Event = Event(sepaExit: nat, donationExit: nat, sepaConfigured: bool, maxPayoutsInRun: int)

  datatype Refusal = SepaNotConfigured | AboveEventMaximum | NoPayouts | WouldBeEmpty | UnknownRun | AlreadyDone | AlreadyRevoked

  /** round(x, 2) > 0 */
  predicate RoundsAboveZero(x: real) { x >= 0.005 }

  predicate HasPayout(payouts: seq<PayoutRow>, account: nat)
  {
    exists i :: 0 <= i < |payouts| && payouts[i].account == account
  }

  predicate Eligible(s: State, k: nat)
  {
    && k < |s.accounts| && k in s.infos && !HasPayout(s.payouts, k)
    && s.infos[k].hasEnteredInfo && s.infos[k].payoutExport && RoundsAboveZero(s.accounts[k].balance)
  }

  /** customers_without_payout_run among the first n accounts, by account number. */
  function Candidates(s: State, n: nat): (cs: seq<Candidate>)
    requires n <= |s.accounts|
    ensures forall c :: c in cs ==> Eligible(s, c.account) && c.account < n
                                    && c == Candidate(c.account, s.accounts[c.account].balance,
                                                      s.infos[c.account].donation, s.infos[c.account].donateAll)
    ensures forall i, j :: 0 <= i < j < |cs| ==> cs[i].account < cs[j].account
  {
    if n == 0 then []
    else
      var k := n - 1;
      Candidates(s, k)
      + (if Eligible(s, k) then [Candidate(k, s.accounts[k].balance, s.infos[k].donation, s.infos[k].donateAll)] else [])
  }

  function AllCandidates(s: State): seq<Candidate> { Candidates(s, |s.accounts|) }

  function RowsFor(cs: seq<Candidate>, run: nat): (rows: seq<PayoutRow>)
    ensures |rows| == |cs|
  {
    seq(|cs|, i requires 0 <= i < |cs| => PayoutRow(cs[i].account, run, Amount(cs[i]), Donation(cs[i])))
  }

  function Create(s: State, e: Event, maxSum: real, maxNum: int): Result<State, Refusal>
  {
    if !e.sepaConfigured then Err(SepaNotConfigured)
    else if maxNum > e.maxPayoutsInRun then Err(AboveEventMaximum)
    else if maxNum <= 0 then Err(NoPayouts)
    else if !SomeoneFits(AllCandidates(s), maxSum) then Err(WouldBeEmpty)
    else Ok(s.(payouts := s.payouts + RowsFor(Selection(AllCandidates(s), maxSum, maxNum), |s.runs|),
               runs := s.runs + [RunRow(false, false)]))
  }

  function Part(row: PayoutRow, kind: Kind): real { if kind.Sepa? then row.amount else row.donation }

  /** What one of the two booking statements of a run covers: rows of customers with a tag, above zero. */
  function Due(rows: seq<PayoutRow>, infos: map<nat, Info>, run: nat, kind: Kind): seq<PaidOut>
  {
    if rows == [] then []
    else
      var row := rows[|rows| - 1];
      Due(rows[..|rows| - 1], infos, run, kind)
      + (if row.run == run && row.account in infos && infos[row.account].hasTag && RoundsAboveZero(Part(row, kind))
         then [PaidOut(run, row.account, kind, Part(row, kind))] else [])
  }

  function DueNow(s: State, run: nat): seq<PaidOut>
  {
    Due(s.payouts, s.infos, run, Sepa) + Due(s.payouts, s.infos, run, DonationExit)
  }

  function ToTransaction(e: Event, p: PaidOut): Transaction
  {
    Transaction(None, p.account, if p.kind.Sepa? then e.sepaExit else e.donationExit, p.amount, 0)
  }

  function ToTransactions(e: Event, ps: seq<PaidOut>): (ts: seq<Transaction>)
    ensures |ts| == |ps|
  {
    seq(|ps|, i requires 0 <= i < |ps| => ToTransaction(e, ps[i]))
  }

  /** Customers are accounts, and not the exit accounts. */
  ghost predicate Sane(s: State, e: Event)
  {
    && e.sepaExit < |s.accounts| && e.donationExit < |s.accounts| && e.sepaExit != e.donationExit
    && (forall k :: k in s.infos ==> k < |s.accounts| && k != e.sepaExit && k != e.donationExit)
  }

  lemma {:induction false} DueIsFromRows(rows: seq<PayoutRow>, infos: map<nat, Info>, run: nat, kind: Kind)
    ensures var due := Due(rows, infos, run, kind);
            forall p :: p in due ==>
              && p.run == run && p.kind == kind && p.account in infos && RoundsAboveZero(p.amount)
              && exists i :: 0 <= i < |rows| && rows[i].run == run && rows[i].account == p.account
                             && Part(rows[i], kind) == p.amount
  {
    if rows != [] {
      var front, last := rows[..|rows| - 1], rows[|rows| - 1];
      DueIsFromRows(front, infos, run, kind);
      var due := Due(rows, infos, run, kind);
      forall p | p in due
        ensures && p.run == run && p.kind == kind && p.account in infos && RoundsAboveZero(p.amount)
                && exists i :: 0 <= i < |rows| && rows[i].run == run && rows[i].account == p.account
                               && Part(rows[i], kind) == p.amount
      {
        if p in Due(front, infos, run, kind) {
          var i :| 0 <= i < |front| && front[i].run == run && front[i].account == p.account && Part(front[i], kind) == p.amount;
          assert rows[i] == front[i];
        } else {
          assert rows[|rows| - 1].account == p.account;
        }
      }
    }
  }

  lemma DueIsKnown(s: State, e: Event, run: nat)
    requires Sane(s, e)
    ensures AllKnown(s.accounts, ToTransactions(e, DueNow(s, run)))
  {
    DueIsFromRows(s.payouts, s.infos, run, Sepa);
    DueIsFromRows(s.payouts, s.infos, run, DonationExit);
    var due := DueNow(s, run);
    forall i | 0 <= i < |due| ensures Known(s.accounts, ToTransaction(e, due[i])) {
      assert due[i] in due;
      assert due[i].account in s.infos;
    }
  }

  function Done(s: State, e: Event, run: nat): Result<State, Refusal>
    requires Sane(s, e)
  {
    if run >= |s.runs| then Err(UnknownRun)
    else if s.runs[run].done then Err(AlreadyDone)
    else if s.runs[run].revoked then Err(AlreadyRevoked)
    else
      DueIsKnown(s, e, run);
      Ok(s.(runs := s.runs[run := s.runs[run].(done := true)],
            accounts := Replay(s.accounts, ToTransactions(e, DueNow(s, run))),
            paidOut := s.paidOut + DueNow(s, run)))
  }

  function WithoutRun(rows: seq<PayoutRow>, run: nat): seq<PayoutRow>
  {
    if rows == [] then []
    else WithoutRun(rows[..|rows| - 1], run) + (if rows[|rows| - 1].run == run then [] else [rows[|rows| - 1]])
  }

  function Revoke(s: State, run: nat): Result<State, Refusal>
  {
    if run >= |s.runs| then Err(UnknownRun)
    else if s.runs[run].done then Err(AlreadyDone)
    else if s.runs[run].revoked then Err(AlreadyRevoked)
    else Ok(s.(payouts := WithoutRun(s.payouts, run), runs := s.runs[run := s.runs[run].(revoked := true)]))
  }

  // ---- the service -------------------------------------------------------------------

  class PayoutService {
    const event: Event
    var accounts: Accounts
    var infos: map<nat, Info>
    var payouts: seq<PayoutRow>
    var runs: seq<RunRow>
    var paidOut: seq<PaidOut>

    constructor (event: Event, accounts: Accounts, infos: map<nat, Info>)
      ensures this.event == event && View() == State(accounts, infos, [], [], [])
    {
      this.event, this.accounts, this.infos := event, accounts, infos;
      payouts, runs, paidOut := [], [], [];
    }

    function View(): State
      reads this
    {
      State(accounts, infos, payouts, runs, paidOut)
    }

    method CreatePayoutRun(maxSum: real, maxNum: int) returns (r: Result<nat, Refusal>)
      modifies this`payouts, this`runs
      ensures var created := Create(old(View()), event, maxSum, maxNum);
              if created.Err? then r == Err(created.error) && View() == old(View())
              else r == Ok(|old(runs)|) && View() == created.value
    {
      if !event.sepaConfigured { return Err(SepaNotConfigured); }
      if maxNum > event.maxPayoutsInRun { return Err(AboveEventMaximum); }
      if maxNum <= 0 { return Err(NoPayouts); }
      var limit := if event.maxPayoutsInRun < maxNum then event.maxPayoutsInRun else maxNum;
      var candidates := AllCandidates(View());
      var fits := false;
      for i := 0 to |candidates|
        invariant fits <==> exists k :: 0 <= k < i && RunningAt(candidates, k).Some? && RunningAt(candidates, k).value <= maxSum
      {
        var total := RunningAt(candidates, i);
        fits := fits || (total.Some? && total.value <= maxSum);
      }
      if !fits { return Err(WouldBeEmpty); }
      var run := |runs|;
      runs := runs + [RunRow(false, false)];
      payouts := payouts + RowsFor(Selection(candidates, maxSum, limit), run);
      r := Ok(run);
    }

    method SetPayoutRunAsDone(run: nat) returns (r: Result<(), Refusal>)
      requires Sane(View(), event)
      modifies this`runs, this`accounts, this`paidOut
      ensures var done := Done(old(View()), event, run);
              if done.Err? then r == Err(done.error) && View() == old(View()) else r.Ok? && View() == done.value
    {
      if run >= |runs| { return Err(UnknownRun); }
      if runs[run].done { return Err(AlreadyDone); }
      if runs[run].revoked { return Err(AlreadyRevoked); }
      var due := DueNow(View(), run);
      DueIsKnown(View(), event, run);
      runs := runs[run := runs[run].(done := true)];
      BookPayouts(due);
      r := Ok(());
    }

    /** The two booking statements, row by row. */
    method BookPayouts(due: seq<PaidOut>)
      requires AllKnown(accounts, ToTransactions(event, due))
      modifies this`accounts, this`paidOut
      ensures accounts == Replay(old(accounts), ToTransactions(event, due)) && paidOut == old(paidOut) + due
    {
      hide Post;
      ghost var before := accounts;
      assert ToTransactions(event, due[..0]) == [];
      for i := 0 to |due|
        invariant AllKnown(before, ToTransactions(event, due[..i]))
        invariant accounts == Replay(before, ToTransactions(event, due[..i])) && paidOut == old(paidOut) + due[..i]
      {
        var t := ToTransaction(event, due[i]);
        assert t == ToTransactions(event, due)[i];
        assert ToTransactions(event, due[..i + 1]) == ToTransactions(event, due[..i]) + [t];
        ReplayAppend(before, ToTransactions(event, due[..i]), t);
        accounts := Post(accounts, t);
        paidOut := paidOut + [due[i]];
      }
      assert due[..|due|] == due;
    }

    method RevokePayoutRun(run: nat) returns (r: Result<(), Refusal>)
      modifies this`runs, this`payouts
      ensures var revoked := Revoke(old(View()), run);
              if revoked.Err? then r == Err(revoked.error) && View() == old(View()) else r.Ok? && View() == revoked.value
    {
      if run >= |runs| { return Err(UnknownRun); }
      if runs[run].done { return Err(AlreadyDone); }
      if runs[run].revoked { return Err(AlreadyRevoked); }
      payouts := WithoutRun(payouts, run);
      runs := runs[run := runs[run].(revoked := true)];
      r := Ok(());
    }
  }

  // ---- any sequence of operations ----------------------------------------------------

  /** Besides the three operations: any other booking; customers changing their data, which is refused once a
      payout exists; preventing or allowing a payout, which is refused once the view shows one, and it shows none
      without a tag; and an account losing or getting its tag, which nothing refuses. */
  datatype Step =
    | CreateRun(maxSum: real, maxNum: int)
    | DoneRun(run: nat)
    | RevokeRun(run: nat)
    | Other(t: Transaction)
    | SetInfo(account: nat, info: Info)
    | SetExport(account: nat, wanted: bool)
    | SetTag(account: nat, hasTag: bool)

  function Apply(s: State, e: Event, step: Step): State
    requires Sane(s, e)
  {
    match step
    case CreateRun(maxSum, maxNum) => (match Create(s, e, maxSum, maxNum) case Ok(after) => after case Err(_) => s)
    case DoneRun(run) => (match Done(s, e, run) case Ok(after) => after case Err(_) => s)
    case RevokeRun(run) => (match Revoke(s, run) case Ok(after) => after case Err(_) => s)
    case Other(t) => if Known(s.accounts, t) then s.(accounts := Post(s.accounts, t)) else s
    case SetInfo(k, info) =>
      if k in s.infos && !HasPayout(s.payouts, k)
      then s.(infos := s.infos[k := info.(hasTag := s.infos[k].hasTag, payoutExport := s.infos[k].payoutExport)]) else s
    case SetExport(k, wanted) =>
      if k in s.infos && !(HasPayout(s.payouts, k) && s.infos[k].hasTag)
      then s.(infos := s.infos[k := s.infos[k].(payoutExport := wanted)]) else s
    case SetTag(k, hasTag) =>
      if k in s.infos then s.(infos := s.infos[k := s.infos[k].(hasTag := hasTag)]) else s
  }

  /** One row per customer, of runs that are not revoked; no run is both; and what was paid out belongs to a
      row of a run that is done, once per customer and exit. */
  ghost predicate Inv(s: State, e: Event)
  {
    && Sane(s, e)
    && OneRowPerCustomer(s.payouts)
    && (forall i :: 0 <= i < |s.payouts| ==>
          s.payouts[i].run < |s.runs| && !s.runs[s.payouts[i].run].revoked && s.payouts[i].account in s.infos)
    && (forall r :: 0 <= r < |s.runs| ==> !(s.runs[r].done && s.runs[r].revoked))
    && (forall i :: 0 <= i < |s.paidOut| ==>
          && s.paidOut[i].run < |s.runs| && s.runs[s.paidOut[i].run].done
          && Covers(s.payouts, s.paidOut[i]))
    && OncePerExit(s.paidOut)
  }

  predicate OneRowPerCustomer(rows: seq<PayoutRow>)
  {
    forall i, j :: 0 <= i < j < |rows| ==> rows[i].account != rows[j].account
  }

  ghost predicate Covers(rows: seq<PayoutRow>, p: PaidOut)
  {
    exists i :: 0 <= i < |rows| && rows[i].run == p.run && rows[i].account == p.account && Part(rows[i], p.kind) == p.amount
  }

  ghost predicate OncePerExit(paidOut: seq<PaidOut>)
  {
    forall i, j :: 0 <= i < j < |paidOut| ==> paidOut[i].account != paidOut[j].account || paidOut[i].kind != paidOut[j].kind
  }

  lemma {:induction false} SelectionIsFromCandidates(cs: seq<Candidate>, maxSum: real, maxNum: int, n: nat)
    requires n <= |cs|
    requires forall i, j :: 0 <= i < j < |cs| ==> cs[i].account < cs[j].account
    ensures var chosen := Selected(cs, maxSum, maxNum, n);
            && (forall c :: c in chosen ==> c in cs[..n])
            && forall i, j :: 0 <= i < j < |chosen| ==> chosen[i].account < chosen[j].account
  {
    if n > 0 {
      SelectionIsFromCandidates(cs, maxSum, maxNum, n - 1);
      assert cs[..n] == cs[..n - 1] + [cs[n - 1]];
      var before := Selected(cs, maxSum, maxNum, n - 1);
      forall i | 0 <= i < |before| ensures before[i].account < cs[n - 1].account {
        assert before[i] in before && before[i] in cs[..n - 1];
      }
    }
  }

  lemma CreateKeeps(s: State, e: Event, maxSum: real, maxNum: int)
    requires Inv(s, e) && Create(s, e, maxSum, maxNum).Ok?
    ensures Inv(Create(s, e, maxSum, maxNum).value, e)
  {
    hide Candidates, Selected, Amount, Donation, OncePerExit, Part;
    var cs, after := AllCandidates(s), Create(s, e, maxSum, maxNum).value;
    SelectionIsFromCandidates(cs, maxSum, maxNum, |cs|);
    assert cs[..|cs|] == cs;
    var chosen := Selection(cs, maxSum, maxNum);
    var rows := RowsFor(chosen, |s.runs|);
    forall i | 0 <= i < |rows| ensures rows[i].account in s.infos && !HasPayout(s.payouts, rows[i].account) {
      assert chosen[i] in chosen && chosen[i] in cs;
    }
    forall i, j | 0 <= i < j < |after.payouts| ensures after.payouts[i].account != after.payouts[j].account {
      if i < |s.payouts| <= j {
        assert after.payouts[j] == rows[j - |s.payouts|];
        assert !HasPayout(s.payouts, rows[j - |s.payouts|].account);
      }
    }
    forall p | Covers(s.payouts, p) ensures Covers(after.payouts, p) {
      var i :| 0 <= i < |s.payouts| && s.payouts[i].run == p.run && s.payouts[i].account == p.account
               && Part(s.payouts[i], p.kind) == p.amount;
      assert after.payouts[i] == s.payouts[i];
    }
  }

  /** A run created from ordinary candidates takes at least one, at most maxNum, pays at most maxSum, and
      could not have gone on to the next candidate. */
  lemma CreatedWithinLimits(s: State, e: Event, maxSum: real, maxNum: int)
    requires AllOrdinary(AllCandidates(s)) && Create(s, e, maxSum, maxNum).Ok?
    ensures var cs := AllCandidates(s);
            var k := |Create(s, e, maxSum, maxNum).value.payouts| - |s.payouts|;
            && 0 < k <= |cs| && k <= maxNum && Paid(cs[..k]) <= maxSum
            && Create(s, e, maxSum, maxNum).value.payouts == s.payouts + RowsFor(cs[..k], |s.runs|)
            && forall m :: k < m <= |cs| ==> !Within(cs, maxSum, maxNum, m)
  {
    hide Candidates, Selected, SomeoneFits, Paid;
    LongestPrefixIsTaken(AllCandidates(s), maxSum, maxNum);
  }

  lemma {:induction false} DueOnce(rows: seq<PayoutRow>, infos: map<nat, Info>, run: nat, kind: Kind)
    requires OneRowPerCustomer(rows)
    ensures OncePerExit(Due(rows, infos, run, kind))
  {
    if rows != [] {
      var front := rows[..|rows| - 1];
      DueOnce(front, infos, run, kind);
      DueIsFromRows(front, infos, run, kind);
      assert forall p :: p in Due(front, infos, run, kind) ==> p.account != rows[|rows| - 1].account;
    }
  }

  lemma DoneKeeps(s: State, e: Event, run: nat)
    requires Inv(s, e) && Done(s, e, run).Ok?
    ensures Inv(Done(s, e, run).value, e)
  {
    hide Replay, Part, Due, ToTransactions;
    DueIsFromRows(s.payouts, s.infos, run, Sepa);
    DueIsFromRows(s.payouts, s.infos, run, DonationExit);
    DueOnce(s.payouts, s.infos, run, Sepa);
    DueOnce(s.payouts, s.infos, run, DonationExit);
    DueIsKnown(s, e, run);
    var due, after := DueNow(s, run), Done(s, e, run).value;
    forall i | 0 <= i < |due| ensures due[i].run == run && Covers(s.payouts, due[i]) {
      assert due[i] in due;
    }
    forall i, j | 0 <= i < |s.paidOut| && 0 <= j < |due| ensures s.paidOut[i].account != due[j].account {
      PaidIsNotDue(s, e, i, due[j]);
    }
    assert OncePerExit(due);
  }

  /** A customer who was paid out has no row in a run that is still open. */
  lemma PaidIsNotDue(s: State, e: Event, i: nat, p: PaidOut)
    requires Inv(s, e) && i < |s.paidOut| && Covers(s.payouts, p) && p.run < |s.runs| && !s.runs[p.run].done
    ensures s.paidOut[i].account != p.account
  {
    var a :| 0 <= a < |s.payouts| && s.payouts[a].run == p.run && s.payouts[a].account == p.account
             && Part(s.payouts[a], p.kind) == p.amount;
    var q := s.paidOut[i];
    var b :| 0 <= b < |s.payouts| && s.payouts[b].run == q.run && s.payouts[b].account == q.account
             && Part(s.payouts[b], q.kind) == q.amount;
    assert s.payouts[a].run != s.payouts[b].run;
  }

  lemma {:induction false} WithoutRunSpec(rows: seq<PayoutRow>, run: nat)
    ensures forall row :: row in WithoutRun(rows, run) <==> row in rows && row.run != run
  {
    if rows != [] {
      var front, last := rows[..|rows| - 1], rows[|rows| - 1];
      WithoutRunSpec(front, run);
      assert rows == front + [last];
    }
  }

  lemma {:induction false} WithoutRunDistinct(rows: seq<PayoutRow>, run: nat)
    requires OneRowPerCustomer(rows)
    ensures OneRowPerCustomer(WithoutRun(rows, run))
  {
    if rows != [] {
      var front, last := rows[..|rows| - 1], rows[|rows| - 1];
      WithoutRunDistinct(front, run);
      WithoutRunSpec(front, run);
      var rest := WithoutRun(front, run);
      forall i | 0 <= i < |rest| ensures rest[i].account != last.account {
        assert rest[i] in rest && rest[i] in front;
        var k :| 0 <= k < |front| && front[k] == rest[i];
        assert rows[k] == front[k];
      }
      var all := WithoutRun(rows, run);
      assert all == if last.run == run then rest else rest + [last];
      forall i, j | 0 <= i < j < |all| ensures all[i].account != all[j].account {
        assert j < |rest| ==> rest[i].account != rest[j].account;
      }
    }
  }

  lemma RevokeKeeps(s: State, e: Event, run: nat)
    requires Inv(s, e) && Revoke(s, run).Ok?
    ensures Inv(Revoke(s, run).value, e)
  {
    hide WithoutRun, OncePerExit, Part;
    WithoutRunSpec(s.payouts, run);
    WithoutRunDistinct(s.payouts, run);
    var after := Revoke(s, run).value;
    forall i | 0 <= i < |after.payouts|
      ensures after.payouts[i].run != run && after.payouts[i].run < |s.runs| && !s.runs[after.payouts[i].run].revoked
              && after.payouts[i].account in s.infos
    {
      assert after.payouts[i] in after.payouts && after.payouts[i] in s.payouts;
    }
    forall i | 0 <= i < |s.paidOut| ensures Covers(after.payouts, s.paidOut[i]) {
      var p := s.paidOut[i];
      var a :| 0 <= a < |s.payouts| && s.payouts[a].run == p.run && s.payouts[a].account == p.account
               && Part(s.payouts[a], p.kind) == p.amount;
      assert s.payouts[a] in after.payouts;
      var b :| 0 <= b < |after.payouts| && after.payouts[b] == s.payouts[a];
    }
  }

  lemma StepKeeps(s: State, e: Event, step: Step)
    requires Inv(s, e)
    ensures Inv(Apply(s, e, step), e)
  {
    hide Post, OncePerExit, Create, Done, Revoke;
    match step
    case CreateRun(maxSum, maxNum) =>
      if Create(s, e, maxSum, maxNum).Ok? {
        CreateKeeps(s, e, maxSum, maxNum);
      }
    case DoneRun(run) =>
      if Done(s, e, run).Ok? {
        DoneKeeps(s, e, run);
      }
    case RevokeRun(run) =>
      if Revoke(s, run).Ok? {
        RevokeKeeps(s, e, run);
      }
    case Other(t) =>
      if Known(s.accounts, t) {
        PostConserves(s.accounts, t);
      }
    case SetInfo(_, _) =>
    case SetExport(_, _) =>
    case SetTag(_, _) =>
  }

  /** A run of the system: states[i + 1] follows from states[i] by steps[i]; at first nothing was paid out. */
  ghost predicate Behavior(states: seq<State>, e: Event, steps: seq<Step>)
  {
    && |states| == |steps| + 1
    && Sane(states[0], e) && states[0].payouts == [] && states[0].runs == [] && states[0].paidOut == []
    && forall i :: 0 <= i < |steps| ==> Sane(states[i], e) && Apply(states[i], e, steps[i]) == states[i + 1]
  }

  lemma {:induction false} InvAlways(states: seq<State>, e: Event, steps: seq<Step>, i: nat)
    requires Behavior(states, e, steps) && i <= |steps|
    ensures Inv(states[i], e)
  {
    hide Apply;
    if i > 0 {
      InvAlways(states, e, steps, i - 1);
      StepKeeps(states[i - 1], e, steps[i - 1]);
      assert Apply(states[i - 1], e, steps[i - 1]) == states[i];
    }
  }

  /** Over any sequence of operations a customer is in at most one payout, is paid out at most once to the
      bank and at most once as a donation, and no run is both done and revoked. */
  lemma PaidOnce(states: seq<State>, e: Event, steps: seq<Step>, i: nat)
    requires Behavior(states, e, steps) && i <= |steps|
    ensures forall a, b :: 0 <= a < b < |states[i].payouts| ==> states[i].payouts[a].account != states[i].payouts[b].account
    ensures forall a, b :: 0 <= a < b < |states[i].paidOut| ==>
              states[i].paidOut[a].account != states[i].paidOut[b].account
              || states[i].paidOut[a].kind != states[i].paidOut[b].kind
    ensures forall r :: 0 <= r < |states[i].runs| ==> !(states[i].runs[r].done && states[i].runs[r].revoked)
  {
    InvAlways(states, e, steps, i);
  }

  // ---- where the money goes, in whole cents ------------------------------------------

  ghost predicate CentsInfo(info: Info) { info.donation.Some? ==> Cents(info.donation.value) && info.donation.value >= 0.0 }

  ghost predicate CentsRow(row: PayoutRow)
  {
    Cents(row.amount) && Cents(row.donation) && row.amount >= 0.0 && row.donation >= 0.0
  }

  /** All balances, donations and payouts are whole cents, as the customer portal and the tills enter them. */
  ghost predicate InCents(s: State)
  {
    && AllCents(s.accounts)
    && (forall k :: k in s.infos ==> CentsInfo(s.infos[k]))
    && forall i :: 0 <= i < |s.payouts| ==> CentsRow(s.payouts[i])
  }

  ghost predicate StepInCents(step: Step)
  {
    (step.Other? ==> Cents(step.t.amount)) && (step.SetInfo? ==> CentsInfo(step.info))
  }

  lemma ZeroCents()
    ensures Cents(0.0)
  {
    assert 0.0 == Hundredths(0);
  }

  lemma CandidateInCents(c: Candidate)
    requires Cents(c.balance) && c.balance >= 0.0
    requires c.donation.Some? ==> Cents(c.donation.value) && c.donation.value >= 0.0
    ensures Cents(Amount(c)) && Cents(Donation(c)) && Amount(c) >= 0.0 && Donation(c) >= 0.0
  {
    hide Cents;
    ZeroCents();
    if c.donation.Some? {
      CentsAdd(c.balance, c.donation.value);
    }
  }

  lemma CreateInCents(s: State, e: Event, maxSum: real, maxNum: int)
    requires InCents(s) && Create(s, e, maxSum, maxNum).Ok?
    ensures InCents(Create(s, e, maxSum, maxNum).value)
  {
    hide Candidates, Selected, Amount, Donation, Cents;
    var cs := AllCandidates(s);
    SelectionIsFromCandidates(cs, maxSum, maxNum, |cs|);
    assert cs[..|cs|] == cs;
    var chosen := Selection(cs, maxSum, maxNum);
    forall i | 0 <= i < |chosen| ensures CentsRow(PayoutRow(chosen[i].account, |s.runs|, Amount(chosen[i]), Donation(chosen[i]))) {
      assert chosen[i] in chosen && chosen[i] in cs;
      assert CentsInfo(s.infos[chosen[i].account]);
      CandidateInCents(chosen[i]);
    }
  }

  lemma {:induction false} DueInCents(rows: seq<PayoutRow>, infos: map<nat, Info>, run: nat, kind: Kind)
    requires forall i :: 0 <= i < |rows| ==> CentsRow(rows[i])
    ensures forall p :: p in Due(rows, infos, run, kind) ==> Cents(p.amount)
  {
    hide Cents;
    if rows != [] {
      DueInCents(rows[..|rows| - 1], infos, run, kind);
    }
  }

  lemma DoneInCents(s: State, e: Event, run: nat)
    requires Sane(s, e) && InCents(s) && Done(s, e, run).Ok?
    ensures InCents(Done(s, e, run).value) && Total(Done(s, e, run).value.accounts) == Total(s.accounts)
    ensures forall k :: 0 <= k < |s.accounts| ==>
              Done(s, e, run).value.accounts[k].balance
              == s.accounts[k].balance + Net(ToTransactions(e, DueNow(s, run)), k)
  {
    hide Cents, Replay, Due, Net, CentsRow;
    DueIsKnown(s, e, run);
    DueInCents(s.payouts, s.infos, run, Sepa);
    DueInCents(s.payouts, s.infos, run, DonationExit);
    var due := DueNow(s, run);
    var ts := ToTransactions(e, due);
    forall i | 0 <= i < |ts| ensures Cents(ts[i].amount) {
      assert due[i] in due;
    }
    RunConserves(s.accounts, ts);
  }

  /** Over any sequence of operations in whole cents the sum of all balances stays the same. */
  lemma {:induction false} MoneyIsConserved(states: seq<State>, e: Event, steps: seq<Step>, i: nat)
    requires Behavior(states, e, steps) && i <= |steps|
    requires InCents(states[0]) && forall j :: 0 <= j < |steps| ==> StepInCents(steps[j])
    ensures InCents(states[i]) && Total(states[i].accounts) == Total(states[0].accounts)
  {
    hide Apply, InCents;
    if i > 0 {
      MoneyIsConserved(states, e, steps, i - 1);
      StepInCentsKeeps(states[i - 1], e, steps[i - 1]);
      assert Apply(states[i - 1], e, steps[i - 1]) == states[i];
    }
  }

  lemma TagIsNoMoney(info: Info, hasTag: bool, payoutExport: bool)
    requires CentsInfo(info)
    ensures CentsInfo(info.(hasTag := hasTag, payoutExport := payoutExport))
  {
  }

  lemma StepInCentsKeeps(s: State, e: Event, step: Step)
    requires Sane(s, e) && InCents(s) && StepInCents(step)
    ensures InCents(Apply(s, e, step)) && Total(Apply(s, e, step).accounts) == Total(s.accounts)
  {
    hide Post, Create, Done, Revoke, Cents, CentsInfo, CentsRow, Total;
    match step
    case CreateRun(maxSum, maxNum) =>
      if Create(s, e, maxSum, maxNum).Ok? {
        CreateInCents(s, e, maxSum, maxNum);
        CreateKeepsAccounts(s, e, maxSum, maxNum);
      }
    case DoneRun(run) =>
      if Done(s, e, run).Ok? {
        DoneInCents(s, e, run);
      }
    case RevokeRun(run) =>
      if Revoke(s, run).Ok? {
        RevokeInCents(s, run);
      }
    case Other(t) =>
      if Known(s.accounts, t) {
        PostCents(s.accounts, t);
        PostConserves(s.accounts, t);
      }
    case SetInfo(k, info) =>
      if k in s.infos {
        TagIsNoMoney(info, s.infos[k].hasTag, s.infos[k].payoutExport);
      }
    case SetExport(k, wanted) =>
      if k in s.infos {
        TagIsNoMoney(s.infos[k], s.infos[k].hasTag, wanted);
      }
    case SetTag(k, hasTag) =>
      if k in s.infos {
        TagIsNoMoney(s.infos[k], hasTag, s.infos[k].payoutExport);
      }
  }

  lemma CreateKeepsAccounts(s: State, e: Event, maxSum: real, maxNum: int)
    requires Create(s, e, maxSum, maxNum).Ok?
    ensures Create(s, e, maxSum, maxNum).value.accounts == s.accounts
  {
  }

  lemma RevokeInCents(s: State, run: nat)
    requires InCents(s) && Revoke(s, run).Ok?
    ensures InCents(Revoke(s, run).value) && Revoke(s, run).value.accounts == s.accounts
  {
    hide WithoutRun, Cents, CentsRow;
    WithoutRunSpec(s.payouts, run);
    var rest := WithoutRun(s.payouts, run);
    forall i | 0 <= i < |rest| ensures CentsRow(rest[i]) {
      assert rest[i] in rest && rest[i] in s.payouts;
    }
  }

  // the accounts of one run

  lemma {:induction false} NetConcat(ts: seq<Transaction>, more: seq<Transaction>, k: nat)
    ensures Net(ts + more, k) == Net(ts, k) + Net(more, k)
  {
    if more == [] {
      assert ts + more == ts;
    } else {
      assert (ts + more)[..|ts + more| - 1] == ts + more[..|more| - 1];
      NetConcat(ts, more[..|more| - 1], k);
    }
  }

  /** What one booking statement takes from a customer, row by row. */
  function Taken(rows: seq<PayoutRow>, infos: map<nat, Info>, run: nat, kind: Kind, account: nat): real
  {
    if rows == [] then 0.0
    else
      var row := rows[|rows| - 1];
      Taken(rows[..|rows| - 1], infos, run, kind, account)
      + (if row.run == run && row.account == account && account in infos && infos[account].hasTag
            && RoundsAboveZero(Part(row, kind)) then Part(row, kind) else 0.0)
  }

  /** What one booking statement brings to its exit account. */
  function Given(rows: seq<PayoutRow>, infos: map<nat, Info>, run: nat, kind: Kind): real
  {
    if rows == [] then 0.0
    else
      var row := rows[|rows| - 1];
      Given(rows[..|rows| - 1], infos, run, kind)
      + (if row.run == run && row.account in infos && infos[row.account].hasTag then Part(row, kind) else 0.0)
  }

  function Exit(e: Event, kind: Kind): nat { if kind.Sepa? then e.sepaExit else e.donationExit }

  lemma {:induction false} NetOfDue(rows: seq<PayoutRow>, infos: map<nat, Info>, run: nat, kind: Kind, e: Event, k: nat)
    requires e.sepaExit != e.donationExit && e.sepaExit !in infos && e.donationExit !in infos
    requires forall i :: 0 <= i < |rows| ==> CentsRow(rows[i])
    ensures k in infos ==> Net(ToTransactions(e, Due(rows, infos, run, kind)), k) == -Taken(rows, infos, run, kind, k)
    ensures k == Exit(e, kind) ==> Net(ToTransactions(e, Due(rows, infos, run, kind)), k) == Given(rows, infos, run, kind)
    ensures k !in infos && k != Exit(e, kind) ==> Net(ToTransactions(e, Due(rows, infos, run, kind)), k) == 0.0
  {
    hide CentsRow;
    if rows != [] {
      var front, row := rows[..|rows| - 1], rows[|rows| - 1];
      NetOfDue(front, infos, run, kind, e, k);
      var due := Due(front, infos, run, kind);
      assert due + [] == due;
      if row.run == run && row.account in infos && infos[row.account].hasTag {
        if RoundsAboveZero(Part(row, kind)) {
          NetOfOneMore(e, due, PaidOut(run, row.account, kind, Part(row, kind)), k);
        } else {
          SmallCentsAreZero(row, kind);
        }
      }
    }
  }

  lemma NetOfOneMore(e: Event, ps: seq<PaidOut>, p: PaidOut, k: nat)
    ensures Net(ToTransactions(e, ps + [p]), k)
            == Net(ToTransactions(e, ps), k) + (if Exit(e, p.kind) == k then p.amount else 0.0)
               - (if p.account == k then p.amount else 0.0)
  {
    assert ToTransactions(e, ps + [p])[..|ps|] == ToTransactions(e, ps);
  }

  lemma SmallCentsAreZero(row: PayoutRow, kind: Kind)
    requires CentsRow(row) && !RoundsAboveZero(Part(row, kind))
    ensures Part(row, kind) == 0.0
  {
    var x := Part(row, kind);
    var n: int :| x == Hundredths(n);
    OneCent(n);
  }

  lemma OneCent(n: int)
    ensures n >= 1 ==> Hundredths(n) >= 0.01
  {
  }

  lemma {:induction false} TakenIsPart(rows: seq<PayoutRow>, infos: map<nat, Info>, run: nat, kind: Kind, i: nat)
    requires OneRowPerCustomer(rows) && i < |rows| && rows[i].run == run && CentsRow(rows[i])
    requires rows[i].account in infos && infos[rows[i].account].hasTag
    ensures Taken(rows, infos, run, kind, rows[i].account) == Part(rows[i], kind)
  {
    hide CentsRow;
    var front, last := rows[..|rows| - 1], |rows| - 1;
    if i == last {
      NothingTaken(front, infos, run, kind, rows[i].account);
      if !RoundsAboveZero(Part(rows[i], kind)) {
        SmallCentsAreZero(rows[i], kind);
      }
    } else {
      assert front[i] == rows[i];
      TakenIsPart(front, infos, run, kind, i);
    }
  }

  lemma {:induction false} NothingTaken(rows: seq<PayoutRow>, infos: map<nat, Info>, run: nat, kind: Kind, account: nat)
    requires (account in infos && !infos[account].hasTag)
             || forall i :: 0 <= i < |rows| ==> rows[i].account != account || rows[i].run != run
    ensures Taken(rows, infos, run, kind, account) == 0.0
  {
    if rows != [] {
      NothingTaken(rows[..|rows| - 1], infos, run, kind, account);
    }
  }

  /** The customer is in the run and still has a tag. */
  predicate PaidBy(s: State, run: nat, k: nat)
  {
    k in s.infos && s.infos[k].hasTag && exists i :: 0 <= i < |s.payouts| && s.payouts[i].run == run && s.payouts[i].account == k
  }

  /** Marking a run as done: each of its customers with a tag pays amount and donation, the SEPA exit and
      the donation exit receive exactly these amounts, and nobody else's balance changes. */
  lemma DoneMovesMoney(s: State, e: Event, run: nat)
    requires Inv(s, e) && InCents(s) && Done(s, e, run).Ok?
    ensures var after := Done(s, e, run).value;
            && |after.accounts| == |s.accounts|
            && after.accounts[e.sepaExit].balance == s.accounts[e.sepaExit].balance + Given(s.payouts, s.infos, run, Sepa)
            && after.accounts[e.donationExit].balance
               == s.accounts[e.donationExit].balance + Given(s.payouts, s.infos, run, DonationExit)
            && (forall i :: 0 <= i < |s.payouts| && s.payouts[i].run == run && s.infos[s.payouts[i].account].hasTag ==>
                  var row := s.payouts[i];
                  after.accounts[row.account].balance == s.accounts[row.account].balance - row.amount - row.donation)
            && forall k :: 0 <= k < |s.accounts| && k != e.sepaExit && k != e.donationExit && !PaidBy(s, run, k) ==>
                 after.accounts[k].balance == s.accounts[k].balance
  {
    hide Due, Taken, Given, Net, Replay, CentsRow, Cents, ToTransactions;
    DoneInCents(s, e, run);
    var after := Done(s, e, run).value;
    forall k: nat | k < |s.accounts|
      ensures k in s.infos ==>
                after.accounts[k].balance
                == s.accounts[k].balance - Taken(s.payouts, s.infos, run, Sepa, k) - Taken(s.payouts, s.infos, run, DonationExit, k)
      ensures k == e.sepaExit ==> after.accounts[k].balance == s.accounts[k].balance + Given(s.payouts, s.infos, run, Sepa)
      ensures k == e.donationExit ==>
                after.accounts[k].balance == s.accounts[k].balance + Given(s.payouts, s.infos, run, DonationExit)
      ensures k !in s.infos && k != e.sepaExit && k != e.donationExit ==> after.accounts[k].balance == s.accounts[k].balance
    {
      NetOfBoth(s, e, run, k);
    }
    forall i | 0 <= i < |s.payouts| && s.payouts[i].run == run && s.infos[s.payouts[i].account].hasTag
      ensures after.accounts[s.payouts[i].account].balance
              == s.accounts[s.payouts[i].account].balance - s.payouts[i].amount - s.payouts[i].donation
    {
      TakenIsPart(s.payouts, s.infos, run, Sepa, i);
      TakenIsPart(s.payouts, s.infos, run, DonationExit, i);
    }
    forall k: nat | k < |s.accounts| && k != e.sepaExit && k != e.donationExit && !PaidBy(s, run, k)
      ensures after.accounts[k].balance == s.accounts[k].balance
    {
      NothingTaken(s.payouts, s.infos, run, Sepa, k);
      NothingTaken(s.payouts, s.infos, run, DonationExit, k);
    }
  }

  lemma NetOfBoth(s: State, e: Event, run: nat, k: nat)
    requires Inv(s, e) && InCents(s)
    ensures var net := Net(ToTransactions(e, DueNow(s, run)), k);
            && (k in s.infos ==>
                  net == -Taken(s.payouts, s.infos, run, Sepa, k) - Taken(s.payouts, s.infos, run, DonationExit, k))
            && (k == e.sepaExit ==> net == Given(s.payouts, s.infos, run, Sepa))
            && (k == e.donationExit ==> net == Given(s.payouts, s.infos, run, DonationExit))
            && (k !in s.infos && k != e.sepaExit && k != e.donationExit ==> net == 0.0)
  {
    hide Due, Taken, Given, Net, CentsRow, Cents;
    var first, second := Due(s.payouts, s.infos, run, Sepa), Due(s.payouts, s.infos, run, DonationExit);
    NetOfDue(s.payouts, s.infos, run, Sepa, e, k);
    NetOfDue(s.payouts, s.infos, run, DonationExit, e, k);
    assert ToTransactions(e, DueNow(s, run)) == ToTransactions(e, first) + ToTransactions(e, second);
    NetConcat(ToTransactions(e, first), ToTransactions(e, second), k);
  }

  // from creation to done

  /** A step that neither books anything on the customer nor touches the run. */
  predicate LeavesAlone(step: Step, account: nat, run: nat)
  {
    && (step.Other? ==> step.t.source != account && step.t.target != account)
    && (step.DoneRun? || step.RevokeRun? ==> step.run != run)
  }

  /** The customer's row of an open run, with the balance it was created from. */
  ghost predicate Waiting(s: State, row: PayoutRow, balance: real)
  {
    && row in s.payouts && row.run < |s.runs| && !s.runs[row.run].done && !s.runs[row.run].revoked
    && row.account < |s.accounts| && s.accounts[row.account].balance == balance
  }

  lemma WaitingStep(s: State, e: Event, step: Step, row: PayoutRow, balance: real)
    requires Inv(s, e) && InCents(s) && StepInCents(step) && Waiting(s, row, balance) && LeavesAlone(step, row.account, row.run)
    ensures Waiting(Apply(s, e, step), row, balance)
  {
    hide Cents, CentsRow, CentsInfo, InCents, Due, Replay, Candidates, Selected, Total;
    var i :| 0 <= i < |s.payouts| && s.payouts[i] == row;
    match step
    case CreateRun(maxSum, maxNum) =>
    case DoneRun(run) =>
      if Done(s, e, run).Ok? {
        DoneMovesMoney(s, e, run);
        assert !PaidBy(s, run, row.account);
      }
    case RevokeRun(run) =>
      WithoutRunSpec(s.payouts, run);
    case Other(t) =>
    case SetInfo(_, _) =>
    case SetExport(_, _) =>
    case SetTag(_, _) =>
  }

  lemma {:induction false} StaysWaiting(states: seq<State>, e: Event, steps: seq<Step>, i: nat, j: nat, row: PayoutRow, balance: real)
    requires Behavior(states, e, steps) && i <= j <= |steps|
    requires InCents(states[0]) && forall m :: 0 <= m < |steps| ==> StepInCents(steps[m])
    requires Waiting(states[i], row, balance)
    requires forall m :: i <= m < j ==> LeavesAlone(steps[m], row.account, row.run)
    ensures Waiting(states[j], row, balance)
  {
    hide Apply, InCents, Waiting, LeavesAlone;
    if i < j {
      StaysWaiting(states, e, steps, i, j - 1, row, balance);
      InvAlways(states, e, steps, j - 1);
      MoneyIsConserved(states, e, steps, j - 1);
      WaitingStep(states[j - 1], e, steps[j - 1], row, balance);
      assert Apply(states[j - 1], e, steps[j - 1]) == states[j];
    }
  }

  /** A customer who spends nothing between the creation of the run and its completion ends at zero, the
      row's amount gone to the bank and its donation to the donation account, if and only if the
      customer's account still has a tag: the view the bookings read leaves the others out. */
  lemma CustomerEndsAtZero(states: seq<State>, e: Event, steps: seq<Step>, i: nat, j: nat, row: PayoutRow)
    requires Behavior(states, e, steps) && i < j < |steps|
    requires InCents(states[0]) && forall m :: 0 <= m < |steps| ==> StepInCents(steps[m])
    requires steps[i].CreateRun? && row in states[i + 1].payouts && row !in states[i].payouts
    requires forall m :: i < m < j ==> LeavesAlone(steps[m], row.account, row.run)
    requires steps[j] == DoneRun(row.run)
    ensures row.account < |states[j + 1].accounts| && row.account in states[j].infos
    ensures states[j + 1].accounts[row.account].balance == 0.0 <==> states[j].infos[row.account].hasTag
    ensures row.account < |states[i].accounts| && row.amount + row.donation == states[i].accounts[row.account].balance
    ensures row.run < |states[j + 1].runs| && states[j + 1].runs[row.run].done
  {
    hide Apply, InCents, Waiting, LeavesAlone, Due, Replay;
    InvAlways(states, e, steps, i);
    assert Apply(states[i], e, steps[i]) == states[i + 1];
    CreatedRowWaits(states[i], e, steps[i], row);
    StaysWaiting(states, e, steps, i + 1, j, row, row.amount + row.donation);
    InvAlways(states, e, steps, j);
    MoneyIsConserved(states, e, steps, j);
    assert Apply(states[j], e, steps[j]) == states[j + 1];
    DoneSettles(states[j], e, row);
  }

  lemma CreatedRowWaits(s: State, e: Event, step: Step, row: PayoutRow)
    requires Inv(s, e) && step.CreateRun? && row in Apply(s, e, step).payouts && row !in s.payouts
    ensures row.account < |s.accounts| && row.amount + row.donation == s.accounts[row.account].balance > 0.0
    ensures Waiting(Apply(s, e, step), row, row.amount + row.donation)
  {
    hide Candidates, Selected, Amount, Donation;
    var cs := AllCandidates(s);
    SelectionIsFromCandidates(cs, step.maxSum, step.maxNum, |cs|);
    assert cs[..|cs|] == cs;
    var chosen := Selection(cs, step.maxSum, step.maxNum);
    var rows := RowsFor(chosen, |s.runs|);
    assert row in rows;
    var i :| 0 <= i < |rows| && rows[i] == row;
    assert chosen[i] in chosen && chosen[i] in cs;
    AmountAndDonation(chosen[i]);
  }

  lemma DoneSettles(s: State, e: Event, row: PayoutRow)
    requires Inv(s, e) && InCents(s) && Waiting(s, row, row.amount + row.donation)
    requires row.amount + row.donation > 0.0
    ensures var after := Apply(s, e, DoneRun(row.run));
            && row.account in s.infos && row.account < |after.accounts|
            && (after.accounts[row.account].balance == 0.0 <==> s.infos[row.account].hasTag)
            && row.run < |after.runs| && after.runs[row.run].done
  {
    hide Due, Replay, Taken, Given, InCents;
    var i :| 0 <= i < |s.payouts| && s.payouts[i] == row;
    assert Done(s, e, row.run).Ok?;
    DoneMovesMoney(s, e, row.run);
  }

  // after completion

  /** The customer's row belongs to a run that is done. */
  ghost predicate Settled(s: State, row: PayoutRow)
  {
    row in s.payouts && row.run < |s.runs| && s.runs[row.run].done
  }

  ghost predicate SamePaidTo(before: seq<PaidOut>, after: seq<PaidOut>, account: nat)
  {
    forall p :: p in after && p.account == account ==> p in before
  }

  /** What a completed run pays goes to customers of its own rows. */
  lemma DueElsewhere(s: State, e: Event, run: nat, row: PayoutRow)
    requires Inv(s, e) && row in s.payouts && row.run != run
    ensures SamePaidTo(s.paidOut, s.paidOut + DueNow(s, run), row.account)
  {
    hide Due, Part;
    DueIsFromRows(s.payouts, s.infos, run, Sepa);
    DueIsFromRows(s.payouts, s.infos, run, DonationExit);
    var due := DueNow(s, run);
    forall p | p in due ensures p.account != row.account {
      var i :| 0 <= i < |s.payouts| && s.payouts[i].run == run && s.payouts[i].account == p.account
               && Part(s.payouts[i], p.kind) == p.amount;
      var k :| 0 <= k < |s.payouts| && s.payouts[k] == row;
      assert i != k;
    }
  }

  lemma SettledStep(s: State, e: Event, step: Step, row: PayoutRow)
    requires Inv(s, e) && Settled(s, row)
    ensures Settled(Apply(s, e, step), row)
    ensures SamePaidTo(s.paidOut, Apply(s, e, step).paidOut, row.account)
  {
    assert Sane(s, e);
    hide Due, Replay, Candidates, Selected, Inv, Post, WithoutRun, DueNow, RowsFor;
    match step
    case DoneRun(run) =>
      if Done(s, e, run).Ok? {
        DueElsewhere(s, e, run, row);
      }
    case RevokeRun(run) =>
      WithoutRunSpec(s.payouts, run);
    case _ =>
  }

  lemma {:induction false} StaysSettled(states: seq<State>, e: Event, steps: seq<Step>, i: nat, j: nat, row: PayoutRow)
    requires Behavior(states, e, steps) && i <= j <= |steps| && Settled(states[i], row)
    ensures Settled(states[j], row) && SamePaidTo(states[i].paidOut, states[j].paidOut, row.account)
    ensures !Eligible(states[j], row.account)
  {
    hide Apply;
    if i < j {
      StaysSettled(states, e, steps, i, j - 1, row);
      InvAlways(states, e, steps, j - 1);
      SettledStep(states[j - 1], e, steps[j - 1], row);
      assert Apply(states[j - 1], e, steps[j - 1]) == states[j];
    }
    var k :| 0 <= k < |states[j].payouts| && states[j].payouts[k] == row;
    assert HasPayout(states[j].payouts, row.account);
  }

  lemma NothingPaidYet(s: State, e: Event, row: PayoutRow)
    requires Inv(s, e) && row in s.payouts && row.run < |s.runs| && !s.runs[row.run].done
    ensures forall p :: p in s.paidOut ==> p.account != row.account
  {
    forall i | 0 <= i < |s.paidOut| ensures s.paidOut[i].account != row.account {
      var p := PaidOut(row.run, row.account, Sepa, row.amount);
      var k :| 0 <= k < |s.payouts| && s.payouts[k] == row;
      assert Covers(s.payouts, p) by { assert Part(s.payouts[k], p.kind) == p.amount; }
      PaidIsNotDue(s, e, i, p);
    }
  }

  /** Losing the tag before the run is completed is final: the balance stays behind, and whatever happens
      later, the tag coming back included, the customer is never a candidate again and nothing is ever paid
      to the bank or to the donation account. */
  lemma LostTagIsFinal(states: seq<State>, e: Event, steps: seq<Step>, j: nat, k: nat, row: PayoutRow)
    requires Behavior(states, e, steps) && j < k <= |steps|
    requires row in states[j].payouts && steps[j] == DoneRun(row.run)
    requires row.run < |states[j].runs| && !states[j].runs[row.run].done
    requires row.account in states[j].infos && !states[j].infos[row.account].hasTag
    ensures forall c :: c in AllCandidates(states[k]) ==> c.account != row.account
    ensures forall p :: p in states[k].paidOut ==> p.account != row.account
  {
    hide Apply, Candidates;
    InvAlways(states, e, steps, j);
    assert Apply(states[j], e, steps[j]) == states[j + 1];
    NothingPaidYet(states[j], e, row);
    DoneWithoutTag(states[j], e, row);
    StaysSettled(states, e, steps, j + 1, k, row);
  }

  lemma DoneWithoutTag(s: State, e: Event, row: PayoutRow)
    requires Inv(s, e) && row in s.payouts && row.run < |s.runs| && !s.runs[row.run].done
    requires row.account in s.infos && !s.infos[row.account].hasTag
    ensures var after := Apply(s, e, DoneRun(row.run));
            Settled(after, row) && SamePaidTo(s.paidOut, after.paidOut, row.account)
  {
    hide Replay;
    var i :| 0 <= i < |s.payouts| && s.payouts[i] == row;
    assert Done(s, e, row.run).Ok?;
    NotDue(s.payouts, s.infos, row.run, Sepa, row.account);
    NotDue(s.payouts, s.infos, row.run, DonationExit, row.account);
  }

  lemma {:induction false} NotDue(rows: seq<PayoutRow>, infos: map<nat, Info>, run: nat, kind: Kind, account: nat)
    requires account in infos && !infos[account].hasTag
    ensures forall p :: p in Due(rows, infos, run, kind) ==> p.account != account
  {
    if rows != [] {
      NotDue(rows[..|rows| - 1], infos, run, kind, account);
    }
  }

  const EXAMPLE := Event(1, 2, true, 10)

  /** One customer with five euros, and the two exit accounts. */
  function FiveEuros(hasTag: bool, payouts: seq<PayoutRow>, runs: seq<RunRow>): State
  {
    State([Account(5.0, 0), Account(0.0, 0), Account(0.0, 0)], map[0 := Info(Some(0.0), false, true, true, hasTag)],
          payouts, runs, [])
  }

  /** A run in which a scheduled customer's account is disabled: five euros stay behind in a run that is done. */
  lemma TagIsLost()
    ensures var e, row := EXAMPLE, PayoutRow(0, 0, 5.0, 0.0);
            var s0, s1 := FiveEuros(true, [], []), FiveEuros(true, [row], [RunRow(false, false)]);
            var s2, s3 := FiveEuros(false, [row], [RunRow(false, false)]), FiveEuros(false, [row], [RunRow(true, false)]);
            && Sane(s0, e) && Sane(s1, e) && Sane(s2, e)
            && s1 == Apply(s0, e, CreateRun(5.0, 1))
            && s2 == Apply(s1, e, SetTag(0, false))
            && s3 == Apply(s2, e, DoneRun(0))
  {
    var e, row := EXAMPLE, PayoutRow(0, 0, 5.0, 0.0);
    FiveEurosScheduled();
    var s1, s2 := FiveEuros(true, [row], [RunRow(false, false)]), FiveEuros(false, [row], [RunRow(false, false)]);
    assert Apply(s1, e, SetTag(0, false)).infos == s2.infos;
    FiveEurosStay();
  }

  lemma FiveEurosScheduled()
    ensures Sane(FiveEuros(true, [], []), EXAMPLE)
    ensures Apply(FiveEuros(true, [], []), EXAMPLE, CreateRun(5.0, 1))
            == FiveEuros(true, [PayoutRow(0, 0, 5.0, 0.0)], [RunRow(false, false)])
  {
    hide AllCandidates, Selection, SomeoneFits, Amount, Donation;
    var s := FiveEuros(true, [], []);
    OneCandidate(s);
    var c := Candidate(0, 5.0, Some(0.0), false);
    OneSelected(c);
    assert RowsFor([c], 0) == [PayoutRow(0, 0, 5.0, 0.0)];
  }

  lemma FiveEurosStay()
    ensures var s := FiveEuros(false, [PayoutRow(0, 0, 5.0, 0.0)], [RunRow(false, false)]);
            && Sane(s, EXAMPLE)
            && Apply(s, EXAMPLE, DoneRun(0)) == FiveEuros(false, [PayoutRow(0, 0, 5.0, 0.0)], [RunRow(true, false)])
  {
    hide Post;
    var s := FiveEuros(false, [PayoutRow(0, 0, 5.0, 0.0)], [RunRow(false, false)]);
    assert s.payouts[..0] == [];
    assert DueNow(s, 0) == [];
    assert ToTransactions(EXAMPLE, DueNow(s, 0)) == [];
  }

  lemma OneCandidate(s: State)
    requires s.accounts == [Account(5.0, 0), Account(0.0, 0), Account(0.0, 0)] && s.payouts == []
    requires s.infos == map[0 := Info(Some(0.0), false, true, true, true)]
    ensures AllCandidates(s) == [Candidate(0, 5.0, Some(0.0), false)]
  {
    assert Candidates(s, 0) == [];
    OneMoreCandidate(s, 0);
    OneMoreCandidate(s, 1);
    OneMoreCandidate(s, 2);
    hide Candidates;
  }

  lemma OneMoreCandidate(s: State, k: nat)
    requires k < |s.accounts|
    ensures Candidates(s, k + 1)
            == Candidates(s, k)
               + (if Eligible(s, k)
                  then [Candidate(k, s.accounts[k].balance, s.infos[k].donation, s.infos[k].donateAll)] else [])
  {
  }

  lemma OneSelected(c: Candidate)
    requires c == Candidate(0, 5.0, Some(0.0), false)
    ensures SomeoneFits([c], 5.0) && Selection([c], 5.0, 1) == [c]
    ensures Amount(c) == 5.0 && Donation(c) == 0.0
  {
    assert Running([c], 0) == None;
    assert RunningAt([c], 0) == Some(5.0);
    assert Selected([c], 5.0, 1, 0) == [];
  }

  // ---- who is paid -------------------------------------------------------------------

  lemma {:induction false} CandidatesAmong(s: State, n: nat, k: nat)
    requires n <= |s.accounts| && k < n && Eligible(s, k)
    ensures Candidate(k, s.accounts[k].balance, s.infos[k].donation, s.infos[k].donateAll) in Candidates(s, n)
  {
    if k < n - 1 {
      CandidatesAmong(s, n - 1, k);
    }
  }

  /** The candidates are exactly the customers who entered their data, whose payout was not prevented, whose
      balance is at least half a cent and who have no payout yet: each once, by account number, with balance,
      donation and wish to donate everything as they are. */
  lemma WhoIsACandidate(s: State, k: nat)
    ensures var wanted := k < |s.accounts| && k in s.infos && s.infos[k].hasEnteredInfo && s.infos[k].payoutExport
                          && s.accounts[k].balance >= 0.005
                          && forall i :: 0 <= i < |s.payouts| ==> s.payouts[i].account != k;
            && (wanted <==> exists i :: 0 <= i < |AllCandidates(s)| && AllCandidates(s)[i].account == k)
            && (wanted ==> Candidate(k, s.accounts[k].balance, s.infos[k].donation, s.infos[k].donateAll) in AllCandidates(s))
    ensures forall i, j :: 0 <= i < j < |AllCandidates(s)| ==> AllCandidates(s)[i].account < AllCandidates(s)[j].account
  {
    hide Candidates;
    if k < |s.accounts| && Eligible(s, k) {
      CandidatesAmong(s, |s.accounts|, k);
      var c := Candidate(k, s.accounts[k].balance, s.infos[k].donation, s.infos[k].donateAll);
      var i :| 0 <= i < |AllCandidates(s)| && AllCandidates(s)[i] == c;
    }
  }

  /** A row of a customer who entered the data, wants a payout, has at least half a cent and had no row: the
      entered donation, as far as the balance goes, or everything, and the rest of the balance to the bank. */
  predicate IsWanted(s: State, row: PayoutRow)
  {
    && row.account < |s.accounts| && row.account in s.infos
    && (forall j :: 0 <= j < |s.payouts| ==> s.payouts[j].account != row.account)
    && var info, balance := s.infos[row.account], s.accounts[row.account].balance;
    && info.hasEnteredInfo && info.payoutExport && balance >= 0.005
    && row.amount + row.donation == balance
    && (info.donateAll || info.donation.None? ==> row.donation == balance)
    && (!info.donateAll && info.donation.Some? ==>
          row.donation == if info.donation.value < balance then info.donation.value else balance)
  }

  /** A new run leaves the rows there are, and adds at most one row a customer, of customers who want it. */
  lemma NewRowsAreWanted(s: State, e: Event, maxSum: real, maxNum: int)
    requires Create(s, e, maxSum, maxNum).Ok?
    ensures var after, before := Create(s, e, maxSum, maxNum).value.payouts, s.payouts;
            && |before| <= |after| && after[..|before|] == before
            && (forall i :: |before| <= i < |after| ==> after[i].run == |s.runs| && IsWanted(s, after[i]))
            && forall i, j :: |before| <= i < j < |after| ==> after[i].account < after[j].account
  {
    hide Candidates, Selected, Amount, Donation, SomeoneFits, IsWanted;
    var cs := AllCandidates(s);
    SelectionIsFromCandidates(cs, maxSum, maxNum, |cs|);
    assert cs[..|cs|] == cs;
    var chosen := Selection(cs, maxSum, maxNum);
    var rows := RowsFor(chosen, |s.runs|);
    forall i | 0 <= i < |rows| ensures IsWanted(s, rows[i]) {
      assert chosen[i] in chosen;
      CandidateIsWanted(s, chosen[i]);
    }
  }

  lemma CandidateIsWanted(s: State, c: Candidate)
    requires c in AllCandidates(s)
    ensures IsWanted(s, PayoutRow(c.account, |s.runs|, Amount(c), Donation(c)))
  {
    hide Candidates, Amount, Donation;
    assert Eligible(s, c.account);
    AmountAndDonation(c);
    DonationIsAsEntered(c);
  }

  predicate IsOwnDonation(c: Candidate)
  {
    && (c.donateAll || c.donation.None? ==> Donation(c) == c.balance)
    && (!c.donateAll && c.donation.Some? ==>
          Donation(c) == if c.donation.value < c.balance then c.donation.value else c.balance)
  }

  lemma DonationIsAsEntered(c: Candidate)
    ensures IsOwnDonation(c)
  {
  }

  /** No row of the customer is new. */
  ghost predicate NothingNewFor(k: nat, before: seq<PayoutRow>, after: seq<PayoutRow>)
  {
    forall row :: row in after && row.account == k ==> row in before
  }

  /** Nothing but an explicit permission ends a prevention, and while it lasts no step adds a row. */
  lemma PreventedStep(s: State, e: Event, step: Step, k: nat)
    requires Sane(s, e) && k in s.infos && !s.infos[k].payoutExport && step != SetExport(k, true)
    ensures var after := Apply(s, e, step);
            k in after.infos && !after.infos[k].payoutExport && NothingNewFor(k, s.payouts, after.payouts)
  {
    hide Candidates, Selected, Post, Due, Replay, Amount, Donation, SomeoneFits, WithoutRun;
    match step
    case CreateRun(maxSum, maxNum) =>
      if Create(s, e, maxSum, maxNum).Ok? {
        NewRowsAreWanted(s, e, maxSum, maxNum);
        var rows := Create(s, e, maxSum, maxNum).value.payouts;
        forall row | row in rows && row.account == k ensures row in s.payouts {
          var i :| 0 <= i < |rows| && rows[i] == row;
          assert i >= |s.payouts| ==> IsWanted(s, rows[i]);
          assert rows[..|s.payouts|][i] == row;
        }
      }
    case DoneRun(run) =>
    case RevokeRun(run) =>
      WithoutRunSpec(s.payouts, run);
    case Other(_) =>
    case SetInfo(_, _) =>
    case SetExport(_, _) =>
    case SetTag(_, _) =>
  }

  /** Preventing or allowing a payout is refused, without effect, exactly while the customer has a tag and a payout. */
  lemma ExportIsSet(s: State, e: Event, k: nat, wanted: bool)
    requires Sane(s, e) && k in s.infos
    ensures var after := Apply(s, e, SetExport(k, wanted));
            if s.infos[k].hasTag && HasPayout(s.payouts, k) then after == s
            else k in after.infos && after.infos[k].payoutExport == wanted && after.payouts == s.payouts
  {
  }

  /** From a prevention that was not refused until the payout is allowed again, the customer gets no new row. */
  lemma PreventedIsNotPaid(states: seq<State>, e: Event, steps: seq<Step>, i: nat, j: nat, k: nat)
    requires Behavior(states, e, steps) && i < j <= |steps|
    requires steps[i] == SetExport(k, false) && k in states[i].infos
    requires !(states[i].infos[k].hasTag && exists r :: 0 <= r < |states[i].payouts| && states[i].payouts[r].account == k)
    requires forall m :: i < m < j ==> steps[m] != SetExport(k, true)
    ensures k in states[j].infos && !states[j].infos[k].payoutExport
    ensures forall row :: row in states[j].payouts && row.account == k ==> row in states[i].payouts
    ensures forall c :: c in AllCandidates(states[j]) ==> c.account != k
  {
    hide Apply, Candidates;
    assert Apply(states[i], e, steps[i]) == states[i + 1];
    ExportIsSet(states[i], e, k, false);
    StaysPrevented(states, e, steps, i + 1, j, k);
  }

  lemma {:induction false} StaysPrevented(states: seq<State>, e: Event, steps: seq<Step>, i: nat, j: nat, k: nat)
    requires Behavior(states, e, steps) && i <= j <= |steps|
    requires k in states[i].infos && !states[i].infos[k].payoutExport
    requires forall m :: i <= m < j ==> steps[m] != SetExport(k, true)
    ensures k in states[j].infos && !states[j].infos[k].payoutExport
    ensures NothingNewFor(k, states[i].payouts, states[j].payouts)
  {
    hide Apply;
    if i < j {
      StaysPrevented(states, e, steps, i, j - 1, k);
      assert Apply(states[j - 1], e, steps[j - 1]) == states[j];
      PreventedStep(states[j - 1], e, steps[j - 1], k);
    }
  }

  /** A customer with a payout cannot change what was entered for it. */
  lemma {:induction false} EnteredDataStays(states: seq<State>, e: Event, steps: seq<Step>, i: nat, j: nat, k: nat)
    requires Behavior(states, e, steps) && i <= j <= |steps| && k in states[i].infos
    requires forall m :: i <= m < j ==> HasPayout(states[m].payouts, k)
    ensures k in states[j].infos
    ensures var before, after := states[i].infos[k], states[j].infos[k];
            && after.donation == before.donation && after.donateAll == before.donateAll
            && after.hasEnteredInfo == before.hasEnteredInfo
  {
    hide Apply;
    if i < j {
      EnteredDataStays(states, e, steps, i, j - 1, k);
      assert Apply(states[j - 1], e, steps[j - 1]) == states[j];
      DataStaysInStep(states[j - 1], e, steps[j - 1], k);
    }
  }

  lemma DataStaysInStep(s: State, e: Event, step: Step, k: nat)
    requires Sane(s, e) && k in s.infos && HasPayout(s.payouts, k)
    ensures k in Apply(s, e, step).infos
    ensures var before, after := s.infos[k], Apply(s, e, step).infos[k];
            && after.donation == before.donation && after.donateAll == before.donateAll
            && after.hasEnteredInfo == before.hasEnteredInfo
  {
    hide Candidates, Selected, Post, Due, Replay, Amount, Donation, SomeoneFits, WithoutRun;
  }

  // ---- every balance and every revocation --------------------------------------------

  /** The other bookings among some steps, between two different accounts that exist. */
  function Others(steps: seq<Step>, accounts: nat): seq<Transaction>
  {
    if steps == [] then []
    else
      var before, last := Others(steps[..|steps| - 1], accounts), steps[|steps| - 1];
      if last.Other? && last.t.source != last.t.target && last.t.source < accounts && last.t.target < accounts
      then before + [last.t] else before
  }

  lemma {:induction false} NetMore(ts: seq<Transaction>, t: Transaction, k: nat)
    ensures Net(ts + [t], k)
            == Net(ts, k) + (if t.target == k then t.amount else 0.0) - (if t.source == k then t.amount else 0.0)
  {
    assert (ts + [t])[..|ts|] == ts;
  }

  /** Over any sequence of operations in whole cents, every balance is what it was, and what the other bookings
      and the payouts that were booked brought and took. */
  lemma {:induction false} EveryBalanceIsBooked(states: seq<State>, e: Event, steps: seq<Step>, i: nat, k: nat)
    requires Behavior(states, e, steps) && i <= |steps| && k < |states[0].accounts|
    requires InCents(states[0]) && forall j :: 0 <= j < |steps| ==> StepInCents(steps[j])
    ensures |states[i].accounts| == |states[0].accounts|
    ensures states[i].accounts[k].balance
            == states[0].accounts[k].balance + Net(Others(steps[..i], |states[0].accounts|), k)
               + Net(ToTransactions(e, states[i].paidOut), k)
  {
    hide Apply, InCents, Net, Others;
    if i == 0 {
      NoNet(e, k);
    } else {
      EveryBalanceIsBooked(states, e, steps, i - 1, k);
      MoneyIsConserved(states, e, steps, i - 1);
      assert Apply(states[i - 1], e, steps[i - 1]) == states[i];
      BalanceStep(states[i - 1], e, steps[i - 1], k);
      assert steps[..i][..i - 1] == steps[..i - 1] && steps[..i][i - 1] == steps[i - 1];
      OthersStep(steps[..i], |states[0].accounts|, k);
    }
  }

  lemma NoNet(e: Event, k: nat)
    ensures forall n :: Net(Others([], n), k) == 0.0
    ensures Net(ToTransactions(e, []), k) == 0.0
  {
  }

  /** What a step brings to an account besides payouts. */
  function Brought(step: Step, accounts: nat, k: nat): real
  {
    if step.Other? && step.t.source != step.t.target && step.t.source < accounts && step.t.target < accounts
    then (if step.t.target == k then step.t.amount else 0.0) - (if step.t.source == k then step.t.amount else 0.0)
    else 0.0
  }

  lemma OthersStep(steps: seq<Step>, accounts: nat, k: nat)
    requires steps != []
    ensures Net(Others(steps, accounts), k)
            == Net(Others(steps[..|steps| - 1], accounts), k) + Brought(steps[|steps| - 1], accounts, k)
  {
    var before, last := Others(steps[..|steps| - 1], accounts), steps[|steps| - 1];
    if last.Other? {
      NetMore(before, last.t, k);
    }
  }

  lemma BalanceStep(s: State, e: Event, step: Step, k: nat)
    requires Sane(s, e) && InCents(s) && StepInCents(step) && k < |s.accounts|
    ensures var after := Apply(s, e, step);
            && |after.accounts| == |s.accounts|
            && after.accounts[k].balance - Net(ToTransactions(e, after.paidOut), k)
               == s.accounts[k].balance - Net(ToTransactions(e, s.paidOut), k) + Brought(step, |s.accounts|, k)
  {
    hide Post, Due, Replay, Net, Cents, CentsRow, CentsInfo, Candidates, Selected, SomeoneFits, WithoutRun;
    match step
    case DoneRun(run) =>
      if Done(s, e, run).Ok? {
        DoneInCents(s, e, run);
        var due := DueNow(s, run);
        NetConcat(ToTransactions(e, s.paidOut), ToTransactions(e, due), k);
        assert ToTransactions(e, s.paidOut + due) == ToTransactions(e, s.paidOut) + ToTransactions(e, due);
      }
    case Other(t) =>
      if Known(s.accounts, t) {
        PostCents(s.accounts, t);
        PostConserves(s.accounts, t);
      }
    case _ =>
  }

  /** A run can be revoked until it is done; from then on it stays revoked, is never done and has no rows, and
      right after it none of its customers is in any payout. */
  lemma RevokedIsFinal(states: seq<State>, e: Event, steps: seq<Step>, i: nat, j: nat, run: nat)
    requires Behavior(states, e, steps) && i < j <= |steps| && steps[i] == RevokeRun(run)
    requires run < |states[i].runs| && !states[i].runs[run].done && !states[i].runs[run].revoked
    ensures run < |states[j].runs| && states[j].runs[run].revoked && !states[j].runs[run].done
    ensures forall row :: row in states[j].payouts ==> row.run != run
    ensures forall row :: row in states[i].payouts ==>
              if row.run == run then !HasPayout(states[i + 1].payouts, row.account) else row in states[i + 1].payouts
  {
    hide Apply, Inv;
    InvAlways(states, e, steps, i);
    assert Apply(states[i], e, steps[i]) == states[i + 1];
    RevokeFrees(states[i], e, run);
    StaysRevoked(states, e, steps, i + 1, j, run);
    InvAlways(states, e, steps, j);
    NoRowsOfRevoked(states[j], e, run);
  }

  lemma NoRowsOfRevoked(s: State, e: Event, run: nat)
    requires Inv(s, e) && run < |s.runs| && s.runs[run].revoked
    ensures forall row :: row in s.payouts ==> row.run != run
    ensures !s.runs[run].done
  {
    hide OneRowPerCustomer, OncePerExit, Covers;
  }

  lemma RevokeFrees(s: State, e: Event, run: nat)
    requires Inv(s, e) && run < |s.runs| && !s.runs[run].done && !s.runs[run].revoked
    ensures var after := Apply(s, e, RevokeRun(run));
            && run < |after.runs| && after.runs[run].revoked
            && forall row :: row in s.payouts ==>
                 if row.run == run then !HasPayout(after.payouts, row.account) else row in after.payouts
  {
    hide WithoutRun, OncePerExit, Covers;
    WithoutRunSpec(s.payouts, run);
    var after := Apply(s, e, RevokeRun(run)).payouts;
    forall row | row in s.payouts && row.run == run ensures !HasPayout(after, row.account) {
      forall i | 0 <= i < |after| ensures after[i].account != row.account {
        assert after[i] in after && after[i] in s.payouts;
      }
    }
  }

  lemma {:induction false} StaysRevoked(states: seq<State>, e: Event, steps: seq<Step>, i: nat, j: nat, run: nat)
    requires Behavior(states, e, steps) && i <= j <= |steps|
    requires run < |states[i].runs| && states[i].runs[run].revoked
    ensures run < |states[j].runs| && states[j].runs[run].revoked
  {
    hide Apply;
    if i < j {
      StaysRevoked(states, e, steps, i, j - 1, run);
      assert Apply(states[j - 1], e, steps[j - 1]) == states[j];
      RevokedStep(states[j - 1], e, steps[j - 1], run);
    }
  }

  lemma RevokedStep(s: State, e: Event, step: Step, run: nat)
    requires Sane(s, e) && run < |s.runs| && s.runs[run].revoked
    ensures run < |Apply(s, e, step).runs| && Apply(s, e, step).runs[run].revoked
  {
    hide Candidates, Selected, Post, Due, Replay, Amount, Donation, SomeoneFits, WithoutRun;
  }
}
