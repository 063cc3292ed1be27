/** Assigning a TSE to tills that have orders but no TSE: always the one with the fewest tills. */
module TillAssignment {

  import opened Wrappers
  import opened SignatureTable

  /** The tills assigned to a TSE. */
  function Load(tills: Tills, tse: TseId): nat { |set t | t in tills && tills[t] == Some(tse)| }

  /** The first of the least loaded ones: sorted() keeps the order of equal counts. */
  function LeastLoaded(tills: Tills, active: seq<TseId>): (tse: TseId)
    requires active != []
    ensures tse in active
  {
    if |active| == 1 then active[0]
    else
      var rest := LeastLoaded(tills, active[1..]);
      if Load(tills, active[0]) <= Load(tills, rest) then active[0] else rest
  }

  lemma {:induction false} LeastLoadedIsLeast(tills: Tills, active: seq<TseId>)
    requires active != []
    ensures forall i :: 0 <= i < |active| ==> Load(tills, LeastLoaded(tills, active)) <= Load(tills, active[i])
  {
    if |active| > 1 {
      LeastLoadedIsLeast(tills, active[1..]);
      forall i | 0 <= i < |active| ensures Load(tills, LeastLoaded(tills, active)) <= Load(tills, active[i]) {
        assert i > 0 ==> active[1..][i - 1] == active[i];
      }
    }
  }

  /** A till whose node sees no active TSE is skipped. */
  function Assign(tills: Tills, till: TillId, active: seq<TseId>): Tills
  {
    if active == [] then tills else tills[till := Some(LeastLoaded(tills, active))]
  }

  datatype Feral = Feral(till: TillId, active: seq<TseId>)

  function AssignAll(tills: Tills, feral: seq<Feral>): Tills
  {
    if feral == [] then tills
    else Assign(AssignAll(tills, feral[..|feral| - 1]), feral[|feral| - 1].till, feral[|feral| - 1].active)
  }

  /** Tills without a TSE, each once. */
  predicate Waiting(tills: Tills, feral: seq<Feral>)
  {
    && (forall i :: 0 <= i < |feral| ==> feral[i].till in tills && tills[feral[i].till] == None)
    && forall i, j :: 0 <= i < j < |feral| ==> feral[i].till != feral[j].till
  }

  lemma LoadAfterAssign(tills: Tills, till: TillId, tse: TseId, other: TseId)
    requires till in tills && tills[till] == None
    ensures Load(tills[till := Some(tse)], other) == Load(tills, other) + if other == tse then 1 else 0
  {
    var tills' := tills[till := Some(tse)];
    var before := set t | t in tills && tills[t] == Some(other);
    var after := set t | t in tills' && tills'[t] == Some(other);
    if other == tse {
      assert after == before + {till};
    } else {
      assert after == before;
    }
  }

  /** No active TSE has more than `spread` tills more than another. */
  predicate Spread(tills: Tills, active: seq<TseId>, spread: int)
  {
    forall i, j :: 0 <= i < |active| && 0 <= j < |active| ==> Load(tills, active[i]) - Load(tills, active[j]) <= spread
  }

  lemma AssignKeepsSpread(tills: Tills, till: TillId, active: seq<TseId>, spread: int)
    requires till in tills && tills[till] == None && Spread(tills, active, spread) && spread >= 1
    ensures Spread(Assign(tills, till, active), active, spread)
  {
    hide Load;
    if active != [] {
      var tse := LeastLoaded(tills, active);
      LeastLoadedIsLeast(tills, active);
      forall i | 0 <= i < |active|
        ensures Load(Assign(tills, till, active), active[i]) == Load(tills, active[i]) + if active[i] == tse then 1 else 0
      {
        LoadAfterAssign(tills, till, tse, active[i]);
      }
    }
  }

  /** Which tills changed, and to what. */
  lemma {:induction false} AssignAllSpec(tills: Tills, feral: seq<Feral>)
    requires Waiting(tills, feral)
    ensures forall t :: t in AssignAll(tills, feral) <==> t in tills
    ensures forall i :: 0 <= i < |feral| ==>
              feral[i].till in AssignAll(tills, feral)
              && match AssignAll(tills, feral)[feral[i].till]
              case Some(tse) => tse in feral[i].active
              case None => feral[i].active == []
    ensures forall t :: t in tills && (forall i :: 0 <= i < |feral| ==> feral[i].till != t) ==> AssignAll(tills, feral)[t] == tills[t]
  {
    if feral != [] {
      var front, last := feral[..|feral| - 1], feral[|feral| - 1];
      assert Waiting(tills, front);
      AssignAllSpec(tills, front);
      var before, after := AssignAll(tills, front), AssignAll(tills, feral);
      assert forall i :: 0 <= i < |front| ==> front[i] == feral[i] && front[i].till != last.till;
      assert before[last.till] == None;
    }
  }

  /** Assigning any number of waiting tills that see the same active TSEs keeps the difference in tills
      between any two of them at what it was, or at one; and every till gets one of them. */
  lemma {:induction false} LoadStaysBalanced(tills: Tills, feral: seq<Feral>, active: seq<TseId>, spread: int)
    requires Waiting(tills, feral) && spread >= 1 && Spread(tills, active, spread)
    requires forall i :: 0 <= i < |feral| ==> feral[i].active == active
    ensures Spread(AssignAll(tills, feral), active, spread)
    ensures active != [] ==>
              forall i :: 0 <= i < |feral| ==>
                feral[i].till in AssignAll(tills, feral) && AssignAll(tills, feral)[feral[i].till].Some?
  {
    hide Spread, Assign;
    AssignAllSpec(tills, feral);
    if feral != [] {
      var front, last := feral[..|feral| - 1], feral[|feral| - 1];
      assert Waiting(tills, front);
      LoadStaysBalanced(tills, front, active, spread);
      AssignAllSpec(tills, front);
      assert forall i :: 0 <= i < |front| ==> front[i] == feral[i] && front[i].till != last.till;
      AssignKeepsSpread(AssignAll(tills, front), last.till, active, spread);
    }
  }

  class SignatureProcessor {
    var tills: Tills

    constructor (tills: Tills)
      ensures this.tills == tills
    {
      this.tills := tills;
    }

    /** _handle_feral_tses. The branch that would fail every waiting signature for want of a TSE is never taken. */
    method HandleFeralTses(feral: seq<Feral>) returns (gaveUp: bool)
      modifies this
      ensures tills == AssignAll(old(tills), feral)
      ensures !gaveUp
    {
      gaveUp := false;
      for i := 0 to |feral|
        invariant tills == AssignAll(old(tills), feral[..i]) && !gaveUp
      {
        assert feral[..i + 1][..i] == feral[..i];
        var active := feral[i].active;
        if |active| == 0 {
          continue;
        }
        var ranked := Rank(active);
        if |ranked| == 0 {
          gaveUp := true;
        } else {
          tills := tills[feral[i].till := Some(ranked[0])];
        }
      }
      assert feral[..|feral|] == feral;
    }

    /** Counts the tills of each active TSE and sorts by the count. */
    method Rank(active: seq<TseId>) returns (ranked: seq<TseId>)
      ensures |ranked| == |active|
      ensures active != [] ==> ranked[0] == LeastLoaded(tills, active)
    {
      ranked := [];
      var i := |active|;
      while i > 0
        invariant 0 <= i <= |active| && |ranked| == |active| - i
        invariant i < |active| ==> ranked[0] == LeastLoaded(tills, active[i..])
        invariant forall j, k :: 0 <= j < k < |ranked| ==> Load(tills, ranked[j]) <= Load(tills, ranked[k])
      {
        i := i - 1;
        ghost var later := active[i + 1..];
        assert active[i..][1..] == later && active[i..][0] == active[i];
        ranked := InsertByLoad(active[i], ranked);
      }
      assert active[0..] == active;
    }

    /** Puts a TSE before the first one that has at least as many tills. */
    method InsertByLoad(tse: TseId, ranked: seq<TseId>) returns (all: seq<TseId>)
      requires forall j, k :: 0 <= j < k < |ranked| ==> Load(tills, ranked[j]) <= Load(tills, ranked[k])
      ensures |all| == |ranked| + 1
      ensures forall j, k :: 0 <= j < k < |all| ==> Load(tills, all[j]) <= Load(tills, all[k])
      ensures all[0] == if ranked == [] || Load(tills, tse) <= Load(tills, ranked[0]) then tse else ranked[0]
    {
      var i := 0;
      while i < |ranked| && Load(tills, ranked[i]) < Load(tills, tse)
        invariant 0 <= i <= |ranked|
        invariant forall j :: 0 <= j < i ==> Load(tills, ranked[j]) < Load(tills, tse)
      {
        i := i + 1;
      }
      all := ranked[..i] + [tse] + ranked[i..];
    }
  }
}
