/** Spending vouchers on offers, most valuable first, and why no other way of spending them is worth more. */
module Greedy {

  import opened Wrappers

  /** What a line item offers: `capacity` vouchers can be spent on it, each worth `rate`. No rate, no offer. */
  datatype Offer = Offer(rate: Option<real>, capacity: int)

  function Min(a: int, b: int): int { if a < b then a else b }

  function Max(a: int, b: int): int { if a < b then b else a }

  predicate Sound(offers: seq<Offer>)
  {
    forall i :: 0 <= i < |offers| && offers[i].rate.Some? ==> offers[i].rate.value >= 0.0 && offers[i].capacity >= 0
  }

  /** No offer is worth less than a later one; those without a rate may stand anywhere. */
  predicate Descending(offers: seq<Offer>)
  {
    forall i, j :: 0 <= i < j < |offers| && offers[i].rate.Some? && offers[j].rate.Some? ==>
      offers[i].rate.value >= offers[j].rate.value
  }

  function Zeros(n: nat): (s: seq<int>)
    ensures |s| == n
  {
    seq(n, i => 0)
  }

  /** The vouchers spent on each offer, visited in this order. */
  function Spend(offers: seq<Offer>, budget: int): (taken: seq<int>)
    ensures |taken| == |offers|
  {
    if offers == [] then []
    else if budget <= 0 then Zeros(|offers|)
    else if offers[0].rate.None? then [0] + Spend(offers[1..], budget)
    else
      var take := Min(budget, offers[0].capacity);
      [take] + Spend(offers[1..], budget - take)
  }

  function Count(taken: seq<int>): int
  {
    if taken == [] then 0 else taken[0] + Count(taken[1..])
  }

  function Times(rate: real, n: int): real { rate * n as real }

  function Worth(offer: Offer, take: int): real
  {
    if offer.rate.None? then 0.0 else Times(offer.rate.value, take)
  }

  function Gain(offers: seq<Offer>, taken: seq<int>): real
    requires |taken| == |offers|
  {
    if offers == [] then 0.0 else Worth(offers[0], taken[0]) + Gain(offers[1..], taken[1..])
  }

  function Room(offer: Offer): int { if offer.rate.None? then 0 else offer.capacity }

  function TotalRoom(offers: seq<Offer>): int
  {
    if offers == [] then 0 else Room(offers[0]) + TotalRoom(offers[1..])
  }

  /** An admissible way of spending at most `budget` vouchers. */
  predicate Feasible(offers: seq<Offer>, taken: seq<int>, budget: int)
  {
    && |taken| == |offers|
    && (forall i :: 0 <= i < |taken| ==> 0 <= taken[i] <= Room(offers[i]))
    && Count(taken) <= budget
  }

  // ---- the greedy way is feasible and spends all it can ------------------------------

  lemma {:induction false} ZerosSpendNothing(offers: seq<Offer>)
    ensures Count(Zeros(|offers|)) == 0 && Gain(offers, Zeros(|offers|)) == 0.0
  {
    if offers != [] {
      ZerosSpendNothing(offers[1..]);
      assert Zeros(|offers|)[1..] == Zeros(|offers[1..]|);
    }
  }

  lemma {:induction false} RoomIsNatural(offers: seq<Offer>)
    requires Sound(offers)
    ensures TotalRoom(offers) >= 0
  {
    if offers != [] {
      RoomIsNatural(offers[1..]);
    }
  }

  lemma {:induction false} SpendIsFeasible(offers: seq<Offer>, budget: int)
    requires Sound(offers)
    ensures Count(Spend(offers, budget)) == Min(Max(budget, 0), TotalRoom(offers))
    ensures Feasible(offers, Spend(offers, budget), Max(budget, 0))
  {
    hide Worth, Gain, GreedyGain;
    RoomIsNatural(offers);
    if offers == [] {
    } else if budget <= 0 {
      ZerosSpendNothing(offers);
    } else {
      var take := if offers[0].rate.None? then 0 else Min(budget, offers[0].capacity);
      RoomIsNatural(offers[1..]);
      SpendIsFeasible(offers[1..], budget - take);
      var taken := Spend(offers, budget);
      assert taken == [take] + Spend(offers[1..], budget - take);
      assert taken[1..] == Spend(offers[1..], budget - take);
      forall i | 0 <= i < |taken| ensures 0 <= taken[i] <= Room(offers[i]) {
        if i > 0 {
          assert taken[i] == taken[1..][i - 1] && offers[i] == offers[1..][i - 1];
        }
      }
    }
  }

  // ---- the greedy way is best --------------------------------------------------------

  function GreedyGain(offers: seq<Offer>, budget: int): real { Gain(offers, Spend(offers, budget)) }

  lemma GreedyGainStep(offers: seq<Offer>, budget: int)
    requires offers != [] && budget >= 0 && Sound(offers)
    ensures var take := if offers[0].rate.None? then 0 else Min(budget, offers[0].capacity);
            GreedyGain(offers, budget) == Worth(offers[0], take) + GreedyGain(offers[1..], budget - take)
  {
    var take := if offers[0].rate.None? then 0 else Min(budget, offers[0].capacity);
    if budget == 0 {
      ZerosSpendNothing(offers);
      ZerosSpendNothing(offers[1..]);
      assert Spend(offers[1..], 0) == Zeros(|offers[1..]|);
    } else {
      assert Spend(offers, budget)[1..] == Spend(offers[1..], budget - take);
    }
  }

  predicate AtMost(offers: seq<Offer>, rate: real)
  {
    forall i :: 0 <= i < |offers| && offers[i].rate.Some? ==> offers[i].rate.value <= rate
  }

  lemma MulMonotone(a: real, b: real, n: int)
    requires a <= b && n >= 0
    ensures Times(a, n) <= Times(b, n)
  {
  }

  lemma MulSum(rate: real, a: int, b: int)
    ensures Times(rate, a + b) == Times(rate, a) + Times(rate, b)
  {
    assert (a + b) as real == a as real + b as real;
  }

  lemma NoRate(n: int)
    ensures Times(0.0, n) == 0.0
  {
  }

  lemma NothingOffered(budget: int)
    ensures GreedyGain([], budget) == 0.0
  {
  }

  /** `more` further vouchers are worth at most `more` times the best rate. */
  lemma {:induction false} MoreBudget(offers: seq<Offer>, budget: int, more: int, rate: real)
    requires Sound(offers) && AtMost(offers, rate) && rate >= 0.0 && budget >= 0 && more >= 0
    ensures GreedyGain(offers, budget + more) <= GreedyGain(offers, budget) + Times(rate, more)
  {
    hide GreedyGain, Times;
    if offers == [] {
      NoRate(more);
      NothingOffered(budget);
      NothingOffered(budget + more);
      MulMonotone(0.0, rate, more);
    } else {
      GreedyGainStep(offers, budget);
      GreedyGainStep(offers, budget + more);
      if offers[0].rate.None? {
        MoreBudget(offers[1..], budget, more, rate);
      } else {
        var r, capacity := offers[0].rate.value, offers[0].capacity;
        var a, b := Min(budget, capacity), Min(budget + more, capacity);
        MoreBudget(offers[1..], budget - a, more - (b - a), rate);
        MulSum(r, a, b - a);
        MulSum(rate, b - a, more - (b - a));
        MulMonotone(r, rate, b - a);
      }
    }
  }

  /** The exchange argument: no feasible way of spending the vouchers is worth more. */
  lemma {:induction false} GreedyIsOptimal(offers: seq<Offer>, budget: int, taken: seq<int>)
    requires Sound(offers) && Descending(offers) && Feasible(offers, taken, budget)
    ensures Gain(offers, taken) <= GreedyGain(offers, budget)
  {
    CountIsNatural(taken);
    if offers != [] {
      CountIsNatural(taken[1..]);
      assert Count(taken) == taken[0] + Count(taken[1..]);
      FirstOffer(offers, budget, taken);
      var take := if offers[0].rate.None? then 0 else Min(budget, offers[0].capacity);
      GreedyIsOptimal(offers[1..], budget - taken[0], taken[1..]);
    }
  }

  /** Taking more of the first offer and less of the others does not lose. */
  lemma FirstOffer(offers: seq<Offer>, budget: int, taken: seq<int>)
    requires offers != [] && Sound(offers) && Descending(offers) && |taken| == |offers|
    requires 0 <= taken[0] <= Min(budget, Room(offers[0]))
    ensures Worth(offers[0], taken[0]) + GreedyGain(offers[1..], budget - taken[0]) <= GreedyGain(offers, budget)
  {
    hide GreedyGain, Times;
    GreedyGainStep(offers, budget);
    if offers[0].rate.Some? {
      var rate, take := offers[0].rate.value, Min(budget, offers[0].capacity);
      MoreBudget(offers[1..], budget - take, take - taken[0], rate);
      MulSum(rate, taken[0], take - taken[0]);
    }
  }

  lemma {:induction false} CountIsNatural(taken: seq<int>)
    requires forall i :: 0 <= i < |taken| ==> taken[i] >= 0
    ensures Count(taken) >= 0
  {
    if taken != [] {
      CountIsNatural(taken[1..]);
    }
  }

  // ---- the order in which equal offers are visited does not matter -------------------

  lemma RemoveOne<T>(s: seq<T>, t: seq<T>, k: nat)
    requires multiset(s) == multiset(t) && t != [] && k < |s| && s[k] == t[0]
    ensures multiset(s[..k] + s[k + 1..]) == multiset(t[1..])
  {
    assert s == s[..k] + [s[k]] + s[k + 1..];
    assert t == [t[0]] + t[1..];
    assert multiset(s) == multiset(s[..k] + s[k + 1..]) + multiset{s[k]};
    assert multiset(t) == multiset(t[1..]) + multiset{t[0]};
    assert multiset(s[..k] + s[k + 1..]) == multiset(s) - multiset{s[k]};
  }

  /** The same takes for the same offers, in another order. */
  lemma {:induction false} Rearrange(offers: seq<Offer>, taken: seq<int>, others: seq<Offer>) returns (moved: seq<int>)
    requires |taken| == |offers| && multiset(offers) == multiset(others)
    ensures |moved| == |others|
    ensures Gain(others, moved) == Gain(offers, taken) && Count(moved) == Count(taken)
    ensures forall budget :: Feasible(offers, taken, budget) ==> Feasible(others, moved, budget)
    decreases |others|
  {
    if others == [] {
      assert |multiset(offers)| == 0;
      moved := [];
    } else {
      assert others[0] in multiset(offers);
      var k :| 0 <= k < |offers| && offers[k] == others[0];
      var rest, takes := offers[..k] + offers[k + 1..], taken[..k] + taken[k + 1..];
      RemoveOne(offers, others, k);
      var tail := Rearrange(rest, takes, others[1..]);
      moved := [taken[k]] + tail;
      assert moved[1..] == tail;
      TakeOut(offers, taken, k);
      forall budget | Feasible(offers, taken, budget) ensures Feasible(others, moved, budget) {
        assert Feasible(rest, takes, budget - taken[k]);
        assert Feasible(others[1..], tail, budget - taken[k]);
        forall i | 0 <= i < |moved| ensures 0 <= moved[i] <= Room(others[i]) {
          if i > 0 {
            assert moved[i] == tail[i - 1] && others[i] == others[1..][i - 1];
          }
        }
      }
    }
  }

  lemma {:induction false} TakeOut(offers: seq<Offer>, taken: seq<int>, k: nat)
    requires |taken| == |offers| && k < |offers|
    ensures Gain(offers, taken) == Worth(offers[k], taken[k]) + Gain(offers[..k] + offers[k + 1..], taken[..k] + taken[k + 1..])
    ensures Count(taken) == taken[k] + Count(taken[..k] + taken[k + 1..])
  {
    var rest, takes := offers[..k] + offers[k + 1..], taken[..k] + taken[k + 1..];
    if k == 0 {
      assert rest == offers[1..] && takes == taken[1..];
    } else {
      TakeOut(offers[1..], taken[1..], k - 1);
      assert rest[1..] == offers[1..][..k - 1] + offers[1..][k..];
      assert takes[1..] == taken[1..][..k - 1] + taken[1..][k..];
    }
  }

  /** Any two descending orders of the same offers are worth the same. */
  lemma OrderDoesNotMatter(offers: seq<Offer>, others: seq<Offer>, budget: int)
    requires Sound(offers) && Descending(offers) && Descending(others) && multiset(offers) == multiset(others)
    ensures Sound(others) && GreedyGain(offers, budget) == GreedyGain(others, budget)
  {
    SoundPermutes(offers, others);
    NoBetter(offers, others, budget);
    NoBetter(others, offers, budget);
  }

  lemma NoBetter(offers: seq<Offer>, others: seq<Offer>, budget: int)
    requires Sound(offers) && Sound(others) && Descending(others) && multiset(offers) == multiset(others)
    ensures GreedyGain(offers, budget) <= GreedyGain(others, budget)
  {
    var available := Max(budget, 0);
    SpendIsFeasible(offers, budget);
    var moved := Rearrange(offers, Spend(offers, budget), others);
    GreedyIsOptimal(others, available, moved);
    if budget < 0 {
      assert Spend(others, budget) == Spend(others, 0);
    }
  }

  lemma SoundPermutes(offers: seq<Offer>, others: seq<Offer>)
    requires Sound(offers) && multiset(offers) == multiset(others)
    ensures Sound(others)
  {
    forall i | 0 <= i < |others| && others[i].rate.Some?
      ensures others[i].rate.value >= 0.0 && others[i].capacity >= 0
    {
      assert others[i] in multiset(offers);
    }
  }

  /** The optimum over every order: greedy in a descending order beats every way of spending the
      vouchers on the same offers in whatever order they are listed. */
  lemma GreedyBeatsAll(listed: seq<Offer>, visited: seq<Offer>, budget: int, taken: seq<int>)
    requires Sound(listed) && Descending(visited) && multiset(listed) == multiset(visited)
    requires Feasible(listed, taken, budget)
    ensures Gain(listed, taken) <= GreedyGain(visited, budget)
  {
    SoundPermutes(listed, visited);
    var moved := Rearrange(listed, taken, visited);
    GreedyIsOptimal(visited, budget, moved);
  }

  // ---- with distinct rates each offer's share is determined --------------------------

  /** Vouchers that fit on offers worth more than `rate`. */
  function RoomAbove(offers: seq<Offer>, rate: real): int
  {
    if offers == [] then 0
    else (if offers[0].rate.Some? && offers[0].rate.value > rate then offers[0].capacity else 0)
         + RoomAbove(offers[1..], rate)
  }

  lemma {:induction false} RoomIsAll(offers: seq<Offer>)
    requires Sound(offers)
    ensures RoomAbove(offers, -1.0) == TotalRoom(offers)
  {
    if offers != [] {
      RoomIsAll(offers[1..]);
    }
  }

  predicate StrictlyDescending(offers: seq<Offer>)
  {
    forall i, j :: 0 <= i < j < |offers| && offers[i].rate.Some? && offers[j].rate.Some? ==>
      offers[i].rate.value > offers[j].rate.value
  }

  lemma {:induction false} NoRoomAbove(offers: seq<Offer>, rate: real)
    requires AtMost(offers, rate)
    ensures RoomAbove(offers, rate) == 0
  {
    if offers != [] {
      NoRoomAbove(offers[1..], rate);
    }
  }

  /** A share depends only on the budget left by the better offers. */
  lemma {:induction false} ShareIsDetermined(offers: seq<Offer>, budget: int, i: nat)
    requires Sound(offers) && StrictlyDescending(offers) && i < |offers| && offers[i].rate.Some?
    ensures Spend(offers, budget)[i] == Min(Max(budget - RoomAbove(offers, offers[i].rate.value), 0), offers[i].capacity)
  {
    var rate := offers[i].rate.value;
    RoomAboveIsNatural(offers, rate);
    if budget > 0 {
      if i == 0 {
        NoRoomAbove(offers[1..], rate);
      } else {
        var take := if offers[0].rate.None? then 0 else Min(budget, offers[0].capacity);
        assert offers[1..][i - 1] == offers[i];
        ShareIsDetermined(offers[1..], budget - take, i - 1);
        RoomAboveIsNatural(offers[1..], rate);
        assert Spend(offers, budget)[i] == Spend(offers[1..], budget - take)[i - 1];
      }
    }
  }

  lemma {:induction false} RoomAboveIsNatural(offers: seq<Offer>, rate: real)
    requires Sound(offers)
    ensures RoomAbove(offers, rate) >= 0
  {
    if offers != [] {
      RoomAboveIsNatural(offers[1..], rate);
    }
  }

  lemma {:induction false} RoomAbovePermutes(offers: seq<Offer>, others: seq<Offer>, rate: real)
    requires multiset(offers) == multiset(others)
    ensures RoomAbove(offers, rate) == RoomAbove(others, rate)
    decreases |others|
  {
    if others == [] {
      assert |multiset(offers)| == 0;
    } else {
      assert others[0] in multiset(offers);
      var k :| 0 <= k < |offers| && offers[k] == others[0];
      var rest := offers[..k] + offers[k + 1..];
      RemoveOne(offers, others, k);
      RoomAboveSplits(offers, k, rate);
      RoomAbovePermutes(rest, others[1..], rate);
    }
  }

  lemma {:induction false} RoomAboveSplits(offers: seq<Offer>, k: nat, rate: real)
    requires k < |offers|
    ensures RoomAbove(offers, rate) == RoomAbove([offers[k]], rate) + RoomAbove(offers[..k] + offers[k + 1..], rate)
  {
    var rest := offers[..k] + offers[k + 1..];
    if k == 0 {
      assert rest == offers[1..];
    } else {
      RoomAboveSplits(offers[1..], k - 1, rate);
      assert rest[1..] == offers[1..][..k - 1] + offers[1..][k..];
    }
  }

  /** With distinct rates the same offer gets the same share in every descending order. */
  lemma SharesAgree(offers: seq<Offer>, others: seq<Offer>, budget: int, i: nat, j: nat)
    requires Sound(offers) && StrictlyDescending(offers) && StrictlyDescending(others)
    requires multiset(offers) == multiset(others)
    requires i < |offers| && j < |others| && offers[i] == others[j] && offers[i].rate.Some?
    ensures Spend(offers, budget)[i] == Spend(others, budget)[j]
  {
    SoundPermutes(offers, others);
    ShareIsDetermined(offers, budget, i);
    ShareIsDetermined(others, budget, j);
    RoomAbovePermutes(offers, others, offers[i].rate.value);
  }

  // ---- the way back: from a worth to the shares --------------------------------------

  /** Vouchers explained on one offer by a worth still to explain. */
  function Explain(offer: Offer, worth: real): int
    requires offer.rate.Some? && offer.rate.value > 0.0
  {
    Min((worth / offer.rate.value).Floor, offer.capacity)
  }

  predicate Positive(offers: seq<Offer>)
  {
    forall i :: 0 <= i < |offers| && offers[i].rate.Some? ==> offers[i].rate.value > 0.0 && offers[i].capacity >= 0
  }

  /** The shares recovered from a worth, offer by offer. */
  function Attribute(offers: seq<Offer>, worth: real): (shares: seq<int>)
    requires Positive(offers)
    ensures |shares| == |offers|
  {
    if offers == [] then []
    else
      var share := if offers[0].rate.None? then 0 else Explain(offers[0], worth);
      [share] + Attribute(offers[1..], worth - Worth(offers[0], share))
  }

  lemma FloorExact(rate: real, n: int, rest: real, worth: real)
    requires rate > 0.0 && rest >= 0.0 && worth == rate * n as real + rest
    ensures (worth / rate).Floor >= n
    ensures rest == 0.0 ==> (worth / rate).Floor == n
  {
    assert worth / rate == n as real + rest / rate;
    assert rest / rate >= 0.0;
  }

  /** From the greedy worth alone the loop finds the greedy shares and explains the worth completely. */
  lemma {:induction false} AttributeInverts(offers: seq<Offer>, budget: int)
    requires Positive(offers) && Descending(offers)
    ensures Attribute(offers, GreedyGain(offers, budget)) == Spend(offers, budget)
  {
    if offers == [] {
    } else if budget <= 0 {
      ZerosSpendNothing(offers);
      AttributeNothing(offers);
    } else {
      GreedyGainStep(offers, budget);
      var take := if offers[0].rate.None? then 0 else Min(budget, offers[0].capacity);
      var rest := GreedyGain(offers[1..], budget - take);
      AttributeInverts(offers[1..], budget - take);
      FirstShare(offers, budget);
      assert Spend(offers, budget) == [take] + Spend(offers[1..], budget - take);
      assert GreedyGain(offers, budget) - Worth(offers[0], take) == rest;
    }
  }

  lemma FirstShare(offers: seq<Offer>, budget: int)
    requires offers != [] && budget > 0 && Positive(offers)
    ensures offers[0].rate.Some? ==>
              Explain(offers[0], GreedyGain(offers, budget)) == Min(budget, offers[0].capacity)
  {
    hide GreedyGain;
    if offers[0].rate.Some? {
      var take := Min(budget, offers[0].capacity);
      var rest := GreedyGain(offers[1..], budget - take);
      GreedyGainStep(offers, budget);
      GreedyGainBounds(offers[1..], budget - take);
      ExplainExact(offers[0], take, rest);
    }
  }

  lemma ExplainExact(offer: Offer, take: int, rest: real)
    requires offer.rate.Some? && offer.rate.value > 0.0
    requires rest >= 0.0 && take <= offer.capacity && (take == offer.capacity || rest == 0.0)
    ensures Explain(offer, Worth(offer, take) + rest) == take
  {
    FloorExact(offer.rate.value, take, rest, Worth(offer, take) + rest);
  }

  lemma {:induction false} AttributeNothing(offers: seq<Offer>)
    requires Positive(offers)
    ensures Attribute(offers, 0.0) == Zeros(|offers|)
  {
    if offers != [] {
      AttributeNothing(offers[1..]);
      if offers[0].rate.Some? {
        FloorExact(offers[0].rate.value, 0, 0.0, 0.0);
      }
    }
  }

  /** Nothing is worth less than nothing, and without budget there is no worth. */
  lemma GreedyGainBounds(offers: seq<Offer>, budget: int)
    requires Sound(offers)
    ensures GreedyGain(offers, budget) >= 0.0
    ensures budget <= 0 ==> GreedyGain(offers, budget) == 0.0
  {
    SpendIsFeasible(offers, budget);
    GainIsNatural(offers, Spend(offers, budget));
    if offers != [] && budget <= 0 {
      ZerosSpendNothing(offers);
    }
  }

  lemma {:induction false} GainIsNatural(offers: seq<Offer>, taken: seq<int>)
    requires Sound(offers) && |taken| == |offers| && forall i :: 0 <= i < |taken| ==> taken[i] >= 0
    ensures Gain(offers, taken) >= 0.0
  {
    if offers != [] {
      GainIsNatural(offers[1..], taken[1..]);
      if offers[0].rate.Some? {
        NoRate(taken[0]);
        MulMonotone(0.0, offers[0].rate.value, taken[0]);
      }
    }
  }
}
