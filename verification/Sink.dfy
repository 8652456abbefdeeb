/** nois-sink on values: the history of burns is one sequence, and ash number i has id i + 1. */
module SinkModel {
  import opened Base
  import opened Paging

  const BURN_DENOM := "unois"

  datatype Ash = Ash(burner: Option<Addr>, amount: Coin, time: Timestamp)

  datatype QueriedAsh = QueriedAsh(id: nat, burner: Option<Addr>, amount: Coin, time: Timestamp)

  /** `execute_burn`: exactly one coin, in the burn denom. */
  function Burn(ashes: seq<Ash>, burner: Addr, funds: seq<Coin>, time: Timestamp): Res<seq<Ash>> {
    if |funds| > 1 then Err(TooManyCoins)
    else if funds == [] then Err(NoCoins)
    else if funds[0].denom != BURN_DENOM then Err(WrongDenom)
    else if |ashes| >= U32_MAX then Panic
    else Ok(ashes + [Ash(Some(burner), funds[0], time)])
  }

  /** `execute_burn_balance` */
  function BurnBalance(ashes: seq<Ash>, funds: seq<Coin>, balance: nat, time: Timestamp): Res<seq<Ash>> {
    if funds != [] then Err(NonPayable)
    else if balance == 0 then Err(NoFundsToBurn)
    else if |ashes| >= U32_MAX then Panic
    else Ok(ashes + [Ash(None, Coin(balance, BURN_DENOM), time)])
  }

  function TotalBurnt(ashes: seq<Ash>): nat {
    if ashes == [] then 0 else TotalBurnt(ashes[..|ashes| - 1]) + ashes[|ashes| - 1].amount.amount
  }

  lemma AppendedAsh(ashes: seq<Ash>, ash: Ash)
    ensures TotalBurnt(ashes + [ash]) == TotalBurnt(ashes) + ash.amount.amount
  {
    assert (ashes + [ash])[..|ashes|] == ashes;
  }

  // ---- Queries ----

  function Listing(ashes: seq<Ash>): (all: seq<QueriedAsh>)
    ensures |all| == |ashes|
  {
    seq(|ashes|, i requires 0 <= i < |ashes| => QueriedAsh(i + 1, ashes[i].burner, ashes[i].amount, ashes[i].time))
  }

  /** How many ashes an ascending query skips. */
  function Skipped(n: nat, startAfter: Option<nat>): nat {
    if startAfter.None? then 0 else Min(startAfter.value, n)
  }

  /** How many ashes a descending query may still show. */
  function Kept(n: nat, startAfter: Option<nat>): nat {
    if startAfter.None? || startAfter.value > n then n
    else if startAfter.value == 0 then 0
    else startAfter.value - 1
  }

  /** One page of `query_ashes`: ids strictly after (before, when descending) the cursor. */
  function Query(ashes: seq<Ash>, startAfter: Option<nat>, limit: nat, order: Order): seq<QueriedAsh> {
    if order.Ascending? then Page(Listing(ashes)[Skipped(|ashes|, startAfter)..], 0, limit)
    else Page(Reverse(Listing(ashes)[..Kept(|ashes|, startAfter)]), 0, limit)
  }

  /** Entry i of a page, with the burner, amount and time of its ash. */
  ghost predicate Shows(ashes: seq<Ash>, q: QueriedAsh, id: int) {
    1 <= id <= |ashes| && q.id == id && Ash(q.burner, q.amount, q.time) == ashes[id - 1]
  }

  /**
   * A page shows consecutive ashes, starting right after the cursor (right before it, when descending), and as many
   * as the limit and the history allow.
   */
  lemma QueryShows(ashes: seq<Ash>, startAfter: Option<nat>, limit: nat)
    ensures
      var page := Query(ashes, startAfter, limit, Ascending);
      var cursor := if startAfter.Some? then startAfter.value else 0;
      && |page| == Min(limit, if cursor < |ashes| then |ashes| - cursor else 0)
      && forall i :: 0 <= i < |page| ==> Shows(ashes, page[i], cursor + 1 + i)
    ensures
      var page := Query(ashes, startAfter, limit, Descending);
      var cursor := if startAfter.Some? && startAfter.value <= |ashes| then startAfter.value else |ashes| + 1;
      && |page| == Min(limit, if cursor > 0 then cursor - 1 else 0)
      && forall i :: 0 <= i < |page| ==> Shows(ashes, page[i], cursor - 1 - i)
  {
  }

  function Remaining(n: nat, startAfter: Option<nat>, order: Order): nat {
    if order.Ascending? then n - Skipped(n, startAfter) else Kept(n, startAfter)
  }

  lemma AscendingPage(ashes: seq<Ash>, startAfter: Option<nat>, limit: nat)
    requires limit > 0
    ensures
      var lo := Skipped(|ashes|, startAfter);
      var hi := Min(lo + limit, |ashes|);
      var page := Query(ashes, startAfter, limit, Ascending);
      page == Listing(ashes)[lo..hi] && (lo < |ashes| ==> page != [] && page[|page| - 1].id == hi)
  {
    var lo := Skipped(|ashes|, startAfter);
    var rest := Listing(ashes)[lo..];
    assert limit < |rest| ==> rest[..limit] == Listing(ashes)[lo..lo + limit];
  }

  lemma ReversePrefix(all: seq<QueriedAsh>, lo: nat, hi: nat)
    requires lo <= hi <= |all|
    ensures Reverse(all[..hi]) == Reverse(all[lo..hi]) + Reverse(all[..lo])
    ensures Reverse(all[..hi])[..hi - lo] == Reverse(all[lo..hi])
  {
  }

  lemma DescendingPage(ashes: seq<Ash>, startAfter: Option<nat>, limit: nat)
    requires limit > 0
    ensures
      var hi := Kept(|ashes|, startAfter);
      var lo := if limit < hi then hi - limit else 0;
      var page := Query(ashes, startAfter, limit, Descending);
      page == Reverse(Listing(ashes)[lo..hi]) && (hi > 0 ==> page != [] && page[|page| - 1].id == lo + 1)
  {
    var hi := Kept(|ashes|, startAfter);
    var lo := if limit < hi then hi - limit else 0;
    ReversePrefix(Listing(ashes), lo, hi);
    assert hi > 0 ==> Listing(ashes)[lo..hi][0].id == lo + 1;
  }

  /**
   * What a client reads that starts at a cursor and then always passes the id it saw last, until a page
   * comes back empty.
   */
  function Walk(ashes: seq<Ash>, startAfter: Option<nat>, limit: nat, order: Order): seq<QueriedAsh>
    decreases Remaining(|ashes|, startAfter, order)
  {
    var page := Query(ashes, startAfter, limit, order);
    if page == [] then []
    else
      (if order.Ascending? then AscendingPage(ashes, startAfter, limit); page
       else DescendingPage(ashes, startAfter, limit); page)
      + Walk(ashes, Some(page[|page| - 1].id), limit, order)
  }

  /** An ascending walk visits all ashes after the cursor once and in order. */
  lemma {:induction false} AscendingWalk(ashes: seq<Ash>, startAfter: Option<nat>, limit: nat)
    requires limit > 0
    ensures Walk(ashes, startAfter, limit, Ascending) == Listing(ashes)[Skipped(|ashes|, startAfter)..]
    decreases Remaining(|ashes|, startAfter, Ascending)
  {
    hide Listing, Query;
    var all := Listing(ashes);
    var lo := Skipped(|ashes|, startAfter);
    AscendingPage(ashes, startAfter, limit);
    if lo < |ashes| {
      var hi := Min(lo + limit, |ashes|);
      AscendingWalk(ashes, Some(hi), limit);
      assert all[lo..] == all[lo..hi] + all[hi..];
    }
  }

  /** A descending walk visits all ashes before the cursor once, newest first. */
  lemma {:induction false} DescendingWalk(ashes: seq<Ash>, startAfter: Option<nat>, limit: nat)
    requires limit > 0
    ensures Walk(ashes, startAfter, limit, Descending) == Reverse(Listing(ashes)[..Kept(|ashes|, startAfter)])
    decreases Remaining(|ashes|, startAfter, Descending)
  {
    hide Listing, Query;
    var hi := Kept(|ashes|, startAfter);
    DescendingPage(ashes, startAfter, limit);
    if hi > 0 {
      var lo := if limit < hi then hi - limit else 0;
      DescendingWalk(ashes, Some(lo + 1), limit);
      ReversePrefix(Listing(ashes), lo, hi);
    }
  }

  /** Paging with the last seen id visits every ash exactly once, in order, in both directions. */
  lemma PagingVisitsEachAshOnce(ashes: seq<Ash>, limit: nat)
    requires limit > 0
    ensures Walk(ashes, None, limit, Ascending) == Listing(ashes)
    ensures Walk(ashes, None, limit, Descending) == Reverse(Listing(ashes))
  {
    AscendingWalk(ashes, None, limit);
    DescendingWalk(ashes, None, limit);
    assert Listing(ashes)[..|ashes|] == Listing(ashes);
  }
}

/** The sink's storage and the code that updates it in place. */
module SinkContract {
  import opened Base
  import opened IdOrder
  import opened Paging
  import M = SinkModel

  function Entries(ashes: map<nat, M.Ash>, ids: seq<nat>): seq<M.QueriedAsh>
    requires forall id <- ids :: id in ashes
  {
    seq(|ids|, i requires 0 <= i < |ids| =>
      M.QueriedAsh(ids[i], ashes[ids[i]].burner, ashes[ids[i]].amount, ashes[ids[i]].time))
  }

  lemma RangeIsSlice(history: seq<M.Ash>, ashes: map<nat, M.Ash>, ids: seq<nat>, lo: nat, hi: nat)
    requires lo <= hi <= |history|
    requires forall id: nat :: lo < id <= hi ==> id in ashes && ashes[id] == history[id - 1]
    requires |ids| == hi - lo && forall i :: 0 <= i < |ids| ==> ids[i] == lo + i + 1
    ensures forall id <- ids :: id in ashes
    ensures forall id <- Reverse(ids) :: id in ashes
    ensures Entries(ashes, ids) == M.Listing(history)[lo..hi]
    ensures Entries(ashes, Reverse(ids)) == Reverse(M.Listing(history)[lo..hi])
  {
  }

  class Sink {
    var ashes: map<nat, M.Ash>
    var ashesLastId: nat

    /** All burns, oldest first. */
    ghost var history: seq<M.Ash>

    /** Ash ids are exactly 1..last. */
    ghost predicate Valid()
      reads this
    {
      && ashesLastId == |history| <= U32_MAX
      && (forall id: nat :: id in ashes <==> 1 <= id <= ashesLastId)
      && (forall id: nat :: id in ashes ==> ashes[id] == history[id - 1])
    }

    constructor ()
      ensures Valid() && history == []
    {
      ashes, ashesLastId, history := map[], 0, [];
    }

    method Record(ash: M.Ash) returns (r: Res<()>)
      requires Valid()
      modifies this
      ensures r.Ok? <==> old(|history|) < U32_MAX
      ensures r.Ok? ==> Valid() && history == old(history) + [ash]
      ensures !r.Ok? ==> r.Panic?
    {
      if ashesLastId + 1 > U32_MAX {
        return Panic;
      }
      ashesLastId := ashesLastId + 1;
      ashes := ashes[ashesLastId := ash];
      history := history + [ash];
      return Ok(());
    }

    /** On success the whole coin is burnt. */
    method Burn(burner: Addr, funds: seq<Coin>, time: Timestamp) returns (r: Res<Coin>)
      requires Valid()
      modifies this
      ensures var spec := M.Burn(old(history), burner, funds, time);
        && (r.Ok? <==> spec.Ok?)
        && (r.Ok? ==> Valid() && history == spec.value && r.value == funds[0])
      ensures r.Ok? <==> |funds| == 1 && funds[0].denom == "unois" && old(|history|) < 4_294_967_295
      ensures r.Ok? ==> history == old(history) + [M.Ash(Some(burner), funds[0], time)]
      ensures r.Err? ==> r.error == (if |funds| > 1 then TooManyCoins else if funds == [] then NoCoins else WrongDenom)
    {
      if |funds| > 1 {
        return Err(TooManyCoins);
      }
      if funds == [] {
        return Err(NoCoins);
      }
      if funds[0].denom != M.BURN_DENOM {
        return Err(WrongDenom);
      }
      var _ :- Record(M.Ash(Some(burner), funds[0], time));
      return Ok(funds[0]);
    }

    method BurnBalance(funds: seq<Coin>, balance: nat, time: Timestamp) returns (r: Res<Coin>)
      requires Valid()
      modifies this
      ensures var spec := M.BurnBalance(old(history), funds, balance, time);
        && (r.Ok? <==> spec.Ok?)
        && (r.Ok? ==> Valid() && history == spec.value && r.value == Coin(balance, M.BURN_DENOM))
      ensures r.Ok? <==> funds == [] && balance > 0 && old(|history|) < 4_294_967_295
      ensures r.Ok? ==> history == old(history) + [M.Ash(None, Coin(balance, "unois"), time)] && r.value == Coin(balance, "unois")
      ensures r.Err? ==> r.error == (if funds != [] then NonPayable else NoFundsToBurn)
    {
      if funds != [] {
        return Err(NonPayable);
      }
      if balance == 0 {
        return Err(NoFundsToBurn);
      }
      var _ :- Record(M.Ash(None, Coin(balance, M.BURN_DENOM), time));
      return Ok(Coin(balance, M.BURN_DENOM));
    }

    /** A range over the id-keyed map within exclusive bounds, in either direction. */
    method QueryAshes(startAfter: Option<nat>, limit: nat, order: Order) returns (page: seq<M.QueriedAsh>)
      requires Valid()
      ensures page == M.Query(history, startAfter, limit, order)
    {
      var inRange := set id | id in ashes && (startAfter.None? ||
        (if order.Ascending? then id > startAfter.value else id < startAfter.value));
      var ids := InOrder(inRange);
      ghost var lo := if order.Ascending? then M.Skipped(|history|, startAfter) else 0;
      ghost var hi := if order.Ascending? then |history| else M.Kept(|history|, startAfter);
      AscendingIsInterval(ids, lo, hi);
      RangeIsSlice(history, ashes, ids, lo, hi);
      hide Entries, M.Listing;
      if order.Descending? {
        ids := Reverse(ids);
      }
      var all := Entries(ashes, ids);
      page := Page(all, 0, limit);
    }
  }
}
