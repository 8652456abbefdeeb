/**
 * Where each request is. A trace assigns every accepted request one location and every occupied location
 * one request; protocol steps move requests between locations.
 */
module Traces {

  datatype Loc =
    /** The request packet with this sequence number travels to the gateway. */
    | RequestInFlight(packet: nat)
    | RequestExpired(packet: nat)
    /** The gateway answered the packet with an error acknowledgement. */
    | RequestRejected(packet: nat)
    /** The gateway's job with this id is queued for the round. */
    | Queued(round: nat, id: nat)
    /** The delivery with this sequence number travels to the proxy. */
    | DeliveryInFlight(delivery: nat)
    | DeliveryExpired(delivery: nat)
    | DeliveryRefused(delivery: nat)
    | CalledBack(callback: nat)

  datatype Places = Places(locOf: seq<Loc>, owner: map<Loc, nat>)

  /** `locOf` and `owner` are inverse to each other. */
  ghost predicate OneToOne(p: Places) {
    && (forall i :: 0 <= i < |p.locOf| ==> p.locOf[i] in p.owner && p.owner[p.locOf[i]] == i)
    && (forall l <- p.owner :: p.owner[l] < |p.locOf| && p.locOf[p.owner[l]] == l)
  }

  function Added(p: Places, l: Loc): Places {
    Places(p.locOf + [l], p.owner[l := |p.locOf|])
  }

  predicate CanMove(p: Places, from: Loc, to: Loc) {
    from in p.owner && p.owner[from] < |p.locOf| && to !in p.owner
  }

  function Moved(p: Places, from: Loc, to: Loc): Places {
    if CanMove(p, from, to)
    then Places(p.locOf[p.owner[from] := to], (p.owner - {from})[to := p.owner[from]])
    else p
  }

  lemma AddedOneToOne(p: Places, l: Loc)
    requires OneToOne(p) && l !in p.owner
    ensures OneToOne(Added(p, l))
  {
  }

  lemma MovedOneToOne(p: Places, from: Loc, to: Loc)
    requires OneToOne(p)
    ensures OneToOne(Moved(p, from, to))
    ensures |Moved(p, from, to).locOf| == |p.locOf|
  {
  }

  // ---- Draining a queue ----

  predicate InDrain(l: Loc, round: nat, gone: nat, k: nat) {
    l.Queued? && l.round == round && gone < l.id <= gone + k
  }

  predicate IsNew(l: Loc, base: nat, k: nat) {
    l.DeliveryInFlight? && base <= l.delivery < base + k
  }

  ghost predicate CanDrain(p: Places, round: nat, gone: nat, base: nat, k: nat) {
    && (forall id :: gone < id <= gone + k ==> Queued(round, id) in p.owner)
    && (forall d :: base <= d < base + k ==> DeliveryInFlight(d) !in p.owner)
  }

  /** Where a drain of jobs gone+1 .. gone+k into deliveries base .. base+k-1 takes a location, and back. */
  function Target(l: Loc, round: nat, gone: nat, base: nat, k: nat): Loc {
    if InDrain(l, round, gone, k) then DeliveryInFlight(base + (l.id - gone - 1)) else l
  }

  function Source(l: Loc, round: nat, gone: nat, base: nat, k: nat): Loc {
    if IsNew(l, base, k) then Queued(round, gone + 1 + (l.delivery - base)) else l
  }

  ghost function DrainedLocs(p: Places, round: nat, gone: nat, base: nat, k: nat): (s: set<Loc>)
    ensures forall l :: l in s <==> (l in p.owner && !InDrain(l, round, gone, k)) || IsNew(l, base, k)
  {
    (set l | l in p.owner && !InDrain(l, round, gone, k)) + (set d | base <= d < base + k :: DeliveryInFlight(d))
  }

  lemma SourceOwned(p: Places, round: nat, gone: nat, base: nat, k: nat, l: Loc)
    requires CanDrain(p, round, gone, base, k) && l in DrainedLocs(p, round, gone, base, k)
    ensures Source(l, round, gone, base, k) in p.owner
  {
  }

  ghost function Drain(p: Places, round: nat, gone: nat, base: nat, k: nat): (p': Places)
    ensures |p'.locOf| == |p.locOf|
    ensures CanDrain(p, round, gone, base, k) ==>
      && (forall l :: l in p'.owner <==> (l in p.owner && !InDrain(l, round, gone, k)) || IsNew(l, base, k))
      && (forall l <- p'.owner ::
            var from := Source(l, round, gone, base, k);
            from in p.owner && p'.owner[l] == p.owner[from])
  {
    if !CanDrain(p, round, gone, base, k) then p
    else
      var locs := DrainedLocs(p, round, gone, base, k);
      assert forall l <- locs :: Source(l, round, gone, base, k) in p.owner by {
        forall l | l in locs {
          SourceOwned(p, round, gone, base, k, l);
        }
      }
      Places(seq(|p.locOf|, i requires 0 <= i < |p.locOf| => Target(p.locOf[i], round, gone, base, k)),
             map l | l in locs :: p.owner[Source(l, round, gone, base, k)])
  }

  /** The requests whose jobs a drain takes, oldest first. */
  function DrainedOwners(p: Places, round: nat, gone: nat, k: nat): seq<nat> {
    seq(k, (i: nat) => if Queued(round, gone + 1 + i) in p.owner then p.owner[Queued(round, gone + 1 + i)] else 0)
  }

  lemma DrainOneToOne(p: Places, round: nat, gone: nat, base: nat, k: nat)
    requires OneToOne(p) && CanDrain(p, round, gone, base, k)
    ensures OneToOne(Drain(p, round, gone, base, k))
  {
    var p' := Drain(p, round, gone, base, k);
    forall i | 0 <= i < |p'.locOf|
      ensures p'.locOf[i] in p'.owner && p'.owner[p'.locOf[i]] == i
    {
      var l := p.locOf[i];
      var l' := Target(l, round, gone, base, k);
      assert l in p.owner && !IsNew(l, base, k);
      assert Source(l', round, gone, base, k) == l;
    }
    forall l | l in p'.owner
      ensures p'.owner[l] < |p'.locOf| && p'.locOf[p'.owner[l]] == l
    {
      var from := Source(l, round, gone, base, k);
      assert from in p.owner;
      assert Target(from, round, gone, base, k) == l;
    }
  }
}
