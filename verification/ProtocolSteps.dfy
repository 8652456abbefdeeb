/** Every event of the protocol keeps the invariant. */
module ProtocolSteps {
  import opened Base
  import opened Sums
  import opened Rounds
  import opened SourceIds
  import opened Crypto
  import opened Traces
  import opened JobStore
  import opened Protocol
  import opened ProtocolInvariant
  import G = GatewayModel
  import GR = GatewayRuns
  import D = DrandModel
  import DR = DrandRuns
  import P = ProxyModel
  import L = Ledger

  // ---- A dapp asks for randomness ----

  ghost predicate Asks(w: World, s: State, s': State, q: Request, proxy: P.State) {
    var n := |s.net.packets|;
    && q.channel in s.proxies
    && s' == s.(proxies := s.proxies[q.channel := proxy],
                net := s.net.(packets := s.net.packets + [PacketOf(w, q)],
                              requestsInFlight := s.net.requestsInFlight + {n}),
                trace := s.trace.(requests := s.trace.requests + [q],
                                  places := Added(s.trace.places, RequestInFlight(n))))
  }

  lemma AskedAsks(w: World, s: State, channel: string, time: Timestamp, sender: Addr, funds: seq<Coin>,
                  requestedAfter: Option<Timestamp>, jobId: string)
    requires Asked(w, s, channel, time, sender, funds, requestedAfter, jobId) != s
    ensures channel in s.proxies
    ensures
      var r := P.GetRandomness(w.codec, s.proxies[channel], time, sender, funds, requestedAfter, jobId);
      && r.Ok?
      && Asks(w, s, Asked(w, s, channel, time, sender, funds, requestedAfter, jobId),
              Request(channel, sender, jobId, r.value.packet.after), r.value.state)
  {
  }

  lemma AsksPlaces(w: World, s: State, s': State, q: Request, proxy: P.State)
    requires Asks(w, s, s', q, proxy) && PlacesInv(s) && PacketsInv(w, s.net, s.trace.requests, s.trace.places.owner)
    ensures PlacesInv(s')
  {
    AddedOneToOne(s.trace.places, RequestInFlight(|s.net.packets|));
  }

  lemma AsksPackets(w: World, s: State, s': State, q: Request, proxy: P.State)
    requires Asks(w, s, s', q, proxy) && |s.trace.places.locOf| == |s.trace.requests|
    requires PacketsInv(w, s.net, s.trace.requests, s.trace.places.owner)
    ensures PacketsInv(w, s'.net, s'.trace.requests, s'.trace.places.owner)
  {
  }

  lemma AsksContent(w: World, s: State, s': State, q: Request, proxy: P.State)
    requires Asks(w, s, s', q, proxy) && ContentInv(w, s) && |s.trace.places.locOf| == |s.trace.requests|
    ensures ContentInv(w, s')
  {
    AsksPackets(w, s, s', q, proxy);
    hide PacketsInv, PacketOf, JobOf, DeliveryAnswers, CallAnswers;
    var owner, owner' := s.trace.places.owner, s'.trace.places.owner;
    forall r: nat, id: nat | Queued(r, id) in owner'
      ensures JobMatches(w, G.QueueAt(s.gateway.queues, r), id - 1 - Gone(s.gateway.lastJobId, s.gateway.queues, r), r,
                         s'.trace.requests, owner'[Queued(r, id)])
    {
      assert Queued(r, id) in owner && owner'[Queued(r, id)] == owner[Queued(r, id)];
      assert JobMatches(w, G.QueueAt(s.gateway.queues, r), id - 1 - Gone(s.gateway.lastJobId, s.gateway.queues, r), r,
                        s.trace.requests, owner[Queued(r, id)]);
    }
  }

  lemma AsksInv(w: World, s: State, s': State, q: Request, proxy: P.State)
    requires Asks(w, s, s', q, proxy) && Inv(w, s)
    ensures Inv(w, s')
  {
    hide GR.Inv, DR.Inv, L.Inv, PlacesInv, ContentInv, DrainInv, MarkInv, AgreeInv, GR.TotalRequested;
    FreshPacket(w, s);
    PlacesCounted(s);
    AsksPlaces(w, s, s', q, proxy) by { ContentPackets(w, s); }
    AsksContent(w, s, s', q, proxy);
    assert s'.proxies.Keys == s.proxies.Keys;
  }

  lemma ContentPackets(w: World, s: State)
    requires ContentInv(w, s)
    ensures PacketsInv(w, s.net, s.trace.requests, s.trace.places.owner)
  {
  }

  lemma PlacesCounted(s: State)
    requires PlacesInv(s)
    ensures |s.trace.places.locOf| == |s.trace.requests|
  {
  }

  lemma FreshPacket(w: World, s: State)
    requires PlacesInv(s) && ContentInv(w, s)
    ensures |s.net.packets| !in s.net.requestsInFlight
  {
    hide JobsInv, DeliveriesInv, CallsInv, OwnersInv, OneToOne;
    var n := |s.net.packets|;
    assert RequestInFlight(n) in s.trace.places.owner ==> n < |s.trace.requests|;
  }

  // ---- Moving a request between places ----

  lemma OnePlaceEach(p: Places, a: Loc, b: Loc)
    requires OneToOne(p) && a in p.owner && b in p.owner && p.owner[a] == p.owner[b]
    ensures a == b
  {
  }

  lemma MovedOwner(p: Places, from: Loc, to: Loc)
    requires CanMove(p, from, to)
    ensures
      var owner := Moved(p, from, to).owner;
      && (forall l :: l in owner <==> (l in p.owner && l != from) || l == to)
      && owner[to] == p.owner[from]
      && (forall l <- owner :: l != to ==> owner[l] == p.owner[l])
  {
  }

  /** Only the three kinds of request places change; jobs, deliveries and callbacks stay where they are. */
  ghost predicate SameElsewhere(owner: Owner, owner': Owner) {
    forall l: Loc :: !l.RequestInFlight? && !l.RequestExpired? && !l.RequestRejected? ==>
      (l in owner' <==> l in owner) && (l in owner ==> owner'[l] == owner[l])
  }

  lemma SameElsewherePlaces(s: State, owner': Owner)
    requires PlacesInv(s) && SameElsewhere(s.trace.places.owner, owner')
    ensures QueuePlaces(s.gateway.queues, s.gateway.lastJobId, owner')
    ensures DeliveryPlaces(s.net, owner')
    ensures CallPlaces(s.net.calls, owner')
  {
  }

  lemma SameElsewhereContent(w: World, s: State, owner': Owner)
    requires ContentInv(w, s) && SameElsewhere(s.trace.places.owner, owner')
    ensures JobsInv(w, s.gateway.queues, s.gateway.lastJobId, s.trace.requests, owner')
    ensures OwnersInv(owner', s.trace.deliveryOwner, s.trace.callOwner)
  {
    hide PacketsInv, DeliveriesInv, CallsInv, JobMatches;
  }

  // ---- A request packet times out ----

  lemma TimeoutCanMove(w: World, s: State, n: nat)
    requires PlacesInv(s) && ContentInv(w, s) && n in s.net.requestsInFlight
    ensures CanMove(s.trace.places, RequestInFlight(n), RequestExpired(n))
    ensures CanMove(s.trace.places, RequestInFlight(n), RequestRejected(n))
    ensures n < |s.net.packets| == |s.trace.requests|
    ensures n !in s.net.requestsExpired && n !in s.net.requestsRejected
    ensures s.trace.places.owner[RequestInFlight(n)] == n
    ensures s.net.packets[n] == PacketOf(w, s.trace.requests[n])
  {
    hide JobsInv, DeliveriesInv, CallsInv, OwnersInv, QueuePlaces, DeliveryPlaces, CallPlaces, PacketOf;
    var p := s.trace.places;
    assert RequestInFlight(n) in p.owner;
    if RequestExpired(n) in p.owner {
      OnePlaceEach(p, RequestInFlight(n), RequestExpired(n));
    }
    if RequestRejected(n) in p.owner {
      OnePlaceEach(p, RequestInFlight(n), RequestRejected(n));
    }
  }

  lemma RequestTimedOutInv(w: World, s: State, n: nat)
    requires Inv(w, s)
    ensures Inv(w, RequestTimedOut(s, n))
  {
    hide GR.Inv, DR.Inv, L.Inv, PlacesInv, ContentInv, DrainInv, MarkInv, AgreeInv, GR.TotalRequested, Moved, CanMove;
    if n in s.net.requestsInFlight {
      TimeoutCanMove(w, s, n);
      TimeoutKeeps(w, s, n);
    }
  }

  lemma TimeoutKeeps(w: World, s: State, n: nat)
    requires PlacesInv(s) && ContentInv(w, s) && n in s.net.requestsInFlight
    ensures PlacesInv(RequestTimedOut(s, n)) && ContentInv(w, RequestTimedOut(s, n))
  {
    hide JobsInv, DeliveriesInv, CallsInv, OwnersInv, QueuePlaces, DeliveryPlaces, CallPlaces, PacketOf;
    var p := s.trace.places;
    var to := RequestExpired(n);
    TimeoutCanMove(w, s, n);
    MovedOneToOne(p, RequestInFlight(n), to);
    MovedOwner(p, RequestInFlight(n), to);
    var owner' := Moved(p, RequestInFlight(n), to).owner;
    hide OneToOne, Moved;
    SameElsewherePlaces(s, owner');
    SameElsewhereContent(w, s, owner');
    SameDeliveryPlaces(s.net, RequestTimedOut(s, n).net, owner');
  }

  lemma SameDeliveryPlaces(net: Net, net': Net, owner: Owner)
    requires DeliveryPlaces(net, owner)
    requires net'.deliveries == net.deliveries && net'.deliveriesInFlight == net.deliveriesInFlight
    requires net'.deliveriesExpired == net.deliveriesExpired && net'.deliveriesRefused == net.deliveriesRefused
    ensures DeliveryPlaces(net', owner)
  {
  }

  // ---- A delivery arrives or times out ----

  /** Only deliveries and callbacks change place. */
  ghost predicate SameRequestsAndJobs(owner: Owner, owner': Owner) {
    forall l: Loc :: l.RequestInFlight? || l.RequestExpired? || l.RequestRejected? || l.Queued? ==>
      (l in owner' <==> l in owner) && (l in owner ==> owner'[l] == owner[l])
  }

  lemma SameRequestsAndJobsKeep(w: World, s: State, net': Net, owner': Owner)
    requires PlacesInv(s) && ContentInv(w, s) && SameRequestsAndJobs(s.trace.places.owner, owner')
    requires net'.packets == s.net.packets && net'.requestsInFlight == s.net.requestsInFlight
    requires net'.requestsExpired == s.net.requestsExpired && net'.requestsRejected == s.net.requestsRejected
    ensures RequestPlaces(net', owner')
    ensures QueuePlaces(s.gateway.queues, s.gateway.lastJobId, owner')
    ensures PacketsInv(w, net', s.trace.requests, owner')
    ensures JobsInv(w, s.gateway.queues, s.gateway.lastJobId, s.trace.requests, owner')
  {
    hide DeliveriesInv, CallsInv, OwnersInv, DeliveryPlaces, CallPlaces, PacketOf, JobMatches, OneToOne;
  }

  lemma DeliveryCanMove(w: World, s: State, d: nat)
    requires PlacesInv(s) && ContentInv(w, s) && d in s.net.deliveriesInFlight
    ensures CanMove(s.trace.places, DeliveryInFlight(d), DeliveryExpired(d))
    ensures CanMove(s.trace.places, DeliveryInFlight(d), CalledBack(|s.net.calls|))
    ensures d !in s.net.deliveriesExpired
    ensures d < |s.net.deliveries| == |s.trace.deliveryOwner|
    ensures s.trace.places.owner[DeliveryInFlight(d)] == s.trace.deliveryOwner[d] < |s.trace.requests|
    ensures DeliveryAnswers(w, s.net.deliveries[d], s.trace.requests[s.trace.deliveryOwner[d]], s.drand.beacons)
  {
    hide JobsInv, PacketsInv, CallsInv, QueuePlaces, RequestPlaces, DeliveryAnswers;
    var p := s.trace.places;
    assert DeliveryInFlight(d) in p.owner;
    if DeliveryExpired(d) in p.owner {
      OnePlaceEach(p, DeliveryInFlight(d), DeliveryExpired(d));
    }
    assert CalledBack(|s.net.calls|) !in p.owner;
  }

  lemma DeliveryTimeoutKeeps(w: World, s: State, d: nat)
    requires PlacesInv(s) && ContentInv(w, s) && d in s.net.deliveriesInFlight
    ensures PlacesInv(DeliveryTimedOut(s, d)) && ContentInv(w, DeliveryTimedOut(s, d))
  {
    hide JobsInv, PacketsInv, DeliveriesInv, CallsInv, QueuePlaces, RequestPlaces, DeliveryAnswers;
    hide OneToOne, Moved, CanMove;
    var p := s.trace.places;
    var to := DeliveryExpired(d);
    DeliveryCanMove(w, s, d);
    MovedOneToOne(p, DeliveryInFlight(d), to);
    MovedOwner(p, DeliveryInFlight(d), to);
    var owner' := Moved(p, DeliveryInFlight(d), to).owner;
    SameRequestsAndJobsKeep(w, s, DeliveryTimedOut(s, d).net, owner');
  }

  lemma DeliveryTimedOutInv(w: World, s: State, d: nat)
    requires Inv(w, s)
    ensures Inv(w, DeliveryTimedOut(s, d))
  {
    hide GR.Inv, DR.Inv, L.Inv, PlacesInv, ContentInv, DrainInv, MarkInv, AgreeInv, GR.TotalRequested, Moved, CanMove;
    if d in s.net.deliveriesInFlight {
      DeliveryCanMove(w, s, d);
      DeliveryTimeoutKeeps(w, s, d);
    }
  }

  /** A delivery that answers a request becomes a callback that answers it. */
  lemma DeliveryBecomesCall(w: World, d: G.Delivery, q: Request, beacons: map<nat, D.Beacon>)
    requires P.Faithful(w.codec) && DeliveryAnswers(w, d, q, beacons)
    ensures
      var c := P.ReceiveBeacon(w.codec, d.published, d.randomness, d.origin);
      c.Some? && CallAnswers(w, DappCall(d.channel, c.value), q, beacons)
  {
    assert w.codec.decode(w.codec.encode(P.Origin(q.sender, q.jobId))) == Some(P.Origin(q.sender, q.jobId));
  }

  ghost predicate Calls(s: State, s': State, d: nat, call: DappCall) {
    && d < |s.trace.deliveryOwner|
    && s' == s.(net := s.net.(deliveriesInFlight := s.net.deliveriesInFlight - {d}, calls := s.net.calls + [call]),
                trace := s.trace.(places := Moved(s.trace.places, DeliveryInFlight(d), CalledBack(|s.net.calls|)),
                                  callDelivery := s.trace.callDelivery + [d],
                                  callOwner := s.trace.callOwner + [s.trace.deliveryOwner[d]]))
  }

  lemma CallsKeepsPlaces(w: World, s: State, s': State, d: nat, call: DappCall)
    requires Calls(s, s', d, call) && PlacesInv(s) && ContentInv(w, s) && d in s.net.deliveriesInFlight
    ensures PlacesInv(s')
    ensures OwnersInv(s'.trace.places.owner, s'.trace.deliveryOwner, s'.trace.callOwner)
    ensures PacketsInv(w, s'.net, s'.trace.requests, s'.trace.places.owner)
    ensures JobsInv(w, s'.gateway.queues, s'.gateway.lastJobId, s'.trace.requests, s'.trace.places.owner)
  {
    hide JobsInv, PacketsInv, DeliveriesInv, QueuePlaces, RequestPlaces, DeliveryAnswers, CallAnswers;
    hide OneToOne, Moved, CanMove;
    var p := s.trace.places;
    var to := CalledBack(|s.net.calls|);
    DeliveryCanMove(w, s, d);
    MovedOneToOne(p, DeliveryInFlight(d), to);
    MovedOwner(p, DeliveryInFlight(d), to);
    SameRequestsAndJobsKeep(w, s, s'.net, s'.trace.places.owner);
    assert |s.trace.callOwner| == |s.net.calls|;
  }

  lemma CallsInvStep(w: World, s: State, s': State, d: nat, call: DappCall)
    requires Calls(s, s', d, call) && Inv(w, s) && d in s.net.deliveriesInFlight
    requires s.trace.deliveryOwner[d] < |s.trace.requests|
    requires CallAnswers(w, call, s.trace.requests[s.trace.deliveryOwner[d]], s.drand.beacons)
    ensures Inv(w, s')
  {
    hide GR.Inv, DR.Inv, L.Inv, PlacesInv, DrainInv, MarkInv, AgreeInv, GR.TotalRequested, Moved, CanMove;
    hide JobsInv, PacketsInv, DeliveriesInv, OwnersInv, CallAnswers;
    CallsKeepsPlaces(w, s, s', d, call);
  }

  lemma DeliveredInv(w: World, s: State, d: nat)
    requires Inv(w, s) && P.Faithful(w.codec)
    ensures Inv(w, Delivered(w, s, d))
  {
    hide GR.Inv, DR.Inv, L.Inv, PlacesInv, ContentInv, DrainInv, MarkInv, AgreeInv, CountsInv, Moved;
    if d in s.net.deliveriesInFlight {
      DeliveryCanMove(w, s, d);
      var delivery := s.net.deliveries[d];
      DeliveryBecomesCall(w, delivery, s.trace.requests[s.trace.deliveryOwner[d]], s.drand.beacons);
      hide CallAnswers, DeliveryAnswers;
      var c := P.ReceiveBeacon(w.codec, delivery.published, delivery.randomness, delivery.origin);
      if delivery.channel in s.proxies {
        CallsInvStep(w, s, Delivered(w, s, d), d, DappCall(delivery.channel, c.value));
      }
    }
  }

  // ---- The gateway rejects a request ----

  ghost predicate Rejects(s: State, s': State, n: nat) {
    s' == s.(net := s.net.(requestsInFlight := s.net.requestsInFlight - {n},
                           requestsRejected := s.net.requestsRejected + {n}),
             trace := s.trace.(places := Moved(s.trace.places, RequestInFlight(n), RequestRejected(n))))
  }

  lemma RejectsKeeps(w: World, s: State, s': State, n: nat)
    requires Rejects(s, s', n) && PlacesInv(s) && ContentInv(w, s) && n in s.net.requestsInFlight
    ensures PlacesInv(s') && ContentInv(w, s')
  {
    hide JobsInv, DeliveriesInv, CallsInv, OwnersInv, QueuePlaces, DeliveryPlaces, CallPlaces, PacketOf;
    var p := s.trace.places;
    var to := RequestRejected(n);
    TimeoutCanMove(w, s, n);
    MovedOneToOne(p, RequestInFlight(n), to);
    MovedOwner(p, RequestInFlight(n), to);
    var owner' := Moved(p, RequestInFlight(n), to).owner;
    hide OneToOne, Moved;
    SameElsewherePlaces(s, owner');
    SameElsewhereContent(w, s, owner');
    SameDeliveryPlaces(s.net, s'.net, owner');
  }

  lemma RejectsInv(w: World, s: State, s': State, n: nat)
    requires Rejects(s, s', n) && Inv(w, s) && n in s.net.requestsInFlight
    ensures Inv(w, s')
  {
    hide GR.Inv, DR.Inv, L.Inv, PlacesInv, ContentInv, DrainInv, MarkInv, AgreeInv, GR.TotalRequested, Moved, CanMove;
    TimeoutCanMove(w, s, n);
    RejectsKeeps(w, s, s', n);
  }

  // ---- The gateway accepts a request ----

  ghost predicate PaidOnce(w: World, l: L.Ledger, l': L.Ledger) {
    L.Inv(w.addresses, l') && |l'.charges| == |l.charges| + 1
  }

  /** The request is queued under the next job id of its round, and the round is marked at drand. */
  ghost predicate Queues(w: World, s: State, s': State, n: nat, round: nat, e: G.LogEntry, job: G.Job) {
    && e.queued
    && GR.Accepted(s.gateway, s'.gateway, job.channel, round, e, job)
    && D.SetIncentivized(s.drand, w.addresses.gateway, round) == Ok(s'.drand)
    && PaidOnce(w, s.ledger, s'.ledger)
    && s'.proxies == s.proxies
    && s'.net == s.net.(requestsInFlight := s.net.requestsInFlight - {n})
    && (var id := CountAt(s.gateway.lastJobId, round) + 1;
        s'.trace == s.trace.(places := Moved(s.trace.places, RequestInFlight(n), Queued(round, id)),
                             jobOwner := s.trace.jobOwner[(round, id) := n]))
  }

  lemma QueuesCanMove(w: World, s: State, n: nat, round: nat)
    requires PlacesInv(s) && ContentInv(w, s) && n in s.net.requestsInFlight
    ensures CanMove(s.trace.places, RequestInFlight(n), Queued(round, CountAt(s.gateway.lastJobId, round) + 1))
  {
    hide JobsInv, DeliveriesInv, CallsInv, OwnersInv, DeliveryPlaces, CallPlaces, PacketOf;
    assert Queued(round, CountAt(s.gateway.lastJobId, round) + 1) !in s.trace.places.owner;
    assert RequestInFlight(n) in s.trace.places.owner;
  }

  lemma QueuesGone(queues: map<nat, seq<G.Job>>, lastJobId: map<nat, nat>, round: nat, job: G.Job, r: nat)
    requires |G.QueueAt(queues, round)| <= CountAt(lastJobId, round)
    ensures Gone(lastJobId[round := CountAt(lastJobId, round) + 1], queues[round := G.QueueAt(queues, round) + [job]], r)
            == Gone(lastJobId, queues, r)
  {
  }

  lemma QueuesQueuePlaces(queues: map<nat, seq<G.Job>>, lastJobId: map<nat, nat>, round: nat, job: G.Job, n: nat, p: Places)
    requires QueuePlaces(queues, lastJobId, p.owner) && |G.QueueAt(queues, round)| <= CountAt(lastJobId, round)
    requires CanMove(p, RequestInFlight(n), Queued(round, CountAt(lastJobId, round) + 1))
    ensures
      var last := CountAt(lastJobId, round) + 1;
      QueuePlaces(queues[round := G.QueueAt(queues, round) + [job]], lastJobId[round := last],
                  Moved(p, RequestInFlight(n), Queued(round, last)).owner)
  {
    var last := CountAt(lastJobId, round) + 1;
    var queues' := queues[round := G.QueueAt(queues, round) + [job]];
    var owner' := Moved(p, RequestInFlight(n), Queued(round, last)).owner;
    MovedOwner(p, RequestInFlight(n), Queued(round, last));
    hide Moved, CanMove;
    forall r: nat, id: nat
      ensures Queued(r, id) in owner' <==> Gone(lastJobId[round := last], queues', r) < id <= CountAt(lastJobId[round := last], r)
    {
      QueuesGone(queues, lastJobId, round, job, r);
      hide Gone;
      assert Queued(r, id) in p.owner <==> Gone(lastJobId, queues, r) < id <= CountAt(lastJobId, r);
      assert Gone(lastJobId, queues, r) <= CountAt(lastJobId, r) by { GoneBound(lastJobId, queues, r); }
    }
  }

  lemma GoneBound(lastJobId: map<nat, nat>, queues: map<nat, seq<G.Job>>, r: nat)
    ensures Gone(lastJobId, queues, r) <= CountAt(lastJobId, r)
  {
  }

  lemma QueuesJobs(w: World, queues: map<nat, seq<G.Job>>, lastJobId: map<nat, nat>, round: nat, requests: seq<Request>,
                   n: nat, p: Places)
    requires JobsInv(w, queues, lastJobId, requests, p.owner) && |G.QueueAt(queues, round)| <= CountAt(lastJobId, round)
    requires CanMove(p, RequestInFlight(n), Queued(round, CountAt(lastJobId, round) + 1))
    requires n < |requests| && p.owner[RequestInFlight(n)] == n && RoundAfter(requests[n].after) == round
    ensures
      var last := CountAt(lastJobId, round) + 1;
      JobsInv(w, queues[round := G.QueueAt(queues, round) + [JobOf(w, requests[n])]], lastJobId[round := last], requests,
              Moved(p, RequestInFlight(n), Queued(round, last)).owner)
  {
    var last := CountAt(lastJobId, round) + 1;
    var job := JobOf(w, requests[n]);
    hide JobOf;
    var queues' := queues[round := G.QueueAt(queues, round) + [job]];
    var owner' := Moved(p, RequestInFlight(n), Queued(round, last)).owner;
    MovedOwner(p, RequestInFlight(n), Queued(round, last));
    hide Moved, CanMove;
    forall r: nat, id: nat | Queued(r, id) in owner'
      ensures JobMatches(w, G.QueueAt(queues', r), id - 1 - Gone(lastJobId[round := last], queues', r), r, requests,
                         owner'[Queued(r, id)])
    {
      QueuesGone(queues, lastJobId, round, job, r);
      if !(r == round && id == last) {
        hide Gone;
        assert Queued(r, id) in p.owner;
        assert JobMatches(w, G.QueueAt(queues, r), id - 1 - Gone(lastJobId, queues, r), r, requests, p.owner[Queued(r, id)]);
      }
    }
  }

  /** Only one request left the network; deliveries and callbacks stay where they are. */
  ghost predicate SameDeliveriesAndCalls(owner: Owner, owner': Owner) {
    forall l: Loc :: l.DeliveryInFlight? || l.DeliveryExpired? || l.DeliveryRefused? || l.CalledBack? ==>
      (l in owner' <==> l in owner) && (l in owner ==> owner'[l] == owner[l])
  }

  lemma SameDeliveriesAndCallsKeep(s: State, net': Net, owner': Owner)
    requires DeliveryPlaces(s.net, s.trace.places.owner) && CallPlaces(s.net.calls, s.trace.places.owner)
    requires OwnersInv(s.trace.places.owner, s.trace.deliveryOwner, s.trace.callOwner)
    requires SameDeliveriesAndCalls(s.trace.places.owner, owner')
    requires net' == s.net.(requestsInFlight := net'.requestsInFlight)
    ensures DeliveryPlaces(net', owner') && CallPlaces(net'.calls, owner')
    ensures OwnersInv(owner', s.trace.deliveryOwner, s.trace.callOwner)
  {
  }

  lemma RequestLeaves(w: World, s: State, net': Net, n: nat, to: Loc)
    requires PlacesInv(s) && ContentInv(w, s)
    requires CanMove(s.trace.places, RequestInFlight(n), to) && (to.Queued? || to.DeliveryInFlight?)
    requires net'.packets == s.net.packets && net'.requestsInFlight == s.net.requestsInFlight - {n}
    requires net'.requestsExpired == s.net.requestsExpired && net'.requestsRejected == s.net.requestsRejected
    ensures
      var owner' := Moved(s.trace.places, RequestInFlight(n), to).owner;
      RequestPlaces(net', owner') && PacketsInv(w, net', s.trace.requests, owner')
  {
    hide JobsInv, DeliveriesInv, CallsInv, OwnersInv, QueuePlaces, DeliveryPlaces, CallPlaces, PacketOf, OneToOne;
    MovedOwner(s.trace.places, RequestInFlight(n), to);
    hide Moved, CanMove;
  }

  lemma QueuesPlaces(w: World, s: State, s': State, n: nat, round: nat, e: G.LogEntry, job: G.Job)
    requires Queues(w, s, s', n, round, e, job) && PlacesInv(s) && ContentInv(w, s) && GR.Inv(s.gateway)
    requires n in s.net.requestsInFlight
    ensures PlacesInv(s')
    ensures PacketsInv(w, s'.net, s'.trace.requests, s'.trace.places.owner)
    ensures OwnersInv(s'.trace.places.owner, s'.trace.deliveryOwner, s'.trace.callOwner)
  {
    hide JobsInv, PacketsInv, DeliveriesInv, CallsInv, OwnersInv, QueuePlaces, DeliveryPlaces, CallPlaces, RequestPlaces;
    hide GR.Inv, PaidOnce, D.SetIncentivized, OneToOne, Moved, CanMove;
    var p := s.trace.places;
    var to := Queued(round, CountAt(s.gateway.lastJobId, round) + 1);
    QueuesCanMove(w, s, n, round);
    QueueBound(s.gateway, round);
    MovedOneToOne(p, RequestInFlight(n), to);
    RequestLeaves(w, s, s'.net, n, to);
    QueuesQueuePlaces(s.gateway.queues, s.gateway.lastJobId, round, job, n, p);
    MovedOwner(p, RequestInFlight(n), to);
    SameDeliveriesAndCallsKeep(s, s'.net, s'.trace.places.owner);
  }

  lemma MarkKeeps(w: World, s: State, drand': D.State, round: nat)
    requires D.SetIncentivized(s.drand, w.addresses.gateway, round) == Ok(drand') && DR.Inv(w.crypto, s.drand)
    ensures DR.Inv(w.crypto, drand')
    ensures drand'.config == s.drand.config && drand'.beacons == s.drand.beacons && drand'.arrivals == s.drand.arrivals
    ensures drand'.incentivized == s.drand.incentivized[round := s.drand.config.minRound]
  {
    hide DR.SubmissionInv, DR.VerifiedInv, DR.RewardInv, DR.BotInv;
  }

  lemma QueuesDrain(queues: map<nat, seq<G.Job>>, lastJobId: map<nat, nat>, archive: map<nat, Bytes>,
                    beacons: map<nat, D.Beacon>, arrivals: map<nat, seq<D.Submission>>, round: nat, job: G.Job)
    requires DrainInv(queues, lastJobId, arrivals) && archive.Keys == beacons.Keys && DR.SubmissionInv(arrivals, beacons)
    requires round !in archive
    ensures DrainInv(queues[round := G.QueueAt(queues, round) + [job]],
                     lastJobId[round := CountAt(lastJobId, round) + 1], arrivals)
  {
    assert D.ArrivalsAt(arrivals, round) == [];
  }

  lemma QueuesInv(w: World, s: State, s': State, n: nat, round: nat, e: G.LogEntry, job: G.Job)
    requires Queues(w, s, s', n, round, e, job) && Inv(w, s) && n in s.net.requestsInFlight
    requires n < |s.trace.requests| && job == JobOf(w, s.trace.requests[n]) && RoundAfter(s.trace.requests[n].after) == round
    ensures Inv(w, s')
  {
    hide PlacesInv, OneToOne, JobsInv, PacketsInv, DeliveriesInv, CallsInv, OwnersInv, JobOf, PacketOf, Moved, CanMove;
    hide GR.QueueInv, GR.JobsInv, GR.CountInv, GR.CustomerInv, GR.TotalInv, GR.TotalRequested;
    hide DR.VerifiedInv, DR.RewardInv, DR.BotInv, DR.MarkInv, L.Inv, DrainInv, DR.SubmissionInv, D.SetIncentivized;
    QueuesPlaces(w, s, s', n, round, e, job);
    TimeoutCanMove(w, s, n);
    QueuesCanMove(w, s, n, round);
    QueueBound(s.gateway, round);
    QueuesJobs(w, s.gateway.queues, s.gateway.lastJobId, round, s.trace.requests, n, s.trace.places);
    MarkKeeps(w, s, s'.drand, round);
    QueuesDrain(s.gateway.queues, s.gateway.lastJobId, s.gateway.archive, s.drand.beacons, s.drand.arrivals, round, job);
    GR.AcceptedInv(s.gateway, s'.gateway, job.channel, round, e, job);
    GR.AcceptedTotals(s.gateway, s'.gateway, job.channel, round, e, job);
    assert s'.gateway.customers.Keys == s.gateway.customers.Keys;
  }

  lemma QueueBound(g: G.State, round: nat)
    requires GR.Inv(g)
    ensures |G.QueueAt(g.queues, round)| <= CountAt(g.lastJobId, round)
  {
  }

  /** The request's round is archived: the gateway answers with a delivery right away. */
  ghost predicate Answers(w: World, s: State, s': State, n: nat, round: nat, e: G.LogEntry, job: G.Job, time: Timestamp) {
    && !e.queued
    && GR.Accepted(s.gateway, s'.gateway, job.channel, round, e, job)
    && s'.drand == s.drand
    && PaidOnce(w, s.ledger, s'.ledger)
    && s'.proxies == s.proxies
    && round in s.gateway.archive
    && s'.net == SendAll(s.net, [G.BeaconDelivery(job, round, s.gateway.archive[round], time)])
                   .(requestsInFlight := s.net.requestsInFlight - {n})
    && s'.trace == s.trace.(places := Moved(s.trace.places, RequestInFlight(n), DeliveryInFlight(|s.net.deliveries|)),
                            deliveryOwner := s.trace.deliveryOwner + [n])
  }

  lemma AnswersCanMove(w: World, s: State, n: nat)
    requires PlacesInv(s) && ContentInv(w, s) && n in s.net.requestsInFlight
    ensures CanMove(s.trace.places, RequestInFlight(n), DeliveryInFlight(|s.net.deliveries|))
  {
    hide JobsInv, DeliveriesInv, CallsInv, OwnersInv, QueuePlaces, CallPlaces, PacketOf;
    assert DeliveryInFlight(|s.net.deliveries|) !in s.trace.places.owner;
    assert RequestInFlight(n) in s.trace.places.owner;
  }

  /** The deliveries base, base+1, .. are sent for the requests `senders`. */
  ghost predicate Ships(owner: Owner, owner': Owner, base: nat, senders: seq<nat>) {
    && (forall d: nat :: DeliveryInFlight(d) in owner' <==> DeliveryInFlight(d) in owner || base <= d < base + |senders|)
    && (forall d: nat :: DeliveryInFlight(d) in owner && d < base ==>
          DeliveryInFlight(d) in owner' && owner'[DeliveryInFlight(d)] == owner[DeliveryInFlight(d)])
    && (forall d: nat :: base <= d < base + |senders| ==>
          DeliveryInFlight(d) in owner' && owner'[DeliveryInFlight(d)] == senders[d - base])
    && (forall l: Loc :: l.DeliveryExpired? || l.DeliveryRefused? || l.CalledBack? ==>
          (l in owner' <==> l in owner) && (l in owner ==> owner'[l] == owner[l]))
  }

  lemma ShipsDeliveryPlaces(net: Net, net': Net, owner: Owner, owner': Owner, ds: seq<G.Delivery>, senders: seq<nat>)
    requires Ships(owner, owner', |net.deliveries|, senders) && |ds| == |senders|
    requires DeliveryPlaces(net, owner)
    requires net'.deliveries == net.deliveries + ds
    requires net'.deliveriesInFlight == net.deliveriesInFlight + NewIds(|net.deliveries|, |ds|)
    requires net'.deliveriesExpired == net.deliveriesExpired && net'.deliveriesRefused == net.deliveriesRefused
    ensures DeliveryPlaces(net', owner')
  {
  }

  lemma ShipsOwners(owner: Owner, owner': Owner, deliveryOwner: seq<nat>, callOwner: seq<nat>, calls: seq<DappCall>,
                    senders: seq<nat>)
    requires Ships(owner, owner', |deliveryOwner|, senders)
    requires OwnersInv(owner, deliveryOwner, callOwner) && CallPlaces(calls, owner)
    ensures OwnersInv(owner', deliveryOwner + senders, callOwner) && CallPlaces(calls, owner')
  {
  }

  lemma AnswersShips(p: Places, n: nat, base: nat)
    requires CanMove(p, RequestInFlight(n), DeliveryInFlight(base)) && p.owner[RequestInFlight(n)] == n
    ensures Ships(p.owner, Moved(p, RequestInFlight(n), DeliveryInFlight(base)).owner, base, [n])
  {
  }

  /** Everything queued stays queued. */
  lemma SameJobsKeep(w: World, s: State, owner': Owner)
    requires QueuePlaces(s.gateway.queues, s.gateway.lastJobId, s.trace.places.owner)
    requires JobsInv(w, s.gateway.queues, s.gateway.lastJobId, s.trace.requests, s.trace.places.owner)
    requires forall l: Loc :: l.Queued? ==>
      (l in owner' <==> l in s.trace.places.owner) && (l in owner' ==> owner'[l] == s.trace.places.owner[l])
    ensures QueuePlaces(s.gateway.queues, s.gateway.lastJobId, owner')
    ensures JobsInv(w, s.gateway.queues, s.gateway.lastJobId, s.trace.requests, owner')
  {
    hide JobMatches, Gone;
  }

  lemma AnswersPlaces(w: World, s: State, s': State, n: nat, round: nat, e: G.LogEntry, job: G.Job, time: Timestamp)
    requires Answers(w, s, s', n, round, e, job, time) && PlacesInv(s) && ContentInv(w, s)
    requires n in s.net.requestsInFlight
    ensures PlacesInv(s')
    ensures PacketsInv(w, s'.net, s'.trace.requests, s'.trace.places.owner)
    ensures JobsInv(w, s'.gateway.queues, s'.gateway.lastJobId, s'.trace.requests, s'.trace.places.owner)
    ensures OwnersInv(s'.trace.places.owner, s'.trace.deliveryOwner, s'.trace.callOwner)
  {
    hide JobsInv, PacketsInv, CallsInv, OwnersInv, QueuePlaces, DeliveryPlaces, CallPlaces, RequestPlaces, DeliveryAnswers;
    hide PaidOnce, G.BeaconDelivery, PacketOf;
    var p := s.trace.places;
    var to := DeliveryInFlight(|s.net.deliveries|);
    AnswersCanMove(w, s, n);
    TimeoutCanMove(w, s, n);
    MovedOneToOne(p, RequestInFlight(n), to);
    RequestLeaves(w, s, s'.net, n, to);
    MovedOwner(p, RequestInFlight(n), to);
    AnswersShips(p, n, |s.net.deliveries|);
    hide OneToOne, Moved, CanMove, Ships;
    ShipsDeliveryPlaces(s.net, s'.net, p.owner, s'.trace.places.owner,
      [G.BeaconDelivery(job, round, s.gateway.archive[round], time)], [n]);
    ShipsOwners(p.owner, s'.trace.places.owner, s.trace.deliveryOwner, s.trace.callOwner, s.net.calls, [n]);
    SameJobsKeep(w, s, s'.trace.places.owner);
  }

  lemma AnswersDeliveries(w: World, s: State, s': State, n: nat, round: nat, e: G.LogEntry, job: G.Job, time: Timestamp)
    requires Answers(w, s, s', n, round, e, job, time)
    requires DeliveriesInv(w, s.net.deliveries, s.trace.deliveryOwner, s.trace.requests, s.drand.beacons)
    requires AgreeInv(w.crypto, s.gateway.archive, s.drand.beacons)
    requires n < |s.trace.requests| && job == JobOf(w, s.trace.requests[n]) && RoundAfter(s.trace.requests[n].after) == round
    ensures DeliveriesInv(w, s'.net.deliveries, s'.trace.deliveryOwner, s'.trace.requests, s'.drand.beacons)
  {
    hide GR.Accepted, PaidOnce, Moved;
    var delivery := G.BeaconDelivery(job, round, s.gateway.archive[round], time);
    assert DeliveryAnswers(w, delivery, s.trace.requests[n], s.drand.beacons);
    hide DeliveryAnswers;
  }

  lemma AnswersCounts(w: World, s: State, s': State, n: nat, round: nat, e: G.LogEntry, job: G.Job, time: Timestamp)
    requires Answers(w, s, s', n, round, e, job, time) && CountsInv(s) && n in s.net.requestsInFlight
    requires forall d: nat :: d in s.net.deliveriesInFlight ==> d < |s.net.deliveries|
    ensures CountsInv(s')
  {
    GR.AcceptedTotals(s.gateway, s'.gateway, job.channel, round, e, job);
    hide GR.Accepted, L.Inv, Moved, GR.TotalRequested, GR.TotalQueued, G.BeaconDelivery;
    SendAllCounts(s.net, [G.BeaconDelivery(job, round, s.gateway.archive[round], time)]);
  }

  lemma SendAllCounts(net: Net, ds: seq<G.Delivery>)
    requires forall d: nat :: d in net.deliveriesInFlight ==> d < |net.deliveries|
    ensures |SendAll(net, ds).deliveriesInFlight| == |net.deliveriesInFlight| + |ds|
  {
    var ids := NewIds(|net.deliveries|, |ds|);
    assert net.deliveriesInFlight !! ids;
  }

  lemma SentIds(s: State)
    requires PlacesInv(s)
    ensures forall d: nat :: d in s.net.deliveriesInFlight ==> d < |s.net.deliveries|
  {
    hide OneToOne, RequestPlaces, QueuePlaces, CallPlaces;
  }

  lemma AnswersInv(w: World, s: State, s': State, n: nat, round: nat, e: G.LogEntry, job: G.Job, time: Timestamp)
    requires Answers(w, s, s', n, round, e, job, time) && Inv(w, s) && n in s.net.requestsInFlight
    requires n < |s.trace.requests| && job == JobOf(w, s.trace.requests[n]) && RoundAfter(s.trace.requests[n].after) == round
    ensures Inv(w, s')
  {
    hide PlacesInv, OneToOne, JobsInv, PacketsInv, DeliveriesInv, CallsInv, OwnersInv, JobOf, PacketOf, Moved, CanMove;
    hide GR.Inv, GR.TotalRequested, DR.Inv, L.Inv, DrainInv, CountsInv, SendAll, G.BeaconDelivery;
    SentIds(s);
    AnswersPlaces(w, s, s', n, round, e, job, time);
    AnswersDeliveries(w, s, s', n, round, e, job, time);
    AnswersCounts(w, s, s', n, round, e, job, time);
    GR.AcceptedInv(s.gateway, s'.gateway, job.channel, round, e, job);
    assert s'.gateway.customers.Keys == s.gateway.customers.Keys;
    assert s'.net.calls == s.net.calls by { SendAllCalls(s, s', w, n, round, e, job, time); }
  }

  lemma SendAllCalls(s: State, s': State, w: World, n: nat, round: nat, e: G.LogEntry, job: G.Job, time: Timestamp)
    requires Answers(w, s, s', n, round, e, job, time)
    ensures s'.net.calls == s.net.calls
  {
  }

  // ---- Relaying a request ----

  lemma PayMessage(g: G.State, env: Env, channel: string, relayer: Addr, after: Timestamp, origin: Bytes)
    requires G.ReceiveRequest(g, env, channel, relayer, after, origin).Ok?
    requires !G.ReceiveRequest(g, env, channel, relayer, after, origin).value.ack.ErrorAck?
    requires g.config.drand.Some?
    ensures
      var reply := G.ReceiveRequest(g, env, channel, relayer, after, origin).value;
      var round := RoundAfter(after);
      && |reply.msgs| == 2 && reply.msgs[1].Pay?
      && (reply.ack.RequestQueued? <==> round !in g.archive)
      && (reply.ack.RequestQueued? ==>
            && reply.msgs[0] == G.SetIncentivized(g.config.drand.value, round)
            && G.LastJobId(reply.state, round) == G.LastJobId(g, round) + 1)
      && (reply.ack.RequestProcessed? ==>
            reply.msgs[0] == G.SendBeacon(G.BeaconDelivery(G.RequestJob(channel, after, origin), round, g.archive[round], env.time)))
  {
  }

  /** Dispatching one router message and then the Pay message. */
  lemma DispatchTwo(w: World, s: State, msgs: seq<G.Msg>, time: Timestamp)
    requires forall i :: 0 <= i < |msgs| ==> Dispatchable(msgs[i])
    requires |msgs| == 2 && Dispatch(w, s, msgs, time).Ok?
    ensures DispatchOne(w, s, msgs[0], time).Ok?
    ensures Dispatch(w, s, msgs, time) == DispatchOne(w, DispatchOne(w, s, msgs[0], time).value, msgs[1], time)
  {
    hide DispatchOne;
    var s1 := DispatchOne(w, s, msgs[0], time).value;
    var rest := msgs[1..];
    assert rest[0] == msgs[1] && rest[1..] == [];
    assert Dispatch(w, s1, rest, time).Ok?;
    var s2 := DispatchOne(w, s1, msgs[1], time).value;
    assert Dispatch(w, s2, [], time) == Ok(s2);
  }

  lemma PayDispatched(w: World, s: State, m: G.Msg, time: Timestamp)
    requires L.Inv(w.addresses, s.ledger) && m.Pay? && Dispatchable(m) && DispatchOne(w, s, m, time).Ok?
    ensures
      var s' := DispatchOne(w, s, m, time).value;
      PaidOnce(w, s.ledger, s'.ledger) && s' == s.(ledger := s'.ledger)
  {
    hide L.Inv, L.Pay;
    L.PayInv(w.addresses, s.ledger, m.payment, m.burn, m.relayer, m.relayerShare, m.communityPool, time);
  }

  lemma ReplyDispatched(w: World, s: State, msgs: seq<G.Msg>, time: Timestamp)
    requires forall i :: 0 <= i < |msgs| ==> Dispatchable(msgs[i])
    requires |msgs| == 2 && msgs[1].Pay? && L.Inv(w.addresses, s.ledger) && Dispatch(w, s, msgs, time).Ok?
    ensures
      var s' := Dispatch(w, s, msgs, time).value;
      && (msgs[0].SendBeacon? ==>
            PaidOnce(w, s.ledger, s'.ledger) && s' == s.(net := SendAll(s.net, [msgs[0].delivery]), ledger := s'.ledger))
      && (msgs[0].SetIncentivized? ==>
            && PaidOnce(w, s.ledger, s'.ledger) && s' == s.(drand := s'.drand, ledger := s'.ledger)
            && D.SetIncentivized(s.drand, w.addresses.gateway, msgs[0].round) == Ok(s'.drand))
  {
    DispatchTwo(w, s, msgs, time);
    hide Dispatch, L.Pay, L.Inv, D.SetIncentivized, SendAll, PaidOnce;
    var s1 := DispatchOne(w, s, msgs[0], time).value;
    if !msgs[0].Pay? {
      PayDispatched(w, s1, msgs[1], time);
    }
  }

  /** An accepted request changes the protocol state by `Queues` or by `Answers`. */
  lemma AcceptedRelay(w: World, s: State, n: nat, relayer: Addr, env: Env)
    requires Inv(w, s) && n in s.net.requestsInFlight && n < |s.net.packets|
    requires s.net.packets[n].channel in s.gateway.customers
    requires
      var packet := s.net.packets[n];
      var r := G.ReceiveRequest(s.gateway, env, packet.channel, relayer, packet.after, packet.origin);
      r.Ok? && !r.value.ack.ErrorAck?
    ensures
      var packet := s.net.packets[n];
      var s' := Relayed(w, s, n, relayer, env);
      var round := RoundAfter(packet.after);
      var job := G.RequestJob(packet.channel, packet.after, packet.origin);
      var e := GR.EntryFor(s.gateway, env, packet.after, packet.origin);
      s' == s || Queues(w, s, s', n, round, e, job) || Answers(w, s, s', n, round, e, job, env.time)
  {
    hide PlacesInv, ContentInv, DrainInv, MarkInv, AgreeInv, CountsInv, GR.Inv, DR.Inv, L.Inv, ChannelsInv, Moved, NewIds;
    hide G.ReceiveRequest, GR.Accepted, Dispatch, G.BeaconDelivery, D.SetIncentivized, L.Pay, SourceId, RoundAfter, PaidOnce;
    var packet := s.net.packets[n];
    var reply := G.ReceiveRequest(s.gateway, env, packet.channel, relayer, packet.after, packet.origin).value;
    GR.ReceiveAccepts(s.gateway, env, packet.channel, relayer, packet.after, packet.origin);
    PayMessage(s.gateway, env, packet.channel, relayer, packet.after, packet.origin);
    ReplyMessagesDispatchable(s.gateway, env, packet.channel, relayer, packet.after, packet.origin);
    var s0 := s.(gateway := reply.state);
    if Dispatch(w, s0, reply.msgs, env.time).Ok? {
      ReplyDispatched(w, s0, reply.msgs, env.time);
    }
  }

  /** A relayed request is rejected, queued or answered, unless the transaction reverts. */
  ghost predicate RelayOutcome(w: World, s: State, s': State, n: nat, env: Env) {
    || s' == s
    || (&& n in s.net.requestsInFlight && n < |s.net.packets|
        && (var packet := s.net.packets[n];
            var round := RoundAfter(packet.after);
            var job := G.RequestJob(packet.channel, packet.after, packet.origin);
            var e := GR.EntryFor(s.gateway, env, packet.after, packet.origin);
            Rejects(s, s', n) || Queues(w, s, s', n, round, e, job) || Answers(w, s, s', n, round, e, job, env.time)))
  }

  lemma RelayedOutcome(w: World, s: State, n: nat, relayer: Addr, env: Env)
    requires Inv(w, s)
    ensures RelayOutcome(w, s, Relayed(w, s, n, relayer, env), n, env)
  {
    hide Inv, Queues, Answers, G.ReceiveRequest, Dispatch, G.LastJobId, Moved, RoundAfter;
    if n in s.net.requestsInFlight && n < |s.net.packets| && s.net.packets[n].channel in s.gateway.customers {
      var packet := s.net.packets[n];
      var r := G.ReceiveRequest(s.gateway, env, packet.channel, relayer, packet.after, packet.origin);
      if r.Ok? && r.value.ack.ErrorAck? {
        G.RequestErrorAck(s.gateway, env, packet.channel, relayer, packet.after, packet.origin);
        DispatchNothing(w, s, env.time);
      } else if r.Ok? {
        AcceptedRelay(w, s, n, relayer, env);
      }
    }
  }

  lemma RelayedInv(w: World, s: State, n: nat, relayer: Addr, env: Env)
    requires Inv(w, s)
    ensures Inv(w, Relayed(w, s, n, relayer, env))
  {
    hide PlacesInv, ContentInv, DrainInv, MarkInv, AgreeInv, CountsInv, GR.Inv, DR.Inv, L.Inv, Wired, Moved, ChannelsInv;
    hide Queues, Answers, Rejects, Relayed;
    var s' := Relayed(w, s, n, relayer, env);
    RelayedOutcome(w, s, n, relayer, env);
    if s' != s {
      var packet := s.net.packets[n];
      var round := RoundAfter(packet.after);
      var job := G.RequestJob(packet.channel, packet.after, packet.origin);
      var e := GR.EntryFor(s.gateway, env, packet.after, packet.origin);
      TimeoutCanMove(w, s, n);
      if Rejects(s, s', n) {
        RejectsInv(w, s, s', n);
      } else if Queues(w, s, s', n, round, e, job) {
        QueuesInv(w, s, s', n, round, e, job);
      } else {
        AnswersInv(w, s, s', n, round, e, job, env.time);
      }
    }
  }

  lemma DispatchNothing(w: World, s: State, time: Timestamp)
    ensures Dispatch(w, s, [], time) == Ok(s)
  {
  }

  // ---- A bot submits a round ----

  /** The submission is recorded, and the gateway archives the round and drains its queue. */
  ghost predicate Serves(w: World, s: State, s': State, env: Env, round: nat, randomness: Bytes, sub: D.Submission,
                         ds: seq<G.Delivery>)
  {
    var isVerifyingTx := |D.Arrivals(s.drand, round)| < 3;
    var k := G.DrainCount(s.gateway, round, isVerifyingTx);
    var gone := Gone(s.gateway.lastJobId, s.gateway.queues, round);
    && DR.Submits(w.crypto, s.drand, s'.drand, round, sub, randomness)
    && round <= U32_MAX
    && G.AddVerifiedRound(s.gateway, env, w.addresses.drand, round, randomness, isVerifyingTx)
       == Ok(G.NewDrandResult(s'.gateway, ds))
    && s'.net == SendAll(s.net, ds)
    && s'.trace == s.trace.(places := Drain(s.trace.places, round, gone, |s.net.deliveries|, k),
                            deliveryOwner := s.trace.deliveryOwner + DrainedOwners(s.trace.places, round, gone, k))
    && L.Inv(w.addresses, s'.ledger) && s'.ledger.charges == s.ledger.charges
    && s'.proxies == s.proxies
  }

  /** The gateway's part of a served round, as updates of its maps. */
  ghost predicate Drains(g: G.State, g': G.State, round: nat, k: nat, randomness: Bytes) {
    && k <= |G.QueueAt(g.queues, round)|
    && g'.archive == g.archive[round := randomness]
    && g'.lastJobId == g.lastJobId && g'.config == g.config && g'.customers == g.customers
    && (if k == 0 then g'.queues == g.queues else g'.queues == g.queues[round := G.QueueAt(g.queues, round)[k..]])
  }

  lemma VerifiedRoundDrains(g: G.State, env: Env, sender: Addr, round: nat, randomness: Bytes, isVerifyingTx: bool)
    requires G.AddVerifiedRound(g, env, sender, round, randomness, isVerifyingTx).Ok?
    ensures
      var r := G.AddVerifiedRound(g, env, sender, round, randomness, isVerifyingTx).value;
      var k := G.DrainCount(g, round, isVerifyingTx);
      && Drains(g, r.state, round, k, randomness)
      && round <= U32_MAX
      && |r.deliveries| == k == Min(|G.QueueAt(g.queues, round)|, G.Cap(isVerifyingTx))
      && (forall i :: 0 <= i < k ==>
            r.deliveries[i] == G.BeaconDelivery(G.QueueAt(g.queues, round)[i], round, randomness, env.time))
      && Sum<nat>(r.state.processed) == Sum<nat>(g.processed) + k
  {
    GR.DrainTotals(g, round, G.DrainCount(g, round, isVerifyingTx));
  }

  lemma DrainsGone(g: G.State, g': G.State, round: nat, k: nat, randomness: Bytes, r: nat)
    requires Drains(g, g', round, k, randomness) && |G.QueueAt(g.queues, round)| <= CountAt(g.lastJobId, round)
    ensures Gone(g'.lastJobId, g'.queues, r) == Gone(g.lastJobId, g.queues, r) + (if r == round then k else 0)
    ensures G.QueueAt(g'.queues, r) == if r == round then G.QueueAt(g.queues, r)[k..] else G.QueueAt(g.queues, r)
  {
  }

  lemma ServesCanDrain(s: State, round: nat, k: nat)
    requires QueuePlaces(s.gateway.queues, s.gateway.lastJobId, s.trace.places.owner)
    requires DeliveryPlaces(s.net, s.trace.places.owner)
    requires k <= |G.QueueAt(s.gateway.queues, round)| <= CountAt(s.gateway.lastJobId, round)
    ensures CanDrain(s.trace.places, round, Gone(s.gateway.lastJobId, s.gateway.queues, round), |s.net.deliveries|, k)
  {
  }

  lemma DrainShips(p: Places, round: nat, gone: nat, base: nat, k: nat)
    requires CanDrain(p, round, gone, base, k)
    ensures Ships(p.owner, Drain(p, round, gone, base, k).owner, base, DrainedOwners(p, round, gone, k))
  {
    var owner' := Drain(p, round, gone, base, k).owner;
    var senders := DrainedOwners(p, round, gone, k);
    forall d: nat
      ensures DeliveryInFlight(d) in owner' <==> DeliveryInFlight(d) in p.owner || base <= d < base + k
      ensures DeliveryInFlight(d) in p.owner && d < base ==> owner'[DeliveryInFlight(d)] == p.owner[DeliveryInFlight(d)]
      ensures base <= d < base + k ==> owner'[DeliveryInFlight(d)] == senders[d - base]
    {
      assert IsNew(DeliveryInFlight(d), base, k) <==> base <= d < base + k;
    }
  }

  lemma DrainQueuePlaces(g: G.State, g': G.State, round: nat, k: nat, randomness: Bytes, p: Places, base: nat)
    requires Drains(g, g', round, k, randomness) && |G.QueueAt(g.queues, round)| <= CountAt(g.lastJobId, round)
    requires QueuePlaces(g.queues, g.lastJobId, p.owner)
    requires CanDrain(p, round, Gone(g.lastJobId, g.queues, round), base, k)
    ensures QueuePlaces(g'.queues, g'.lastJobId, Drain(p, round, Gone(g.lastJobId, g.queues, round), base, k).owner)
  {
    var gone := Gone(g.lastJobId, g.queues, round);
    var owner' := Drain(p, round, gone, base, k).owner;
    forall r: nat, id: nat
      ensures Queued(r, id) in owner' <==> Gone(g'.lastJobId, g'.queues, r) < id <= CountAt(g'.lastJobId, r)
    {
      DrainsGone(g, g', round, k, randomness, r);
      hide Gone, Drain, CanDrain;
      assert Queued(r, id) in p.owner <==> Gone(g.lastJobId, g.queues, r) < id <= CountAt(g.lastJobId, r);
    }
  }

  lemma ShiftedMatch(w: World, q: seq<G.Job>, k: nat, index: int, round: nat, requests: seq<Request>, i: nat)
    requires JobMatches(w, q, index, round, requests, i) && k <= |q| && k <= index
    ensures JobMatches(w, q[k..], index - k, round, requests, i)
  {
    hide JobOf;
  }

  lemma DrainJobs(w: World, g: G.State, g': G.State, round: nat, k: nat, randomness: Bytes, requests: seq<Request>,
                  p: Places, base: nat)
    requires Drains(g, g', round, k, randomness) && |G.QueueAt(g.queues, round)| <= CountAt(g.lastJobId, round)
    requires JobsInv(w, g.queues, g.lastJobId, requests, p.owner)
    requires CanDrain(p, round, Gone(g.lastJobId, g.queues, round), base, k)
    ensures JobsInv(w, g'.queues, g'.lastJobId, requests, Drain(p, round, Gone(g.lastJobId, g.queues, round), base, k).owner)
  {
    hide Gone, Drain, CanDrain, JobMatches, Drains;
    var gone := Gone(g.lastJobId, g.queues, round);
    var owner' := Drain(p, round, gone, base, k).owner;
    forall r: nat, id: nat | Queued(r, id) in owner'
      ensures JobMatches(w, G.QueueAt(g'.queues, r), id - 1 - Gone(g'.lastJobId, g'.queues, r), r, requests,
                         owner'[Queued(r, id)])
    {
      DrainsGone(g, g', round, k, randomness, r);
      var index := id - 1 - Gone(g.lastJobId, g.queues, r);
      assert Queued(r, id) in p.owner && !InDrain(Queued(r, id), round, gone, k);
      assert owner'[Queued(r, id)] == p.owner[Queued(r, id)];
      assert JobMatches(w, G.QueueAt(g.queues, r), index, r, requests, p.owner[Queued(r, id)]);
      if r == round {
        MatchInRange(w, G.QueueAt(g.queues, r), index, r, requests, p.owner[Queued(r, id)]);
        DrainsBound(g, g', round, k, randomness);
        ShiftedMatch(w, G.QueueAt(g.queues, r), k, index, r, requests, p.owner[Queued(r, id)]);
      }
    }
  }

  lemma MatchInRange(w: World, q: seq<G.Job>, index: int, round: nat, requests: seq<Request>, i: nat)
    requires JobMatches(w, q, index, round, requests, i)
    ensures 0 <= index < |q|
  {
  }

  lemma DrainsBound(g: G.State, g': G.State, round: nat, k: nat, randomness: Bytes)
    requires Drains(g, g', round, k, randomness)
    ensures k <= |G.QueueAt(g.queues, round)|
  {
  }

  lemma DrainRequests(w: World, net: Net, net': Net, requests: seq<Request>, p: Places, round: nat, gone: nat, base: nat, k: nat)
    requires CanDrain(p, round, gone, base, k)
    requires RequestPlaces(net, p.owner) && PacketsInv(w, net, requests, p.owner)
    requires net' == net.(deliveries := net'.deliveries, deliveriesInFlight := net'.deliveriesInFlight)
    ensures RequestPlaces(net', Drain(p, round, gone, base, k).owner)
    ensures PacketsInv(w, net', requests, Drain(p, round, gone, base, k).owner)
  {
    hide CanDrain, Drain, PacketOf;
  }

  lemma ServesPlaces(w: World, s: State, s': State, env: Env, round: nat, randomness: Bytes, sub: D.Submission,
                     ds: seq<G.Delivery>)
    requires Serves(w, s, s', env, round, randomness, sub, ds) && PlacesInv(s) && ContentInv(w, s) && GR.Inv(s.gateway)
    ensures PlacesInv(s')
    ensures PacketsInv(w, s'.net, s'.trace.requests, s'.trace.places.owner)
    ensures JobsInv(w, s'.gateway.queues, s'.gateway.lastJobId, s'.trace.requests, s'.trace.places.owner)
    ensures OwnersInv(s'.trace.places.owner, s'.trace.deliveryOwner, s'.trace.callOwner)
  {
    hide GR.Inv, DR.Submits, L.Inv, JobsInv, PacketsInv, CallsInv, OwnersInv, QueuePlaces, DeliveryPlaces, CallPlaces;
    hide RequestPlaces, Ships, DeliveryAnswers, G.BeaconDelivery, OneToOne, Drain, CanDrain, Gone, NewIds;
    var isVerifyingTx := |D.Arrivals(s.drand, round)| < 3;
    var k := G.DrainCount(s.gateway, round, isVerifyingTx);
    var gone := Gone(s.gateway.lastJobId, s.gateway.queues, round);
    var base := |s.net.deliveries|;
    var p := s.trace.places;
    VerifiedRoundDrains(s.gateway, env, w.addresses.drand, round, randomness, isVerifyingTx);
    hide G.AddVerifiedRound, Drains, G.DrainCount;
    QueueBound(s.gateway, round);
    ServesCanDrain(s, round, k);
    DrainOneToOne(p, round, gone, base, k);
    DrainShips(p, round, gone, base, k);
    DrainQueuePlaces(s.gateway, s'.gateway, round, k, randomness, p, base);
    DrainJobs(w, s.gateway, s'.gateway, round, k, randomness, s.trace.requests, p, base);
    DrainRequests(w, s.net, s'.net, s.trace.requests, p, round, gone, base, k);
    ShipsDeliveryPlaces(s.net, s'.net, p.owner, s'.trace.places.owner, ds, DrainedOwners(p, round, gone, k));
    ShipsOwners(p.owner, s'.trace.places.owner, s.trace.deliveryOwner, s.trace.callOwner, s.net.calls,
      DrainedOwners(p, round, gone, k));
  }

  /** Beacons stay, so what answered a request keeps answering it. */
  lemma AnswersSurvive(w: World, s: State, beacons': map<nat, D.Beacon>)
    requires DeliveriesInv(w, s.net.deliveries, s.trace.deliveryOwner, s.trace.requests, s.drand.beacons)
    requires CallsInv(w, s.net.calls, s.trace.callOwner, s.trace.requests, s.drand.beacons)
    requires forall r <- s.drand.beacons :: r in beacons'
    ensures DeliveriesInv(w, s.net.deliveries, s.trace.deliveryOwner, s.trace.requests, beacons')
    ensures CallsInv(w, s.net.calls, s.trace.callOwner, s.trace.requests, beacons')
  {
    hide OriginOf, SourceId, PublishTime, RoundAfter;
  }

  lemma DrainedJobAnswers(w: World, job: G.Job, q: Request, round: nat, randomness: Bytes, time: Timestamp,
                          beacons: map<nat, D.Beacon>)
    requires job == JobOf(w, q) && RoundAfter(q.after) == round
    requires round in beacons && IsRandomnessOf(w.crypto, round, randomness)
    ensures DeliveryAnswers(w, G.BeaconDelivery(job, round, randomness, time), q, beacons)
  {
  }

  lemma ShippedAnswers(w: World, g: G.State, requests: seq<Request>, p: Places, round: nat, k: nat, randomness: Bytes,
                       time: Timestamp, beacons: map<nat, D.Beacon>, ds: seq<G.Delivery>, i: nat)
    requires JobsInv(w, g.queues, g.lastJobId, requests, p.owner) && QueuePlaces(g.queues, g.lastJobId, p.owner)
    requires i < k <= |G.QueueAt(g.queues, round)| <= CountAt(g.lastJobId, round) && |ds| == k
    requires ds[i] == G.BeaconDelivery(G.QueueAt(g.queues, round)[i], round, randomness, time)
    requires round in beacons && IsRandomnessOf(w.crypto, round, randomness)
    ensures
      var owners := DrainedOwners(p, round, Gone(g.lastJobId, g.queues, round), k);
      owners[i] < |requests| && DeliveryAnswers(w, ds[i], requests[owners[i]], beacons)
  {
    var gone := Gone(g.lastJobId, g.queues, round);
    var id := gone + 1 + i;
    assert Queued(round, id) in p.owner;
    var owner := p.owner[Queued(round, id)];
    assert JobMatches(w, G.QueueAt(g.queues, round), id - 1 - gone, round, requests, owner);
    DrainedJobAnswers(w, G.QueueAt(g.queues, round)[i], requests[owner], round, randomness, time, beacons);
  }

  lemma ServesDeliveries(w: World, s: State, s': State, env: Env, round: nat, randomness: Bytes, sub: D.Submission,
                         ds: seq<G.Delivery>)
    requires Serves(w, s, s', env, round, randomness, sub, ds) && PlacesInv(s) && ContentInv(w, s) && GR.Inv(s.gateway)
    requires DR.Inv(w.crypto, s.drand)
    ensures DeliveriesInv(w, s'.net.deliveries, s'.trace.deliveryOwner, s'.trace.requests, s'.drand.beacons)
    ensures CallsInv(w, s'.net.calls, s'.trace.callOwner, s'.trace.requests, s'.drand.beacons)
  {
    hide GR.Inv, DR.Inv, L.Inv, JobsInv, PacketsInv, CallsInv, OwnersInv, QueuePlaces, DeliveryPlaces, CallPlaces;
    hide RequestPlaces, G.BeaconDelivery, OneToOne, Drain, Gone, DR.Submits, NewIds, DeliveryAnswers;
    var isVerifyingTx := |D.Arrivals(s.drand, round)| < 3;
    var k := G.DrainCount(s.gateway, round, isVerifyingTx);
    var p := s.trace.places;
    VerifiedRoundDrains(s.gateway, env, w.addresses.drand, round, randomness, isVerifyingTx);
    hide G.AddVerifiedRound, Drains, G.DrainCount, G.Cap;
    QueueBound(s.gateway, round);
    DR.ForwardedIsVerified(w.crypto, s.drand, s'.drand, round, sub, randomness);
    SubmitsKeepsBeacons(w, s.drand, s'.drand, round, sub, randomness);
    AnswersSurvive(w, s, s'.drand.beacons);
    var gone := Gone(s.gateway.lastJobId, s.gateway.queues, round);
    var owners := DrainedOwners(p, round, gone, k);
    hide DrainedOwners;
    assert |owners| == k by { OwnersCount(p, round, gone, k); }
    assert k <= |G.QueueAt(s.gateway.queues, round)|;
    forall i: nat | i < k
      ensures owners[i] < |s.trace.requests| && DeliveryAnswers(w, ds[i], s.trace.requests[owners[i]], s'.drand.beacons)
    {
      ShippedAnswers(w, s.gateway, s.trace.requests, p, round, k, randomness, env.time, s'.drand.beacons, ds, i);
    }
    ExtendDeliveries(w, s.net.deliveries, s.trace.deliveryOwner, ds, owners, s.trace.requests, s'.drand.beacons);
  }

  lemma OwnersCount(p: Places, round: nat, gone: nat, k: nat)
    ensures |DrainedOwners(p, round, gone, k)| == k
  {
  }

  lemma ExtendDeliveries(w: World, deliveries: seq<G.Delivery>, deliveryOwner: seq<nat>, ds: seq<G.Delivery>,
                         owners: seq<nat>, requests: seq<Request>, beacons: map<nat, D.Beacon>)
    requires DeliveriesInv(w, deliveries, deliveryOwner, requests, beacons) && |ds| == |owners|
    requires forall i: nat :: i < |ds| ==> owners[i] < |requests| && DeliveryAnswers(w, ds[i], requests[owners[i]], beacons)
    ensures DeliveriesInv(w, deliveries + ds, deliveryOwner + owners, requests, beacons)
  {
    hide DeliveryAnswers;
  }

  lemma SubmitsKeepsBeacons(w: World, d: D.State, d': D.State, round: nat, sub: D.Submission, randomness: Bytes)
    requires DR.Submits(w.crypto, d, d', round, sub, randomness)
    ensures d'.beacons.Keys == d.beacons.Keys + {round}
    ensures d'.incentivized == d.incentivized && d'.config == d.config
    ensures d'.arrivals == d.arrivals[round := D.ArrivalsAt(d.arrivals, round) + [sub]]
  {
  }

  lemma ServesAgree(c: Scheme, archive: map<nat, Bytes>, beacons: map<nat, D.Beacon>, beacons': map<nat, D.Beacon>,
                    round: nat, randomness: Bytes)
    requires AgreeInv(c, archive, beacons) && beacons'.Keys == beacons.Keys + {round}
    requires IsRandomnessOf(c, round, randomness)
    ensures AgreeInv(c, archive[round := randomness], beacons')
  {
  }

  /** One more submission drains exactly what the budget grows by, or everything that is left. */
  lemma ServesDrain(g: G.State, g': G.State, round: nat, randomness: Bytes, arrivals: map<nat, seq<D.Submission>>,
                    sub: D.Submission)
    requires DrainInv(g.queues, g.lastJobId, arrivals)
    requires
      var n := |D.ArrivalsAt(arrivals, round)|;
      Drains(g, g', round, Min(|G.QueueAt(g.queues, round)|, G.Cap(n < 3)), randomness)
    ensures DrainInv(g'.queues, g'.lastJobId, arrivals[round := D.ArrivalsAt(arrivals, round) + [sub]])
  {
    var n := |D.ArrivalsAt(arrivals, round)|;
    var last := CountAt(g.lastJobId, round);
    assert Budget(n + 1) == Budget(n) + G.Cap(n < 3);
    assert |G.QueueAt(g.queues, round)| == last - Min(last, Budget(n));
    var arrivals' := arrivals[round := D.ArrivalsAt(arrivals, round) + [sub]];
    forall r: nat
      ensures |G.QueueAt(g'.queues, r)|
              == CountAt(g'.lastJobId, r) - Min(CountAt(g'.lastJobId, r), Budget(|D.ArrivalsAt(arrivals', r)|))
    {
      assert |G.QueueAt(g.queues, r)|
             == CountAt(g.lastJobId, r) - Min(CountAt(g.lastJobId, r), Budget(|D.ArrivalsAt(arrivals, r)|));
      if r == round {
        hide Budget;
        assert |D.ArrivalsAt(arrivals', r)| == n + 1;
      }
    }
  }

  lemma ServesGateway(w: World, s: State, s': State, env: Env, round: nat, randomness: Bytes, sub: D.Submission,
                      ds: seq<G.Delivery>)
    requires Serves(w, s, s', env, round, randomness, sub, ds) && Inv(w, s)
    ensures GR.Inv(s'.gateway) && DR.Inv(w.crypto, s'.drand)
    ensures AgreeInv(w.crypto, s'.gateway.archive, s'.drand.beacons)
    ensures DrainInv(s'.gateway.queues, s'.gateway.lastJobId, s'.drand.arrivals)
    ensures MarkInv(s'.gateway.lastJobId, s'.drand.incentivized)
    ensures s'.gateway.config == s.gateway.config && s'.drand.config == s.drand.config
    ensures s'.gateway.customers == s.gateway.customers
  {
    hide GR.Inv, DR.Inv, L.Inv, PlacesInv, ContentInv, DrainInv, CountsInv, G.BeaconDelivery, Drain, Gone, NewIds;
    hide DR.Submits, MarkInv, AgreeInv, ChannelsInv;
    var isVerifyingTx := |D.Arrivals(s.drand, round)| < 3;
    VerifiedRoundDrains(s.gateway, env, w.addresses.drand, round, randomness, isVerifyingTx);
    GR.AddVerifiedRoundInv(s.gateway, env, w.addresses.drand, round, randomness, isVerifyingTx);
    hide G.AddVerifiedRound;
    DR.ForwardedIsVerified(w.crypto, s.drand, s'.drand, round, sub, randomness);
    DR.SubmitsInv(w.crypto, s.drand, s'.drand, round, sub, randomness);
    SubmitsKeepsBeacons(w, s.drand, s'.drand, round, sub, randomness);
    ServesAgree(w.crypto, s.gateway.archive, s.drand.beacons, s'.drand.beacons, round, randomness);
    ServesDrain(s.gateway, s'.gateway, round, randomness, s.drand.arrivals, sub);
  }

  lemma ServesCounts(w: World, s: State, s': State, env: Env, round: nat, randomness: Bytes, sub: D.Submission,
                     ds: seq<G.Delivery>)
    requires Serves(w, s, s', env, round, randomness, sub, ds) && CountsInv(s)
    requires forall d: nat :: d in s.net.deliveriesInFlight ==> d < |s.net.deliveries|
    requires s'.gateway.customers == s.gateway.customers
    ensures CountsInv(s')
  {
    hide DR.Submits, L.Inv, Drain, Gone, GR.TotalRequested, G.BeaconDelivery, G.AddVerifiedRound, DrainedOwners, NewIds;
    VerifiedRoundDrains(s.gateway, env, w.addresses.drand, round, randomness, |D.Arrivals(s.drand, round)| < 3);
    hide G.DrainCount, Drains, G.Cap;
    SendAllCounts(s.net, ds);
  }

  lemma ServesInv(w: World, s: State, s': State, env: Env, round: nat, randomness: Bytes, sub: D.Submission,
                  ds: seq<G.Delivery>)
    requires Serves(w, s, s', env, round, randomness, sub, ds) && Inv(w, s)
    ensures Inv(w, s')
  {
    hide GR.Inv, DR.Inv, L.Inv, PlacesInv, DrainInv, CountsInv, Drain, Gone, NewIds, DR.Submits, MarkInv, AgreeInv;
    hide JobsInv, PacketsInv, DeliveriesInv, CallsInv, OwnersInv, G.AddVerifiedRound;
    SentIds(s);
    ServesPlaces(w, s, s', env, round, randomness, sub, ds);
    ServesDeliveries(w, s, s', env, round, randomness, sub, ds);
    ServesGateway(w, s, s', env, round, randomness, sub, ds);
    ServesCounts(w, s, s', env, round, randomness, sub, ds);
  }

  /** An accepted submission, for some randomness, earned points and deliveries. */
  ghost predicate SubmitOutcome(w: World, s: State, s': State, env: Env, bot: Addr, round: nat) {
    s' == s
    || exists randomness: Bytes, points: nat, ds: seq<G.Delivery> ::
         Serves(w, s, s', env, round, randomness, D.Submission(bot, env, points), ds)
  }

  lemma SubmittedOutcome(w: World, s: State, env: Env, bot: Addr, fundsSent: bool, round: nat, signature: Bytes)
    requires Inv(w, s)
    ensures SubmitOutcome(w, s, Submitted(w, s, env, bot, fundsSent, round, signature), env, bot, round)
  {
    hide PlacesInv, ContentInv, DrainInv, MarkInv, AgreeInv, CountsInv, GR.Inv, DR.Inv, L.Inv, ChannelsInv;
    hide D.AddRound, L.PayBot, G.AddVerifiedRound, DR.Submits, SendAll, Drain, Gone, DrainedOwners, G.DrainCount;
    var s' := Submitted(w, s, env, bot, fundsSent, round, signature);
    var balance := L.At(s.ledger.bank.balance, (w.addresses.drand, s.drand.config.incentiveDenom));
    var r := D.AddRound(w.crypto, s.drand, env, bot, fundsSent, round, signature, balance);
    if r.Ok? {
      var randomness := w.crypto.derive(signature);
      DR.AddRoundSubmits(w.crypto, s.drand, env, bot, fundsSent, round, signature, balance);
      var isVerifyingTx := |D.Arrivals(s.drand, round)| < 3;
      var g := G.AddVerifiedRound(s.gateway, env, w.addresses.drand, round, randomness, isVerifyingTx);
      var paid := L.PayBot(w.addresses, s.ledger, bot, r.value.payout);
      if g.Ok? && paid.Ok? {
        VerifiedRoundDrains(s.gateway, env, w.addresses.drand, round, randomness, isVerifyingTx);
        L.PayBotInv(w.addresses, s.ledger, bot, r.value.payout);
        assert Serves(w, s, s', env, round, randomness, D.Submission(bot, env, r.value.points), g.value.deliveries);
      }
    }
  }

  lemma SubmittedInv(w: World, s: State, env: Env, bot: Addr, fundsSent: bool, round: nat, signature: Bytes)
    requires Inv(w, s)
    ensures Inv(w, Submitted(w, s, env, bot, fundsSent, round, signature))
  {
    hide Inv, Serves, Submitted;
    var s' := Submitted(w, s, env, bot, fundsSent, round, signature);
    SubmittedOutcome(w, s, env, bot, fundsSent, round, signature);
    if s' != s {
      var randomness: Bytes, points: nat, ds: seq<G.Delivery> :|
        Serves(w, s, s', env, round, randomness, D.Submission(bot, env, points), ds);
      ServesInv(w, s, s', env, round, randomness, D.Submission(bot, env, points), ds);
    }
  }

  // ---- Administration, transfers and foreign calls ----

  lemma ConnectedInv(w: World, s: State, channel: string, time: Timestamp, proxy: P.State)
    requires Inv(w, s)
    ensures Inv(w, Connected(w, s, channel, time, proxy))
  {
    hide PlacesInv, ContentInv, DrainInv, MarkInv, AgreeInv, GR.Inv, DR.Inv, L.Inv, GR.TotalRequested, L.Fund;
    var s' := Connected(w, s, channel, time, proxy);
    if s' != s {
      var payment := w.addresses.paymentOf(channel);
      GR.ConnectInv(s.gateway, channel, payment);
      GR.TotalRequestedUpdate(s.gateway.customers, channel, G.Customer(payment, 0));
      L.FundInv(w.addresses, s.ledger, payment, s.gateway.config.paymentInitialFunds);
      ConnectedKeeps(w, s, channel, time, proxy);
    }
  }

  lemma ConnectedKeeps(w: World, s: State, channel: string, time: Timestamp, proxy: P.State)
    requires PlacesInv(s) && ContentInv(w, s)
    ensures
      var s' := Connected(w, s, channel, time, proxy);
      PlacesInv(s') && ContentInv(w, s')
  {
    hide OneToOne, RequestPlaces, QueuePlaces, DeliveryPlaces, CallPlaces, L.Fund;
    hide PacketsInv, JobsInv, DeliveriesInv, CallsInv, OwnersInv;
  }

  /** Nothing the protocol invariant is about changes at the gateway when its parameters are set. */
  lemma SetGatewayParametersInv(w: World, s: State, price: Coin, paymentInitialFunds: Option<Coin>)
    requires Inv(w, s)
    ensures Inv(w, Step(w, s, SetGatewayParameters(price, paymentInitialFunds)))
  {
    hide OneToOne, RequestPlaces, QueuePlaces, DeliveryPlaces, CallPlaces, DR.Inv, L.Inv, DrainInv, MarkInv, AgreeInv;
    hide PacketsInv, JobsInv, DeliveriesInv, CallsInv, OwnersInv, GR.QueueInv, GR.JobsInv, GR.CountInv, GR.CustomerInv;
    hide GR.TotalRequested, GR.TotalQueued;
  }

  /** Changes of the drand contract that leave arrivals, beacons, marks and the gateway address alone. */
  lemma DrandAdminInv(w: World, s: State, drand': D.State)
    requires Inv(w, s) && DR.Inv(w.crypto, drand')
    requires drand'.config.gateway == s.drand.config.gateway && drand'.arrivals == s.drand.arrivals
    requires drand'.beacons == s.drand.beacons && drand'.incentivized == s.drand.incentivized
    ensures Inv(w, s.(drand := drand'))
  {
    hide OneToOne, RequestPlaces, QueuePlaces, DeliveryPlaces, CallPlaces, DR.Inv, L.Inv, DrainInv, MarkInv, AgreeInv;
    hide PacketsInv, JobsInv, DeliveriesInv, CallsInv, OwnersInv, GR.Inv, GR.TotalRequested;
  }

  lemma ConfigureProxyInv(w: World, s: State, channel: string, proxy: P.State)
    requires Inv(w, s) && channel in s.proxies
    ensures Inv(w, s.(proxies := s.proxies[channel := proxy]))
  {
    hide OneToOne, RequestPlaces, QueuePlaces, DeliveryPlaces, CallPlaces, DR.Inv, L.Inv, DrainInv, MarkInv, AgreeInv;
    hide PacketsInv, JobsInv, DeliveriesInv, CallsInv, OwnersInv, GR.Inv, GR.TotalRequested;
    assert s.proxies[channel := proxy].Keys == s.proxies.Keys;
  }

  lemma LedgerStepInv(w: World, s: State, ledger': L.Ledger)
    requires Inv(w, s) && L.Inv(w.addresses, ledger') && ledger'.charges == s.ledger.charges
    ensures Inv(w, s.(ledger := ledger'))
  {
    hide OneToOne, RequestPlaces, QueuePlaces, DeliveryPlaces, CallPlaces, DR.Inv, L.Inv, DrainInv, MarkInv, AgreeInv;
    hide PacketsInv, JobsInv, DeliveriesInv, CallsInv, OwnersInv, GR.Inv, GR.TotalRequested;
  }

  /** Nobody but the drand contract can feed the gateway, and nobody but the gateway can mark rounds. */
  lemma ForeignCallsFail(w: World, s: State, env: Env, sender: Addr, round: nat, randomness: Bytes, isVerifyingTx: bool)
    requires Wired(w, s.gateway.config, s.drand.config)
    ensures Step(w, s, ForeignVerifiedRound(env, sender, round, randomness, isVerifyingTx)) == s
    ensures Step(w, s, ForeignMark(sender, round)) == s
  {
  }

  lemma ForeignInv(w: World, s: State, e: Event)
    requires Inv(w, s) && (e.ForeignVerifiedRound? || e.ForeignMark?)
    ensures Inv(w, Step(w, s, e))
  {
    assert Wired(w, s.gateway.config, s.drand.config);
    hide Inv, Step;
    match e
    case ForeignVerifiedRound(env, sender, round, randomness, isVerifyingTx) =>
      ForeignCallsFail(w, s, env, sender, round, randomness, isVerifyingTx);
    case ForeignMark(sender, round) => ForeignCallsFail(w, s, Env(0, 0, None), sender, round, [], false);
  }

  lemma DrandEventInv(w: World, s: State, e: Event)
    requires Inv(w, s) && (e.SetDrandParameters? || e.RegisterBot? || e.SetAllowlist?)
    ensures Inv(w, Step(w, s, e))
  {
    hide Inv, DR.Inv, Asked, Relayed, Submitted, Delivered, RequestTimedOut, DeliveryTimedOut, Connected, Forwarded;
    DrandOk(w, s);
    var drand' := Step(w, s, e).drand;
    if !e.RegisterBot? {
      SameRecordsInv(w.crypto, s.drand, drand');
    } else if D.RegisterBot(s.drand, e.bot, e.moniker).Ok? {
      DR.RegisterInv(w.crypto, s.drand, e.bot, e.moniker);
    }
    assert Step(w, s, e) == s.(drand := drand');
    DrandAdminInv(w, s, drand');
  }

  lemma DrandOk(w: World, s: State)
    requires Inv(w, s)
    ensures DR.Inv(w.crypto, s.drand)
  {
    hide PlacesInv, ContentInv, DrainInv, MarkInv, AgreeInv, CountsInv, GR.Inv, L.Inv, ChannelsInv, DR.Inv;
  }

  lemma SameRecordsInv(c: Scheme, d: D.State, d': D.State)
    requires DR.Inv(c, d) && d'.arrivals == d.arrivals && d'.beacons == d.beacons && d'.bots == d.bots
    requires d'.incentivized == d.incentivized
    ensures DR.Inv(c, d')
  {
    hide DR.SubmissionInv, DR.VerifiedInv, DR.RewardInv, DR.BotInv, DR.MarkInv;
  }

  lemma LedgerOk(w: World, s: State)
    requires Inv(w, s)
    ensures L.Inv(w.addresses, s.ledger)
  {
    hide PlacesInv, ContentInv, DrainInv, MarkInv, AgreeInv, CountsInv, GR.Inv, DR.Inv, L.Inv, Wired, ChannelsInv;
  }

  lemma LedgerEventInv(w: World, s: State, e: Event)
    requires Inv(w, s) && (e.Arrive? || e.Send? || e.BurnAtSink? || e.BurnSinkBalance?)
    ensures Inv(w, Step(w, s, e))
  {
    hide Inv, L.Inv, L.Send, L.BurnFrom, L.BurnSinkBalance, L.IsContract;
    hide Asked, Relayed, Submitted, Delivered, RequestTimedOut, DeliveryTimedOut, Connected, Forwarded;
    LedgerOk(w, s);
    match e {
      case Arrive(account, amount) =>
        L.DepositInv(w.addresses, s.ledger, account, amount);
        LedgerStepInv(w, s, L.Deposit(s.ledger, account, amount));
      case Send(from, to, coin) =>
        var r := L.Send(s.ledger, from, to, coin);
        if !L.IsContract(w.addresses, from) && r.Ok? {
          L.SendInv(w.addresses, s.ledger, from, to, coin);
          LedgerStepInv(w, s, r.value);
        }
      case BurnAtSink(burner, funds, time) =>
        var r := L.BurnFrom(w.addresses, s.ledger, burner, funds, time);
        if !L.IsContract(w.addresses, burner) && r.Ok? {
          L.BurnFromInv(w.addresses, s.ledger, burner, funds, time);
          LedgerStepInv(w, s, r.value);
        }
      case BurnSinkBalance(funds, time) =>
        var r := L.BurnSinkBalance(w.addresses, s.ledger, funds, time);
        if r.Ok? {
          L.BurnSinkBalanceInv(w.addresses, s.ledger, funds, time);
          LedgerStepInv(w, s, r.value);
        }
    }
  }

  lemma AskedInv(w: World, s: State, channel: string, time: Timestamp, sender: Addr, funds: seq<Coin>,
                 requestedAfter: Option<Timestamp>, jobId: string)
    requires Inv(w, s)
    ensures Inv(w, Asked(w, s, channel, time, sender, funds, requestedAfter, jobId))
  {
    hide Inv, Asks;
    var s' := Asked(w, s, channel, time, sender, funds, requestedAfter, jobId);
    if s' != s {
      AskedAsks(w, s, channel, time, sender, funds, requestedAfter, jobId);
      var r := P.GetRandomness(w.codec, s.proxies[channel], time, sender, funds, requestedAfter, jobId);
      AsksInv(w, s, s', Request(channel, sender, jobId, r.value.packet.after), r.value.state);
    }
  }

  predicate IsAdministration(e: Event) {
    || e.SetGatewayParameters? || e.SetDrandParameters? || e.RegisterBot? || e.SetAllowlist? || e.ConfigureProxy?
    || e.Arrive? || e.Send? || e.BurnAtSink? || e.BurnSinkBalance?
  }

  lemma AdministrationInv(w: World, s: State, e: Event)
    requires Inv(w, s) && IsAdministration(e)
    ensures Inv(w, Step(w, s, e))
  {
    hide Inv;
    match e {
      case SetGatewayParameters(price, paymentInitialFunds) => SetGatewayParametersInv(w, s, price, paymentInitialFunds);
      case ConfigureProxy(channel, proxy) =>
        if channel in s.proxies {
          ConfigureProxyInv(w, s, channel, proxy.(gatewayChannel := s.proxies[channel].gatewayChannel));
        }
      case SetDrandParameters(_, _, _) =>
        hide Step;
        DrandEventInv(w, s, e);
      case RegisterBot(_, _) =>
        hide Step;
        DrandEventInv(w, s, e);
      case SetAllowlist(_) =>
        hide Step;
        DrandEventInv(w, s, e);
      case _ =>
        hide Step;
        LedgerEventInv(w, s, e);
    }
  }

  // ---- Every event, every run ----

  lemma StepInv(w: World, s: State, e: Event)
    requires Inv(w, s) && P.Faithful(w.codec)
    ensures Inv(w, Step(w, s, e))
  {
    hide Inv, Asked, Relayed, Submitted, Delivered, RequestTimedOut, DeliveryTimedOut, Connected, Forwarded, P.Faithful;
    match e {
      case Connect(channel, time, proxy) => ConnectedInv(w, s, channel, time, proxy);
      case AskForRandomness(channel, time, sender, funds, requestedAfter, jobId) =>
        AskedInv(w, s, channel, time, sender, funds, requestedAfter, jobId);
      case RelayRequest(packet, relayer, env) => RelayedInv(w, s, packet, relayer, env);
      case TimeoutRequest(packet) => RequestTimedOutInv(w, s, packet);
      case SubmitRound(env, bot, fundsSent, round, signature) => SubmittedInv(w, s, env, bot, fundsSent, round, signature);
      case RelayDelivery(delivery) => DeliveredInv(w, s, delivery);
      case TimeoutDelivery(delivery) => DeliveryTimedOutInv(w, s, delivery);
      case ForeignVerifiedRound(_, _, _, _, _) => ForeignInv(w, s, e);
      case ForeignMark(_, _) => ForeignInv(w, s, e);
      case _ => AdministrationInv(w, s, e);
    }
  }

  lemma {:induction false} RunInv(w: World, s: State, es: seq<Event>)
    requires Inv(w, s) && P.Faithful(w.codec)
    ensures Inv(w, Run(w, s, es))
    decreases |es|
  {
    hide Inv, P.Faithful, Step;
    if es != [] {
      StepInv(w, s, es[0]);
      RunInv(w, Step(w, s, es[0]), es[1..]);
    }
  }
}
