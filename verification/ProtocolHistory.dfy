/** What became of every job id ever handed out and of every delivery ever sent, over all runs. */
module ProtocolHistory {
  import opened Base
  import opened Rounds
  import opened Traces
  import opened JobStore
  import opened Protocol
  import opened ProtocolInvariant
  import opened ProtocolSteps
  import G = GatewayModel
  import GR = GatewayRuns
  import D = DrandModel
  import DR = DrandRuns
  import P = ProxyModel
  import L = Ledger

  type JobOwner = map<(nat, nat), nat>

  /** Job `id` of a round belongs to one request of that round, which is queued under this id or has a delivery. */
  ghost predicate JobKept(gone: nat, last: nat, requests: seq<Request>, owner: Owner, deliveryOwner: seq<nat>,
                          jobOwner: JobOwner, r: nat, id: nat)
  {
    && ((r, id) in jobOwner <==> 1 <= id <= last)
    && ((r, id) in jobOwner ==>
          var i := jobOwner[(r, id)];
          && i < |requests| && RoundAfter(requests[i].after) == r
          && (id > gone ==> Queued(r, id) in owner && owner[Queued(r, id)] == i)
          && (id <= gone ==> i in deliveryOwner))
  }

  ghost predicate JobHistory(g: G.State, requests: seq<Request>, owner: Owner, deliveryOwner: seq<nat>, jobOwner: JobOwner) {
    forall r: nat, id: nat ::
      JobKept(Gone(g.lastJobId, g.queues, r), CountAt(g.lastJobId, r), requests, owner, deliveryOwner, jobOwner, r, id)
  }

  /** A delivery travels, expired, or led to a callback of its request. */
  ghost predicate DeliveryHistory(owner: Owner, deliveryOwner: seq<nat>, callOwner: seq<nat>, callDelivery: seq<nat>) {
    && |callDelivery| == |callOwner|
    && (forall k :: 0 <= k < |callOwner| ==>
          callDelivery[k] < |deliveryOwner| && callOwner[k] == deliveryOwner[callDelivery[k]])
    && (forall d: nat :: d < |deliveryOwner| ==>
          DeliveryInFlight(d) in owner || DeliveryExpired(d) in owner || d in callDelivery)
  }

  ghost predicate HistoryInv(s: State) {
    && JobHistory(s.gateway, s.trace.requests, s.trace.places.owner, s.trace.deliveryOwner, s.trace.jobOwner)
    && DeliveryHistory(s.trace.places.owner, s.trace.deliveryOwner, s.trace.callOwner, s.trace.callDelivery)
  }

  // ---- Jobs ----

  ghost predicate SameJobs(owner: Owner, owner': Owner) {
    forall l: Loc :: l.Queued? ==> (l in owner' <==> l in owner) && (l in owner ==> owner'[l] == owner[l])
  }

  lemma JobFrame(g: G.State, g': G.State, requests: seq<Request>, requests': seq<Request>, owner: Owner, owner': Owner,
                 deliveryOwner: seq<nat>, deliveryOwner': seq<nat>, jobOwner: JobOwner)
    requires JobHistory(g, requests, owner, deliveryOwner, jobOwner) && SameJobs(owner, owner')
    requires g'.lastJobId == g.lastJobId && g'.queues == g.queues
    requires requests <= requests' && deliveryOwner <= deliveryOwner'
    ensures JobHistory(g', requests', owner', deliveryOwner', jobOwner)
  {
    hide RoundAfter, Gone;
    forall r: nat, id: nat
      ensures JobKept(Gone(g'.lastJobId, g'.queues, r), CountAt(g'.lastJobId, r), requests', owner', deliveryOwner',
                      jobOwner, r, id)
    {
      assert JobKept(Gone(g.lastJobId, g.queues, r), CountAt(g.lastJobId, r), requests, owner, deliveryOwner, jobOwner, r, id);
    }
  }

  lemma JobEnqueued(g: G.State, g': G.State, round: nat, job: G.Job, requests: seq<Request>, owner: Owner, owner': Owner,
                    deliveryOwner: seq<nat>, jobOwner: JobOwner, n: nat)
    requires JobHistory(g, requests, owner, deliveryOwner, jobOwner)
    requires |G.QueueAt(g.queues, round)| <= CountAt(g.lastJobId, round)
    requires g'.lastJobId == g.lastJobId[round := CountAt(g.lastJobId, round) + 1]
    requires g'.queues == g.queues[round := G.QueueAt(g.queues, round) + [job]]
    requires n < |requests| && RoundAfter(requests[n].after) == round
    requires
      var to := Queued(round, CountAt(g.lastJobId, round) + 1);
      && to in owner' && owner'[to] == n
      && (forall l: Loc :: l.Queued? && l != to ==> (l in owner' <==> l in owner) && (l in owner ==> owner'[l] == owner[l]))
    ensures JobHistory(g', requests, owner', deliveryOwner, jobOwner[(round, CountAt(g.lastJobId, round) + 1) := n])
  {
    hide RoundAfter;
    var jobOwner' := jobOwner[(round, CountAt(g.lastJobId, round) + 1) := n];
    forall r: nat, id: nat
      ensures JobKept(Gone(g'.lastJobId, g'.queues, r), CountAt(g'.lastJobId, r), requests, owner', deliveryOwner,
                      jobOwner', r, id)
    {
      assert JobKept(Gone(g.lastJobId, g.queues, r), CountAt(g.lastJobId, r), requests, owner, deliveryOwner, jobOwner, r, id);
      QueuesGone(g.queues, g.lastJobId, round, job, r);
    }
  }

  lemma JobsDrained(g: G.State, g': G.State, round: nat, k: nat, randomness: Bytes, requests: seq<Request>, p: Places,
                    base: nat, deliveryOwner: seq<nat>, jobOwner: JobOwner)
    requires JobHistory(g, requests, p.owner, deliveryOwner, jobOwner)
    requires Drains(g, g', round, k, randomness) && |G.QueueAt(g.queues, round)| <= CountAt(g.lastJobId, round)
    requires CanDrain(p, round, Gone(g.lastJobId, g.queues, round), base, k)
    ensures
      var gone := Gone(g.lastJobId, g.queues, round);
      JobHistory(g', requests, Drain(p, round, gone, base, k).owner, deliveryOwner + DrainedOwners(p, round, gone, k), jobOwner)
  {
    hide Drains, JobKept, Drain, CanDrain, DrainedOwners, Gone;
    var gone := Gone(g.lastJobId, g.queues, round);
    var owner' := Drain(p, round, gone, base, k).owner;
    var deliveryOwner' := deliveryOwner + DrainedOwners(p, round, gone, k);
    forall r: nat, id: nat
      ensures JobKept(Gone(g'.lastJobId, g'.queues, r), CountAt(g'.lastJobId, r), requests, owner', deliveryOwner',
                      jobOwner, r, id)
    {
      assert JobKept(Gone(g.lastJobId, g.queues, r), CountAt(g.lastJobId, r), requests, p.owner, deliveryOwner, jobOwner, r, id);
      JobDrainedAt(g, g', round, k, randomness, requests, p, base, deliveryOwner, jobOwner, r, id);
    }
  }

  lemma JobDrainedAt(g: G.State, g': G.State, round: nat, k: nat, randomness: Bytes, requests: seq<Request>, p: Places,
                     base: nat, deliveryOwner: seq<nat>, jobOwner: JobOwner, r: nat, id: nat)
    requires JobKept(Gone(g.lastJobId, g.queues, r), CountAt(g.lastJobId, r), requests, p.owner, deliveryOwner, jobOwner, r, id)
    requires Drains(g, g', round, k, randomness) && |G.QueueAt(g.queues, round)| <= CountAt(g.lastJobId, round)
    requires CanDrain(p, round, Gone(g.lastJobId, g.queues, round), base, k)
    ensures
      var gone := Gone(g.lastJobId, g.queues, round);
      JobKept(Gone(g'.lastJobId, g'.queues, r), CountAt(g'.lastJobId, r), requests, Drain(p, round, gone, base, k).owner,
              deliveryOwner + DrainedOwners(p, round, gone, k), jobOwner, r, id)
  {
    hide Drains, JobKept, Drain, CanDrain, DrainedOwners, Gone;
    var gone := Gone(g.lastJobId, g.queues, round);
    var last := CountAt(g.lastJobId, r);
    SameIds(g, g', round, k, randomness, r);
    if r == round {
      JobDrained(gone, last, requests, p, base, k, deliveryOwner, jobOwner, r, id);
    } else {
      OtherJobDrained(gone, Gone(g.lastJobId, g.queues, r), last, requests, p, base, k, deliveryOwner, jobOwner, round, r, id);
    }
  }

  lemma JobDrained(gone: nat, last: nat, requests: seq<Request>, p: Places, base: nat, k: nat, deliveryOwner: seq<nat>,
                   jobOwner: JobOwner, round: nat, id: nat)
    requires JobKept(gone, last, requests, p.owner, deliveryOwner, jobOwner, round, id)
    requires CanDrain(p, round, gone, base, k)
    ensures JobKept(gone + k, last, requests, Drain(p, round, gone, base, k).owner,
                    deliveryOwner + DrainedOwners(p, round, gone, k), jobOwner, round, id)
  {
    hide RoundAfter;
    var senders := DrainedOwners(p, round, gone, k);
    if gone < id <= gone + k {
      assert senders[id - gone - 1] == p.owner[Queued(round, id)];
    }
    hide DrainedOwners, CanDrain, Drain;
  }

  lemma OtherJobDrained(drained: nat, gone: nat, last: nat, requests: seq<Request>, p: Places, base: nat, k: nat,
                        deliveryOwner: seq<nat>, jobOwner: JobOwner, round: nat, r: nat, id: nat)
    requires JobKept(gone, last, requests, p.owner, deliveryOwner, jobOwner, r, id) && r != round
    requires CanDrain(p, round, drained, base, k)
    ensures JobKept(gone, last, requests, Drain(p, round, drained, base, k).owner,
                    deliveryOwner + DrainedOwners(p, round, drained, k), jobOwner, r, id)
  {
    hide RoundAfter, DrainedOwners, CanDrain, Drain;
  }

  lemma SameIds(g: G.State, g': G.State, round: nat, k: nat, randomness: Bytes, r: nat)
    requires Drains(g, g', round, k, randomness) && |G.QueueAt(g.queues, round)| <= CountAt(g.lastJobId, round)
    ensures g'.lastJobId == g.lastJobId
    ensures Gone(g'.lastJobId, g'.queues, r) == Gone(g.lastJobId, g.queues, r) + (if r == round then k else 0)
  {
    DrainsGone(g, g', round, k, randomness, r);
  }

  // ---- Deliveries ----

  lemma DeliveryFrame(owner: Owner, owner': Owner, deliveryOwner: seq<nat>, callOwner: seq<nat>, callDelivery: seq<nat>)
    requires DeliveryHistory(owner, deliveryOwner, callOwner, callDelivery)
    requires forall l: Loc :: l.DeliveryInFlight? || l.DeliveryExpired? ==> (l in owner ==> l in owner')
    ensures DeliveryHistory(owner', deliveryOwner, callOwner, callDelivery)
  {
  }

  lemma DeliveriesShipped(owner: Owner, owner': Owner, deliveryOwner: seq<nat>, callOwner: seq<nat>,
                          callDelivery: seq<nat>, senders: seq<nat>)
    requires DeliveryHistory(owner, deliveryOwner, callOwner, callDelivery)
    requires Ships(owner, owner', |deliveryOwner|, senders)
    ensures DeliveryHistory(owner', deliveryOwner + senders, callOwner, callDelivery)
  {
    var deliveryOwner' := deliveryOwner + senders;
    forall d: nat | d < |deliveryOwner'|
      ensures DeliveryInFlight(d) in owner' || DeliveryExpired(d) in owner' || d in callDelivery
    {
      assert DeliveryExpired(d) in owner' <==> DeliveryExpired(d) in owner;
    }
  }

  lemma DeliveryExpires(owner: Owner, owner': Owner, deliveryOwner: seq<nat>, callOwner: seq<nat>, callDelivery: seq<nat>,
                        d: nat)
    requires DeliveryHistory(owner, deliveryOwner, callOwner, callDelivery)
    requires DeliveryExpired(d) in owner' && forall l: Loc :: l in owner && l != DeliveryInFlight(d) ==> l in owner'
    ensures DeliveryHistory(owner', deliveryOwner, callOwner, callDelivery)
  {
  }

  lemma DeliveryCalls(owner: Owner, owner': Owner, deliveryOwner: seq<nat>, callOwner: seq<nat>, callDelivery: seq<nat>,
                      d: nat)
    requires DeliveryHistory(owner, deliveryOwner, callOwner, callDelivery) && d < |deliveryOwner|
    requires forall l: Loc :: l in owner && l != DeliveryInFlight(d) ==> l in owner'
    ensures DeliveryHistory(owner', deliveryOwner, callOwner + [deliveryOwner[d]], callDelivery + [d])
  {
    assert d in callDelivery + [d];
    assert forall x :: x in callDelivery ==> x in callDelivery + [d];
  }

  // ---- Steps ----

  lemma InvPlaces(w: World, s: State)
    requires Inv(w, s)
    ensures PlacesInv(s) && ContentInv(w, s) && GR.Inv(s.gateway)
    ensures |s.trace.deliveryOwner| == |s.net.deliveries|
  {
    hide PlacesInv, GR.Inv, DR.Inv, L.Inv, DrainInv, MarkInv, AgreeInv, CountsInv, ChannelsInv, Wired;
    hide PacketsInv, JobsInv, CallsInv, OwnersInv;
  }

  /** A request leaves the network for one of the request places. */
  lemma RequestMoves(s: State, s': State, from: Loc, to: Loc)
    requires HistoryInv(s) && CanMove(s.trace.places, from, to)
    requires from.RequestInFlight? && (to.RequestExpired? || to.RequestRejected?)
    requires s'.trace == s.trace.(places := Moved(s.trace.places, from, to)) && s'.gateway == s.gateway
    ensures HistoryInv(s')
  {
    hide JobHistory, DeliveryHistory, CanMove, Moved;
    MovedOwner(s.trace.places, from, to);
    JobFrame(s.gateway, s'.gateway, s.trace.requests, s'.trace.requests, s.trace.places.owner, s'.trace.places.owner,
      s.trace.deliveryOwner, s'.trace.deliveryOwner, s.trace.jobOwner);
    DeliveryFrame(s.trace.places.owner, s'.trace.places.owner, s.trace.deliveryOwner, s.trace.callOwner, s.trace.callDelivery);
  }

  lemma AsksHistory(w: World, s: State, s': State, q: Request, proxy: P.State)
    requires Asks(w, s, s', q, proxy) && HistoryInv(s)
    ensures HistoryInv(s')
  {
    hide JobHistory, DeliveryHistory;
    JobFrame(s.gateway, s'.gateway, s.trace.requests, s'.trace.requests, s.trace.places.owner, s'.trace.places.owner,
      s.trace.deliveryOwner, s'.trace.deliveryOwner, s.trace.jobOwner);
    DeliveryFrame(s.trace.places.owner, s'.trace.places.owner, s.trace.deliveryOwner, s.trace.callOwner, s.trace.callDelivery);
  }

  lemma QueuesHistory(w: World, s: State, s': State, n: nat, round: nat, e: G.LogEntry, job: G.Job)
    requires Queues(w, s, s', n, round, e, job) && PlacesInv(s) && ContentInv(w, s) && GR.Inv(s.gateway) && HistoryInv(s)
    requires n in s.net.requestsInFlight && n < |s.trace.requests| && RoundAfter(s.trace.requests[n].after) == round
    ensures HistoryInv(s')
  {
    hide JobHistory, DeliveryHistory, CanMove, Moved, PlacesInv, ContentInv, GR.Inv, D.SetIncentivized, PaidOnce, RoundAfter;
    var to := Queued(round, CountAt(s.gateway.lastJobId, round) + 1);
    QueuesCanMove(w, s, n, round);
    TimeoutCanMove(w, s, n);
    MovedOwner(s.trace.places, RequestInFlight(n), to);
    QueueBound(s.gateway, round);
    JobEnqueued(s.gateway, s'.gateway, round, job, s.trace.requests, s.trace.places.owner, s'.trace.places.owner,
      s.trace.deliveryOwner, s.trace.jobOwner, n);
    DeliveryFrame(s.trace.places.owner, s'.trace.places.owner, s.trace.deliveryOwner, s.trace.callOwner, s.trace.callDelivery);
  }

  lemma AnswersHistory(w: World, s: State, s': State, n: nat, round: nat, e: G.LogEntry, job: G.Job, time: Timestamp)
    requires Answers(w, s, s', n, round, e, job, time) && PlacesInv(s) && ContentInv(w, s) && HistoryInv(s)
    requires n in s.net.requestsInFlight && |s.trace.deliveryOwner| == |s.net.deliveries|
    ensures HistoryInv(s')
  {
    hide JobHistory, DeliveryHistory, CanMove, Moved, PlacesInv, ContentInv, Ships, PaidOnce, SendAll, G.BeaconDelivery;
    var to := DeliveryInFlight(|s.net.deliveries|);
    AnswersCanMove(w, s, n);
    TimeoutCanMove(w, s, n);
    MovedOwner(s.trace.places, RequestInFlight(n), to);
    AnswersShips(s.trace.places, n, |s.net.deliveries|);
    JobFrame(s.gateway, s'.gateway, s.trace.requests, s'.trace.requests, s.trace.places.owner, s'.trace.places.owner,
      s.trace.deliveryOwner, s'.trace.deliveryOwner, s.trace.jobOwner);
    DeliveriesShipped(s.trace.places.owner, s'.trace.places.owner, s.trace.deliveryOwner, s.trace.callOwner,
      s.trace.callDelivery, [n]);
  }

  lemma RelayedHistory(w: World, s: State, n: nat, relayer: Addr, env: Env)
    requires Inv(w, s) && HistoryInv(s)
    ensures HistoryInv(Relayed(w, s, n, relayer, env))
  {
    hide Inv, HistoryInv, PlacesInv, ContentInv, GR.Inv, Queues, Answers, Relayed, CanMove, PacketOf;
    var s' := Relayed(w, s, n, relayer, env);
    RelayedOutcome(w, s, n, relayer, env);
    InvPlaces(w, s);
    if s' != s {
      var packet := s.net.packets[n];
      var round := RoundAfter(packet.after);
      var job := G.RequestJob(packet.channel, packet.after, packet.origin);
      var e := GR.EntryFor(s.gateway, env, packet.after, packet.origin);
      TimeoutCanMove(w, s, n);
      PacketAfter(w, s.trace.requests[n]);
      if Rejects(s, s', n) {
        RequestMoves(s, s', RequestInFlight(n), RequestRejected(n));
      } else if Queues(w, s, s', n, round, e, job) {
        QueuesHistory(w, s, s', n, round, e, job);
      } else {
        AnswersHistory(w, s, s', n, round, e, job, env.time);
      }
    }
  }

  lemma PacketAfter(w: World, q: Request)
    ensures PacketOf(w, q).after == q.after
  {
  }

  lemma ServesHistory(w: World, s: State, s': State, env: Env, round: nat, randomness: Bytes, sub: D.Submission,
                      ds: seq<G.Delivery>)
    requires Serves(w, s, s', env, round, randomness, sub, ds) && PlacesInv(s) && GR.Inv(s.gateway) && HistoryInv(s)
    requires |s.trace.deliveryOwner| == |s.net.deliveries|
    ensures HistoryInv(s')
  {
    hide JobHistory, DeliveryHistory, GR.Inv, DR.Submits, L.Inv, Ships, Drain, CanDrain, Gone, NewIds, OneToOne;
    hide QueuePlaces, DeliveryPlaces, CallPlaces, RequestPlaces, G.BeaconDelivery, G.AddVerifiedRound, G.DrainCount, Drains;
    var isVerifyingTx := |D.Arrivals(s.drand, round)| < 3;
    var k := G.DrainCount(s.gateway, round, isVerifyingTx);
    var gone := Gone(s.gateway.lastJobId, s.gateway.queues, round);
    var base := |s.net.deliveries|;
    var p := s.trace.places;
    VerifiedRoundDrains(s.gateway, env, w.addresses.drand, round, randomness, isVerifyingTx);
    QueueBound(s.gateway, round);
    ServesCanDrain(s, round, k);
    DrainShips(p, round, gone, base, k);
    JobsDrained(s.gateway, s'.gateway, round, k, randomness, s.trace.requests, p, base, s.trace.deliveryOwner, s.trace.jobOwner);
    DeliveriesShipped(p.owner, s'.trace.places.owner, s.trace.deliveryOwner, s.trace.callOwner, s.trace.callDelivery,
      DrainedOwners(p, round, gone, k));
  }

  lemma SubmittedHistory(w: World, s: State, env: Env, bot: Addr, fundsSent: bool, round: nat, signature: Bytes)
    requires Inv(w, s) && HistoryInv(s)
    ensures HistoryInv(Submitted(w, s, env, bot, fundsSent, round, signature))
  {
    hide Inv, HistoryInv, PlacesInv, ContentInv, GR.Inv, Serves, Submitted;
    var s' := Submitted(w, s, env, bot, fundsSent, round, signature);
    SubmittedOutcome(w, s, env, bot, fundsSent, round, signature);
    InvPlaces(w, s);
    if s' != s {
      var randomness: Bytes, points: nat, ds: seq<G.Delivery> :|
        Serves(w, s, s', env, round, randomness, D.Submission(bot, env, points), ds);
      ServesHistory(w, s, s', env, round, randomness, D.Submission(bot, env, points), ds);
    }
  }

  lemma DeliveryTimedOutHistory(w: World, s: State, d: nat)
    requires Inv(w, s) && HistoryInv(s) && d in s.net.deliveriesInFlight
    ensures HistoryInv(DeliveryTimedOut(s, d))
  {
    hide Inv, JobHistory, DeliveryHistory, PlacesInv, ContentInv, GR.Inv, CanMove, Moved, DeliveryAnswers;
    InvPlaces(w, s);
    DeliveryCanMove(w, s, d);
    MovedOwner(s.trace.places, DeliveryInFlight(d), DeliveryExpired(d));
    var s' := DeliveryTimedOut(s, d);
    JobFrame(s.gateway, s'.gateway, s.trace.requests, s'.trace.requests, s.trace.places.owner, s'.trace.places.owner,
      s.trace.deliveryOwner, s'.trace.deliveryOwner, s.trace.jobOwner);
    DeliveryExpires(s.trace.places.owner, s'.trace.places.owner, s.trace.deliveryOwner, s.trace.callOwner,
      s.trace.callDelivery, d);
  }

  lemma CallsHistory(w: World, s: State, s': State, d: nat, call: DappCall)
    requires Calls(s, s', d, call) && PlacesInv(s) && ContentInv(w, s) && HistoryInv(s) && d in s.net.deliveriesInFlight
    ensures HistoryInv(s')
  {
    hide JobHistory, DeliveryHistory, PlacesInv, ContentInv, CanMove, Moved, DeliveryAnswers;
    DeliveryCanMove(w, s, d);
    MovedOwner(s.trace.places, DeliveryInFlight(d), CalledBack(|s.net.calls|));
    JobFrame(s.gateway, s'.gateway, s.trace.requests, s'.trace.requests, s.trace.places.owner, s'.trace.places.owner,
      s.trace.deliveryOwner, s'.trace.deliveryOwner, s.trace.jobOwner);
    DeliveryCalls(s.trace.places.owner, s'.trace.places.owner, s.trace.deliveryOwner, s.trace.callOwner,
      s.trace.callDelivery, d);
  }

  lemma DeliveredHistory(w: World, s: State, d: nat)
    requires Inv(w, s) && HistoryInv(s) && P.Faithful(w.codec)
    ensures HistoryInv(Delivered(w, s, d))
  {
    hide Inv, HistoryInv, PlacesInv, ContentInv, GR.Inv, CanMove, Moved, CallAnswers, DeliveryAnswers;
    InvPlaces(w, s);
    if d in s.net.deliveriesInFlight {
      DeliveryCanMove(w, s, d);
      var delivery := s.net.deliveries[d];
      DeliveryBecomesCall(w, delivery, s.trace.requests[s.trace.deliveryOwner[d]], s.drand.beacons);
      var c := P.ReceiveBeacon(w.codec, delivery.published, delivery.randomness, delivery.origin);
      if delivery.channel in s.proxies {
        CallsHistory(w, s, Delivered(w, s, d), d, DappCall(delivery.channel, c.value));
      }
    }
  }

  lemma OtherEventsKeepHistory(w: World, s: State, e: Event)
    requires Inv(w, s) && HistoryInv(s) && (e.Connect? || IsAdministration(e) || e.ForeignVerifiedRound? || e.ForeignMark?)
    ensures HistoryInv(Step(w, s, e))
  {
    hide Inv, L.Fund, L.Send, L.BurnFrom, L.BurnSinkBalance, D.SetIncentivized, D.RegisterBot, L.IsContract;
    hide DeliveryHistory, JobKept;
    if e.ForeignVerifiedRound? {
      WiredOk(w, s);
      ForeignCallsFail(w, s, e.env, e.sender, e.round, e.randomness, e.isVerifyingTx);
    }
  }

  lemma WiredOk(w: World, s: State)
    requires Inv(w, s)
    ensures Wired(w, s.gateway.config, s.drand.config)
  {
    hide PlacesInv, ContentInv, GR.Inv, DR.Inv, L.Inv, DrainInv, MarkInv, AgreeInv, CountsInv, ChannelsInv, Wired;
  }

  lemma StepHistory(w: World, s: State, e: Event)
    requires Inv(w, s) && HistoryInv(s) && P.Faithful(w.codec)
    ensures HistoryInv(Step(w, s, e))
  {
    hide Inv, HistoryInv, Asked, Relayed, Submitted, Delivered, DeliveryTimedOut, P.Faithful, Asks, CanMove, Moved;
    match e {
      case AskForRandomness(channel, time, sender, funds, requestedAfter, jobId) =>
        var s' := Asked(w, s, channel, time, sender, funds, requestedAfter, jobId);
        if s' != s {
          AskedAsks(w, s, channel, time, sender, funds, requestedAfter, jobId);
          var r := P.GetRandomness(w.codec, s.proxies[channel], time, sender, funds, requestedAfter, jobId);
          AsksHistory(w, s, s', Request(channel, sender, jobId, r.value.packet.after), r.value.state);
        }
      case RelayRequest(packet, relayer, env) => RelayedHistory(w, s, packet, relayer, env);
      case TimeoutRequest(n) =>
        if n in s.net.requestsInFlight {
          hide PlacesInv, ContentInv, GR.Inv, PacketOf;
          InvPlaces(w, s);
          TimeoutCanMove(w, s, n);
          RequestMoves(s, RequestTimedOut(s, n), RequestInFlight(n), RequestExpired(n));
        }
      case SubmitRound(env, bot, fundsSent, round, signature) =>
        SubmittedHistory(w, s, env, bot, fundsSent, round, signature);
      case RelayDelivery(delivery) => DeliveredHistory(w, s, delivery);
      case TimeoutDelivery(delivery) =>
        if delivery in s.net.deliveriesInFlight {
          DeliveryTimedOutHistory(w, s, delivery);
        } else {
          LateTimeout(s, delivery);
        }
      case _ =>
        hide Step;
        OtherEventsKeepHistory(w, s, e);
    }
  }

  lemma LateTimeout(s: State, d: nat)
    requires d !in s.net.deliveriesInFlight
    ensures DeliveryTimedOut(s, d) == s
  {
  }

  lemma {:induction false} RunHistory(w: World, s: State, es: seq<Event>)
    requires Inv(w, s) && HistoryInv(s) && P.Faithful(w.codec)
    ensures HistoryInv(Run(w, s, es))
    decreases |es|
  {
    hide Inv, HistoryInv, P.Faithful, Step;
    if es != [] {
      StepHistory(w, s, es[0]);
      StepInv(w, s, es[0]);
      RunHistory(w, Step(w, s, es[0]), es[1..]);
    }
  }

  lemma InitHistory(w: World, d: Deployment)
    ensures HistoryInv(Init(w, d))
  {
  }

  // ---- Job owners never change ----

  /** Every event keeps the owners of the jobs, and the requests themselves. */
  lemma StepKeepsOwners(w: World, s: State, e: Event)
    requires Inv(w, s) && HistoryInv(s)
    ensures s.trace.requests <= Step(w, s, e).trace.requests
    ensures forall key <- s.trace.jobOwner ::
      key in Step(w, s, e).trace.jobOwner && Step(w, s, e).trace.jobOwner[key] == s.trace.jobOwner[key]
  {
    hide Inv, HistoryInv, Relayed, L.Fund, L.Send, L.BurnFrom, L.BurnSinkBalance, D.SetIncentivized, D.RegisterBot, L.IsContract;
    hide P.GetRandomness, D.AddRound, G.AddVerifiedRound, L.PayBot, Drain, DrainedOwners, Moved;
    if e.RelayRequest? {
      RelayedKeepsOwners(w, s, e.packet, e.relayer, e.env);
    }
  }

  lemma RelayedKeepsOwners(w: World, s: State, n: nat, relayer: Addr, env: Env)
    requires Inv(w, s) && HistoryInv(s)
    ensures
      var s' := Relayed(w, s, n, relayer, env);
      && s'.trace.requests == s.trace.requests
      && forall key <- s.trace.jobOwner :: key in s'.trace.jobOwner && s'.trace.jobOwner[key] == s.trace.jobOwner[key]
  {
    hide Inv, Relayed, DeliveryHistory, Moved, GR.Accepted, PaidOnce, SendAll, D.SetIncentivized, G.BeaconDelivery;
    RelayedOutcome(w, s, n, relayer, env);
    if Relayed(w, s, n, relayer, env) != s {
      var round := RoundAfter(s.net.packets[n].after);
      NewIdUnused(s, round);
    }
  }

  lemma NewIdUnused(s: State, round: nat)
    requires HistoryInv(s)
    ensures (round, CountAt(s.gateway.lastJobId, round) + 1) !in s.trace.jobOwner
  {
    hide DeliveryHistory;
    var last := CountAt(s.gateway.lastJobId, round);
    assert JobKept(Gone(s.gateway.lastJobId, s.gateway.queues, round), last, s.trace.requests, s.trace.places.owner,
                   s.trace.deliveryOwner, s.trace.jobOwner, round, last + 1);
  }

  lemma {:induction false} RunKeepsOwners(w: World, s: State, es: seq<Event>)
    requires Inv(w, s) && HistoryInv(s) && P.Faithful(w.codec)
    ensures s.trace.requests <= Run(w, s, es).trace.requests
    ensures forall key <- s.trace.jobOwner ::
      key in Run(w, s, es).trace.jobOwner && Run(w, s, es).trace.jobOwner[key] == s.trace.jobOwner[key]
    decreases |es|
  {
    hide Inv, HistoryInv, P.Faithful, Step;
    if es != [] {
      StepKeepsOwners(w, s, es[0]);
      StepHistory(w, s, es[0]);
      StepInv(w, s, es[0]);
      RunKeepsOwners(w, Step(w, s, es[0]), es[1..]);
    }
  }

  // ---- One delivery per request ----

  /** The one place of a delivery: travelling, expired, or the callback it led to. */
  ghost predicate IsDeliveryPlace(l: Loc, k: nat, callDelivery: seq<nat>) {
    || l == DeliveryInFlight(k)
    || l == DeliveryExpired(k)
    || (l.CalledBack? && l.callback < |callDelivery| && callDelivery[l.callback] == k)
  }

  lemma DeliveryPlace(w: World, s: State, k: nat)
    requires PlacesInv(s) && ContentInv(w, s) && HistoryInv(s) && k < |s.trace.deliveryOwner|
    ensures s.trace.deliveryOwner[k] < |s.trace.places.locOf|
    ensures IsDeliveryPlace(s.trace.places.locOf[s.trace.deliveryOwner[k]], k, s.trace.callDelivery)
  {
    hide JobHistory, PacketsInv, JobsInv, CallAnswers, RequestPlaces, QueuePlaces, DeliveryAnswers;
    var owner := s.trace.places.owner;
    if DeliveryInFlight(k) !in owner && DeliveryExpired(k) !in owner {
      var m :| 0 <= m < |s.trace.callDelivery| && s.trace.callDelivery[m] == k;
      assert CalledBack(m) in owner;
    }
  }

  /** A request gets at most one delivery, and none while it is queued. */
  lemma OneDelivery(w: World, s: State, j: nat, k: nat)
    requires PlacesInv(s) && ContentInv(w, s) && HistoryInv(s)
    requires j < |s.trace.deliveryOwner| && k < |s.trace.deliveryOwner|
    ensures s.trace.deliveryOwner[j] == s.trace.deliveryOwner[k] ==> j == k
  {
    hide PlacesInv, ContentInv, HistoryInv;
    DeliveryPlace(w, s, j);
    DeliveryPlace(w, s, k);
  }

  /** The owner of a job that left the queue has a delivery, the owner of a queued one has none. */
  lemma JobDelivered(w: World, s: State, r: nat, id: nat)
    requires PlacesInv(s) && ContentInv(w, s) && HistoryInv(s) && 1 <= id <= CountAt(s.gateway.lastJobId, r)
    ensures (r, id) in s.trace.jobOwner
    ensures
      var i := s.trace.jobOwner[(r, id)];
      && i < |s.trace.requests| == |s.trace.places.locOf| && RoundAfter(s.trace.requests[i].after) == r
      && (i in s.trace.deliveryOwner <==> id <= Gone(s.gateway.lastJobId, s.gateway.queues, r))
      && (id > Gone(s.gateway.lastJobId, s.gateway.queues, r) ==> s.trace.places.locOf[i] == Queued(r, id))
  {
    hide DeliveryHistory, ContentInv, RequestPlaces, QueuePlaces, DeliveryPlaces, CallPlaces, Gone, RoundAfter;
    var gone := Gone(s.gateway.lastJobId, s.gateway.queues, r);
    assert JobKept(gone, CountAt(s.gateway.lastJobId, r), s.trace.requests, s.trace.places.owner, s.trace.deliveryOwner,
                   s.trace.jobOwner, r, id);
    var i := s.trace.jobOwner[(r, id)];
    if id > gone && i in s.trace.deliveryOwner {
      var k :| 0 <= k < |s.trace.deliveryOwner| && s.trace.deliveryOwner[k] == i;
      DeliveryPlace(w, s, k);
    }
  }
}
