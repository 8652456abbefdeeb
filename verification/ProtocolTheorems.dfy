/** The main results: what holds after every run of a fresh deployment, over all interleavings of events. */
module ProtocolTheorems {
  import opened Base
  import opened Rounds
  import opened SourceIds
  import opened Crypto
  import opened Traces
  import opened JobStore
  import opened Protocol
  import opened ProtocolInvariant
  import opened ProtocolSteps
  import opened ProtocolRefinement
  import opened ProtocolHistory
  import opened ProtocolBooks
  import opened ProtocolReceipts
  import G = GatewayModel
  import GR = GatewayRuns
  import D = DrandModel
  import DR = DrandRuns
  import P = ProxyModel
  import L = Ledger

  ghost function After(w: World, d: Deployment, es: seq<Event>): State {
    Run(w, Init(w, d), es)
  }

  lemma Reachable(w: World, d: Deployment, es: seq<Event>)
    requires P.Faithful(w.codec)
    ensures Inv(w, After(w, d, es))
  {
    hide Inv, P.Faithful, Init, Run;
    InitInv(w, d);
    RunInv(w, Init(w, d), es);
  }

  lemma ReachableHistory(w: World, d: Deployment, es: seq<Event>)
    requires P.Faithful(w.codec)
    ensures Inv(w, After(w, d, es)) && HistoryInv(After(w, d, es))
  {
    hide Inv, HistoryInv, P.Faithful, Init, Run;
    InitInv(w, d);
    InitHistory(w, d);
    RunInv(w, Init(w, d), es);
    RunHistory(w, Init(w, d), es);
  }

  // ---- Every request is in exactly one place ----

  /** Something of the real state sits at this location: a packet, a queued job, a delivery or a callback. */
  ghost predicate Occupied(s: State, l: Loc) {
    match l
    case RequestInFlight(n) => n in s.net.requestsInFlight
    case RequestExpired(n) => n in s.net.requestsExpired
    case RequestRejected(n) => n in s.net.requestsRejected
    case Queued(r, id) => G.LastJobId(s.gateway, r) - |G.Queue(s.gateway, r)| < id <= G.LastJobId(s.gateway, r)
    case DeliveryInFlight(d) => d in s.net.deliveriesInFlight
    case DeliveryExpired(d) => d in s.net.deliveriesExpired
    case DeliveryRefused(d) => d in s.net.deliveriesRefused
    case CalledBack(k) => k < |s.net.calls|
  }

  lemma OccupiedIffOwned(w: World, s: State, l: Loc)
    requires PlacesInv(s) && GR.Inv(s.gateway)
    ensures Occupied(s, l) <==> l in s.trace.places.owner
  {
    hide OneToOne, GR.JobsInv, GR.CountInv, GR.CustomerInv, GR.TotalInv;
    if l.Queued? {
      assert Queued(l.round, l.id) in s.trace.places.owner
             <==> Gone(s.gateway.lastJobId, s.gateway.queues, l.round) < l.id <= CountAt(s.gateway.lastJobId, l.round);
      QueueBound(s.gateway, l.round);
    }
  }

  /**
   * After every run, the accepted requests and the occupied locations are in one-to-one correspondence:
   * each request is at exactly one place, and each packet, queued job, delivery and callback belongs to
   * exactly one request. No delivery is ever refused.
   */
  lemma EveryRequestHasOnePlace(w: World, d: Deployment, es: seq<Event>)
    requires P.Faithful(w.codec)
    ensures
      var s := After(w, d, es);
      var p := s.trace.places;
      && |p.locOf| == |s.trace.requests|
      && (forall i :: 0 <= i < |p.locOf| ==> Occupied(s, p.locOf[i]))
      && (forall i, j :: 0 <= i < j < |p.locOf| ==> p.locOf[i] != p.locOf[j])
      && (forall l: Loc :: Occupied(s, l) ==> l in p.locOf)
      && (forall l: Loc :: Occupied(s, l) ==> !l.DeliveryRefused?)
  {
    hide After, Run, ContentInv, GR.Inv, DR.Inv, L.Inv, DrainInv, MarkInv, AgreeInv, P.Faithful, GR.TotalRequested;
    Reachable(w, d, es);
    var s := After(w, d, es);
    forall l: Loc
      ensures Occupied(s, l) <==> l in s.trace.places.owner
    {
      OccupiedIffOwned(w, s, l);
    }
    hide RequestPlaces, QueuePlaces, DeliveryPlaces, CallPlaces;
  }

  /** The same as a count: no request is lost and none is answered twice. */
  lemma RequestsConserved(w: World, d: Deployment, es: seq<Event>)
    requires P.Faithful(w.codec)
    ensures
      var s := After(w, d, es);
      |s.trace.requests|
      == |s.net.requestsInFlight| + |s.net.requestsExpired| + |s.net.requestsRejected|
         + GR.TotalQueued(s.gateway.queues)
         + |s.net.deliveriesInFlight| + |s.net.deliveriesExpired| + |s.net.calls|
  {
    hide After, Run, PlacesInv, ContentInv, DR.Inv, L.Inv, DrainInv, MarkInv, AgreeInv, P.Faithful;
    hide GR.TotalRequested, GR.TotalQueued, GR.QueueInv, GR.JobsInv, GR.CountInv, GR.CustomerInv;
    Reachable(w, d, es);
  }

  // ---- What is at a request's place, and callbacks ----

  /** The content found at a location belongs to request number i. */
  ghost predicate Holds(w: World, s: State, l: Loc, i: nat)
    requires i < |s.trace.requests|
  {
    var q := s.trace.requests[i];
    match l
    case RequestInFlight(n) => n == i && n < |s.net.packets| && s.net.packets[n] == PacketOf(w, q)
    case RequestExpired(n) => n == i && n < |s.net.packets| && s.net.packets[n] == PacketOf(w, q)
    case RequestRejected(n) => n == i && n < |s.net.packets| && s.net.packets[n] == PacketOf(w, q)
    case Queued(r, id) =>
      JobMatches(w, G.Queue(s.gateway, r), id - 1 - (G.LastJobId(s.gateway, r) - |G.Queue(s.gateway, r)|), r,
                 s.trace.requests, i)
    case DeliveryInFlight(k) => k < |s.net.deliveries| && DeliveryAnswers(w, s.net.deliveries[k], q, s.drand.beacons)
    case DeliveryExpired(k) => k < |s.net.deliveries| && DeliveryAnswers(w, s.net.deliveries[k], q, s.drand.beacons)
    case DeliveryRefused(_) => false
    case CalledBack(k) => k < |s.net.calls| && CallAnswers(w, s.net.calls[k], q, s.drand.beacons)
  }

  lemma OwnedHolds(w: World, s: State, i: nat)
    requires PlacesInv(s) && ContentInv(w, s) && GR.Inv(s.gateway) && s.net.deliveriesRefused == {}
    requires i < |s.trace.requests|
    ensures Holds(w, s, s.trace.places.locOf[i], i)
  {
    hide DeliveryAnswers, CallAnswers, JobMatches, PacketOf, GR.Inv, RequestPlaces, QueuePlaces;
    var l := s.trace.places.locOf[i];
    assert l in s.trace.places.owner && s.trace.places.owner[l] == i;
    match l
    case Queued(r, id) =>
      QueueBound(s.gateway, r);
      assert JobMatches(w, G.QueueAt(s.gateway.queues, r), id - 1 - Gone(s.gateway.lastJobId, s.gateway.queues, r), r,
                        s.trace.requests, i);
    case _ =>
  }

  /**
   * After every run, a request's own content sits at its place: its packet while it travels or after it
   * expired, its job at the right position of its round's queue, or a delivery or callback that answers it.
   */
  lemma PlaceHoldsRequest(w: World, d: Deployment, es: seq<Event>, i: nat)
    requires P.Faithful(w.codec) && i < |After(w, d, es).trace.requests|
    ensures
      var s := After(w, d, es);
      |s.trace.places.locOf| == |s.trace.requests| && Holds(w, s, s.trace.places.locOf[i], i)
  {
    hide After, Run, ContentInv, GR.Inv, DR.Inv, L.Inv, DrainInv, MarkInv, AgreeInv, P.Faithful, GR.TotalRequested;
    hide OneToOne, RequestPlaces, QueuePlaces, DeliveryPlaces, CallPlaces, Holds;
    Reachable(w, d, es);
    OwnedHolds(w, After(w, d, es), i);
  }

  lemma CallOwnerPlace(w: World, s: State, k: nat)
    requires PlacesInv(s) && ContentInv(w, s) && k < |s.net.calls|
    ensures |s.trace.callOwner| == |s.net.calls| && s.trace.callOwner[k] < |s.trace.requests| == |s.trace.places.locOf|
    ensures s.trace.places.locOf[s.trace.callOwner[k]] == CalledBack(k)
    ensures CallAnswers(w, s.net.calls[k], s.trace.requests[s.trace.callOwner[k]], s.drand.beacons)
  {
    hide PacketsInv, JobsInv, DeliveriesInv, RequestPlaces, QueuePlaces, DeliveryPlaces, CallAnswers;
    assert CalledBack(k) in s.trace.places.owner;
  }

  /**
   * After every run, each callback belongs to one request, whose only place it is, and went to that
   * request's contract and job id on its chain, with a publish time strictly after the requested time and
   * verified randomness of the least round published after it.
   */
  lemma CallbacksAreCorrect(w: World, d: Deployment, es: seq<Event>, k: nat)
    requires P.Faithful(w.codec) && k < |After(w, d, es).net.calls|
    ensures
      var s := After(w, d, es);
      && |s.trace.callOwner| == |s.net.calls| && s.trace.callOwner[k] < |s.trace.requests| == |s.trace.places.locOf|
      && s.trace.places.locOf[s.trace.callOwner[k]] == CalledBack(k)
      && (var q := s.trace.requests[s.trace.callOwner[k]];
          var c := s.net.calls[k];
          var round := RoundAfter(q.after);
          && c.channel == q.channel && c.callback.contract == q.sender && c.callback.jobId == q.jobId
          && c.callback.published == PublishTime(round) > q.after
          && (forall r: nat :: 1 <= r < round ==> PublishTime(r) <= q.after)
          && round in s.drand.beacons && IsRandomnessOf(w.crypto, round, c.callback.randomness))
  {
    hide After, Run, PlacesInv, ContentInv, GR.Inv, DR.Inv, L.Inv, DrainInv, MarkInv, AgreeInv, P.Faithful, CountsInv;
    Reachable(w, d, es);
    var s := After(w, d, es);
    CallOwnerPlace(w, s, k);
    var after := s.trace.requests[s.trace.callOwner[k]].after;
    PublishWindow(after);
    forall r: nat | 1 <= r < RoundAfter(after)
      ensures PublishTime(r) <= after
    {
      RoundAfterIsLeast(after, r);
    }
    hide RoundAfter, PublishTime, IsRandomnessOf;
  }

  // ---- Draining a round ----

  /**
   * After every run, of the jobs ever queued for a round exactly min(queued, min(n,3) + 10·max(0,n-3)) have
   * left the queue, where n is the number of accepted submissions of the round.
   */
  lemma DrainClosedForm(w: World, d: Deployment, es: seq<Event>, round: nat)
    requires P.Faithful(w.codec)
    ensures
      var s := After(w, d, es);
      var n := |D.Arrivals(s.drand, round)|;
      G.LastJobId(s.gateway, round) - |G.Queue(s.gateway, round)|
      == Min(G.LastJobId(s.gateway, round), Min(n, 3) + 10 * (n - Min(n, 3)))
  {
    hide After, Run, PlacesInv, ContentInv, GR.Inv, DR.Inv, L.Inv, CountsInv, MarkInv, AgreeInv, P.Faithful;
    Reachable(w, d, es);
  }

  lemma SubmissionKeepsJobIds(w: World, s: State, env: Env, bot: Addr, fundsSent: bool, round: nat, signature: Bytes)
    ensures Submitted(w, s, env, bot, fundsSent, round, signature).gateway.lastJobId == s.gateway.lastJobId
  {
    hide D.AddRound, L.PayBot, SendAll, Drain, DrainedOwners, Gone;
  }

  /** Once verified, a round's job ids are frozen for the rest of every run. */
  lemma VerifiedRoundFrozen(w: World, s: State, es: seq<Event>, round: nat)
    requires round in s.gateway.archive
    ensures G.LastJobId(Run(w, s, es).gateway, round) == G.LastJobId(s.gateway, round)
    ensures round in Run(w, s, es).gateway.archive
  {
    hide Run, GR.Run;
    var ges := ProtocolRefinesGateway(w, s, es);
    GR.ArchivedRoundOnlyDrains(s.gateway, ges, round);
  }

  /**
   * The delivery side: after n accepted submissions of a round, the request that got job id `id` of the round has
   * a delivery if and only if id <= min(n,3) + 10·max(0,n-3). It then has exactly one, which answers it.
   */
  lemma DeliveredIffWithinBudget(w: World, d: Deployment, es: seq<Event>, round: nat, id: nat)
    requires P.Faithful(w.codec) && 1 <= id <= G.LastJobId(After(w, d, es).gateway, round)
    ensures
      var s := After(w, d, es);
      var n := |D.Arrivals(s.drand, round)|;
      && (round, id) in s.trace.jobOwner && |s.trace.deliveryOwner| == |s.net.deliveries|
      && (var i := s.trace.jobOwner[(round, id)];
          && i < |s.trace.requests| && RoundAfter(s.trace.requests[i].after) == round
          && (i in s.trace.deliveryOwner <==> id <= Min(n, 3) + 10 * (n - Min(n, 3)))
          && (forall k: nat :: k < |s.net.deliveries| && s.trace.deliveryOwner[k] == i ==>
                DeliveryAnswers(w, s.net.deliveries[k], s.trace.requests[i], s.drand.beacons))
          && (forall j: nat, k: nat ::
                j < |s.net.deliveries| && k < |s.net.deliveries| && s.trace.deliveryOwner[j] == i == s.trace.deliveryOwner[k]
                ==> j == k))
  {
    hide After, Run, Inv, HistoryInv, PlacesInv, ContentInv, GR.Inv, DrainInv, P.Faithful, DeliveryAnswers, RoundAfter;
    var s := After(w, d, es);
    ReachableHistory(w, d, es);
    InvPlaces(w, s);
    QueueBound(s.gateway, round);
    DrainClosedForm(w, d, es, round);
    JobDelivered(w, s, round, id);
    forall k: nat | k < |s.net.deliveries| {
      DeliveryAnswered(w, s, k);
    }
    forall j: nat, k: nat | j < |s.net.deliveries| && k < |s.net.deliveries| {
      OneDelivery(w, s, j, k);
    }
  }

  lemma DeliveryAnswered(w: World, s: State, k: nat)
    requires ContentInv(w, s) && k < |s.net.deliveries|
    ensures |s.trace.deliveryOwner| == |s.net.deliveries| && s.trace.deliveryOwner[k] < |s.trace.requests|
    ensures DeliveryAnswers(w, s.net.deliveries[k], s.trace.requests[s.trace.deliveryOwner[k]], s.drand.beacons)
  {
    hide PacketsInv, JobsInv, CallsInv, OwnersInv, DeliveryAnswers;
  }

  /**
   * Of the jobs queued for a round before its first submission, after any further run in which n submissions were
   * accepted, exactly the first min(n,3) + 10·max(0,n-3) have been delivered, oldest first.
   */
  lemma QueuedJobsDelivered(w: World, d: Deployment, before: seq<Event>, rest: seq<Event>, round: nat, j: nat)
    requires P.Faithful(w.codec) && D.Arrivals(After(w, d, before).drand, round) == []
    requires j < |G.Queue(After(w, d, before).gateway, round)|
    ensures
      var s0, s := After(w, d, before), After(w, d, before + rest);
      var n := |D.Arrivals(s.drand, round)|;
      && (round, j + 1) in s0.trace.jobOwner
      && (var i := s0.trace.jobOwner[(round, j + 1)];
          && i < |s0.trace.requests| && s0.trace.requests <= s.trace.requests
          && G.Queue(s0.gateway, round)[j] == JobOf(w, s0.trace.requests[i])
          && (i in s.trace.deliveryOwner <==> j < Min(n, 3) + 10 * (n - Min(n, 3))))
  {
    hide Run, Inv, HistoryInv, PlacesInv, ContentInv, GR.Inv, P.Faithful, RoundAfter, Init, Min, JobOf;
    var s0, s := After(w, d, before), After(w, d, before + rest);
    RunSplit(w, Init(w, d), before, rest);
    ReachableHistory(w, d, before);
    RunKeepsOwners(w, s0, rest);
    VerifiedIds(w, d, before, rest, round);
    InvPlaces(w, s0);
    QueueBound(s0.gateway, round);
    JobDelivered(w, s0, round, j + 1);
    var i := s0.trace.jobOwner[(round, j + 1)];
    OwnedJob(w, s0, round, j + 1, i);
    DeliveredIffWithinBudget(w, d, before + rest, round, j + 1);
  }

  lemma OwnedJob(w: World, s: State, r: nat, id: nat, i: nat)
    requires PlacesInv(s) && ContentInv(w, s) && i < |s.trace.places.locOf| && s.trace.places.locOf[i] == Queued(r, id)
    ensures JobMatches(w, G.Queue(s.gateway, r), id - 1 - Gone(s.gateway.lastJobId, s.gateway.queues, r), r, s.trace.requests, i)
  {
    hide PacketsInv, DeliveriesInv, CallsInv, OwnersInv, RequestPlaces, QueuePlaces, DeliveryPlaces, CallPlaces, JobMatches, Gone;
    assert s.trace.places.owner[Queued(r, id)] == i;
  }

  /** Nothing has left the queue before the first submission, and ids only grow. */
  lemma VerifiedIds(w: World, d: Deployment, before: seq<Event>, rest: seq<Event>, round: nat)
    requires P.Faithful(w.codec) && D.Arrivals(After(w, d, before).drand, round) == []
    ensures G.LastJobId(After(w, d, before).gateway, round) == |G.Queue(After(w, d, before).gateway, round)|
    ensures G.LastJobId(After(w, d, before).gateway, round) <= G.LastJobId(After(w, d, before + rest).gateway, round)
  {
    hide Run, Init, GR.Run;
    DrainClosedForm(w, d, before, round);
    RunSplit(w, Init(w, d), before, rest);
    var ges := ProtocolRefinesGateway(w, After(w, d, before), rest);
    GR.IdsOnlyGrow(After(w, d, before).gateway, ges, round);
  }

  /**
   * A round with Q queued jobs when its first submission arrives: after n accepted submissions, whatever else
   * happens in between, exactly min(Q, min(n,3) + 10·max(0,n-3)) of them have left the queue.
   */
  lemma DrainOfQueuedJobs(w: World, d: Deployment, before: seq<Event>, first: Event, rest: seq<Event>, round: nat)
    requires P.Faithful(w.codec) && first.SubmitRound?
    requires D.Arrivals(After(w, d, before).drand, round) == []
    requires D.Arrivals(After(w, d, before + [first]).drand, round) != []
    ensures
      var q := |G.Queue(After(w, d, before).gateway, round)|;
      var s := After(w, d, before + [first] + rest);
      var n := |D.Arrivals(s.drand, round)|;
      |G.Queue(s.gateway, round)| == q - Min(q, Min(n, 3) + 10 * (n - Min(n, 3)))
  {
    var s0, s1 := After(w, d, before), After(w, d, before + [first]);
    RunSplit(w, Init(w, d), before, [first]);
    RunSplit(w, Init(w, d), before + [first], rest);
    RunOne(w, s0, first);
    SubmissionKeepsJobIds(w, s0, first.env, first.bot, first.fundsSent, first.round, first.signature);
    assert s1.gateway.lastJobId == s0.gateway.lastJobId;
    hide Run, Init, Submitted;
    DrainClosedForm(w, d, before, round);
    DrainClosedForm(w, d, before + [first] + rest, round);
    VerifiedIsArchived(w, d, before + [first], round);
    VerifiedRoundFrozen(w, s1, rest, round);
  }

  lemma VerifiedIsArchived(w: World, d: Deployment, es: seq<Event>, round: nat)
    requires P.Faithful(w.codec) && D.Arrivals(After(w, d, es).drand, round) != []
    ensures round in After(w, d, es).gateway.archive
  {
    hide After, Run, PlacesInv, ContentInv, GR.Inv, L.Inv, CountsInv, MarkInv, DrainInv, P.Faithful;
    hide DR.VerifiedInv, DR.RewardInv, DR.BotInv, DR.MarkInv;
    Reachable(w, d, es);
  }

  // ---- Incentives ----

  /** A round with queued jobs is marked as incentivized at drand, and was not below `min_round` when marked. */
  lemma QueuedRoundsAreIncentivized(w: World, d: Deployment, es: seq<Event>, round: nat)
    requires P.Faithful(w.codec)
    ensures
      var s := After(w, d, es);
      G.Queue(s.gateway, round) != [] ==> round in s.drand.incentivized && s.drand.incentivized[round] <= round
  {
    hide After, Run, PlacesInv, ContentInv, GR.Inv, L.Inv, CountsInv, AgreeInv, DrainInv, P.Faithful;
    hide DR.VerifiedInv, DR.RewardInv, DR.BotInv, DR.SubmissionInv;
    Reachable(w, d, es);
    var s := After(w, d, es);
    QueueBound(s.gateway, round);
  }

  /**
   * The consequence for bots: whoever submits a round with a queued job, from the current `min_round` on, as a registered
   * and allowlisted bot of the round's group, earns 50 points among the first three and 15 among the next three.
   */
  lemma QueuedRoundRewards(w: World, d: Deployment, es: seq<Event>, env: Env, bot: Addr, round: nat, signature: Bytes)
    requires P.Faithful(w.codec)
    requires
      var s := After(w, d, es);
      && G.Queue(s.gateway, round) != [] && s.drand.config.minRound <= round
      && bot in s.drand.bots && bot in s.drand.allowlist
      && (if round % 2 == 0 then w.crypto.inGroupA(bot) else !w.crypto.inGroupA(bot))
      && Step(w, s, SubmitRound(env, bot, false, round, signature)) != s
    ensures
      var s := After(w, d, es);
      var s' := Step(w, s, SubmitRound(env, bot, false, round, signature));
      var n := |D.Arrivals(s.drand, round)|;
      var points := if n < 3 then 50 else if n < 6 then 15 else 0;
      && D.Arrivals(s'.drand, round) == D.Arrivals(s.drand, round) + [D.Submission(bot, env, points)]
      && bot in s'.drand.bots && s'.drand.bots[bot].rewardPoints == s.drand.bots[bot].rewardPoints + points
  {
    hide After, Run, P.Faithful, D.AddRound, L.PayBot, G.AddVerifiedRound, SendAll, Drain, DrainedOwners, Gone;
    var s := After(w, d, es);
    QueuedRoundsAreIncentivized(w, d, es, round);
    var balance := L.At(s.ledger.bank.balance, (w.addresses.drand, s.drand.config.incentiveDenom));
    var r := D.AddRound(w.crypto, s.drand, env, bot, false, round, signature, balance);
    if r.Ok? {
      DR.RewardOfSubmission(w.crypto, s.drand, env, bot, false, round, signature, balance);
      DR.AddRoundSubmits(w.crypto, s.drand, env, bot, false, round, signature, balance);
    }
  }

  // ---- Randomness ----

  /**
   * The gateway's archive and drand's beacons hold the same rounds with the same randomness, and all deliveries
   * ever sent for a round carry it.
   */
  ghost predicate Agrees(s: State) {
    && s.gateway.archive.Keys == s.drand.beacons.Keys
    && (forall r <- s.gateway.archive :: s.gateway.archive[r] == s.drand.beacons[r].randomness)
    && (forall r: nat, k: nat :: k < |s.net.deliveries| && s.net.deliveries[k].sourceId == SourceId(r) ==>
          r in s.drand.beacons && s.net.deliveries[k].randomness == s.drand.beacons[r].randomness)
  }

  lemma DeliveryIsVerified(w: World, s: State, r: nat, k: nat)
    requires ContentInv(w, s) && k < |s.net.deliveries| && s.net.deliveries[k].sourceId == SourceId(r)
    ensures r in s.drand.beacons && IsRandomnessOf(w.crypto, r, s.net.deliveries[k].randomness)
  {
    hide PacketsInv, JobsInv, CallsInv, OwnersInv, IsRandomnessOf, SourceId, RoundAfter;
    assert DeliveryAnswers(w, s.net.deliveries[k], s.trace.requests[s.trace.deliveryOwner[k]], s.drand.beacons);
    SourceIdInjective(r, RoundAfter(s.trace.requests[s.trace.deliveryOwner[k]].after));
  }

  lemma UniqueAgrees(w: World, s: State)
    requires Inv(w, s) && UniqueRandomness(w.crypto)
    ensures Agrees(s)
  {
    hide PlacesInv, ContentInv, L.Inv, CountsInv, MarkInv, DrainInv, UniqueRandomness, SourceId, IsRandomnessOf;
    hide GR.JobsInv, GR.CountInv, GR.CustomerInv, GR.TotalInv, DR.RewardInv, DR.BotInv, DR.MarkInv, DR.SubmissionInv;
    forall r | r in s.gateway.archive
      ensures s.gateway.archive[r] == s.drand.beacons[r].randomness
    {
      assert IsRandomnessOf(w.crypto, r, s.gateway.archive[r]);
      assert IsRandomnessOf(w.crypto, r, s.drand.beacons[r].randomness);
      QueueBound(s.gateway, r);
      RandomnessUnique(w.crypto, r, s.gateway.archive[r], s.drand.beacons[r].randomness);
    }
    forall r: nat, k: nat | k < |s.net.deliveries| && s.net.deliveries[k].sourceId == SourceId(r)
      ensures r in s.drand.beacons && s.net.deliveries[k].randomness == s.drand.beacons[r].randomness
    {
      DeliveryIsVerified(w, s, r, k);
      assert IsRandomnessOf(w.crypto, r, s.drand.beacons[r].randomness);
      RandomnessUnique(w.crypto, r, s.net.deliveries[k].randomness, s.drand.beacons[r].randomness);
    }
  }

  /** An unregistered bot may submit: its signature is valid, or fits the beacon once three came before it. */
  ghost predicate MaySubmit(w: World, s: State, env: Env, bot: Addr, round: nat, signature: Bytes) {
    var subs := D.Arrivals(s.drand, round);
    && Wired(w, s.gateway.config, s.drand.config) && s.drand.config.minRound <= round
    && bot !in s.drand.bots && !D.HasSubmitted(subs, bot) && |subs| < U16_MAX
    && (|subs| < 3 ==> w.crypto.verify(round, signature))
    && (|subs| >= 3 ==> round in s.drand.beacons && s.drand.beacons[round].randomness == w.crypto.derive(signature))
    && G.CanDrain(s.gateway, env, round, |subs| < 3)
  }

  /** Such a submission is accepted, forwarded and earns nothing. */
  lemma OutsiderSubmits(w: World, s: State, env: Env, bot: Addr, round: nat, signature: Bytes)
    requires MaySubmit(w, s, env, bot, round, signature)
    ensures
      var s' := Submitted(w, s, env, bot, false, round, signature);
      var subs := D.Arrivals(s.drand, round);
      var randomness := w.crypto.derive(signature);
      var g := G.AddVerifiedRound(s.gateway, env, w.addresses.drand, round, randomness, |subs| < 3);
      && g.Ok? && s'.gateway == g.value.state
      && s'.drand == s.drand.(
           arrivals := s.drand.arrivals[round := subs + [D.Submission(bot, env, 0)]],
           beacons := if round in s.drand.beacons then s.drand.beacons
                      else s.drand.beacons[round := D.Beacon(env.time, randomness)])
      && s'.net == SendAll(s.net, g.value.deliveries) && s'.proxies == s.proxies
      && s'.trace.requests == s.trace.requests && s'.trace.jobOwner == s.trace.jobOwner
      && s'.trace.callOwner == s.trace.callOwner && s'.trace.callDelivery == s.trace.callDelivery
      && s.trace.deliveryOwner <= s'.trace.deliveryOwner
  {
    hide SendAll, Drain, DrainedOwners, Gone;
  }

  lemma SecondSubmission(w: World, s: State, s': State, round: nat, a: Bytes, b: Bytes)
    requires Wired(w, s.gateway.config, s.drand.config) && s.drand.config.minRound == 0 && round <= U32_MAX
    requires s.drand.bots == map[] && s.drand.arrivals == map[] && s.drand.beacons == map[]
    requires G.Queue(s.gateway, round) == [] && w.crypto.verify(round, a) && w.crypto.verify(round, b)
    requires s' == Submitted(w, s, Env(0, 0, None), "a", false, round, a)
    ensures
      var s2 := Submitted(w, s', Env(0, 0, None), "b", false, round, b);
      && round in s2.gateway.archive && s2.gateway.archive[round] == w.crypto.derive(b)
      && round in s2.drand.beacons && s2.drand.beacons[round].randomness == w.crypto.derive(a)
  {
    hide Submitted, SendAll;
    OutsiderSubmits(w, s, Env(0, 0, None), "a", round, a);
    OutsiderSubmits(w, s', Env(0, 0, None), "b", round, b);
  }

  lemma FreshParameters(w: World, d: Deployment)
    ensures
      var s := Step(w, Init(w, d), SetDrandParameters(0, 0, ""));
      && Wired(w, s.gateway.config, s.drand.config) && s.drand.config.minRound == 0
      && s.drand.bots == map[] && s.drand.arrivals == map[] && s.drand.beacons == map[] && s.gateway.queues == map[]
  {
  }

  lemma StepSubmits(w: World, s: State, env: Env, bot: Addr, round: nat, signature: Bytes)
    ensures Step(w, s, SubmitRound(env, bot, false, round, signature)) == Submitted(w, s, env, bot, false, round, signature)
  {
    hide Submitted;
  }

  /** Two valid signatures with different randomness for one round make the archive and the beacons differ. */
  lemma DisagreementRun(w: World, d: Deployment, round: nat, a: Bytes, b: Bytes)
    requires round <= U32_MAX && w.crypto.verify(round, a) && w.crypto.verify(round, b)
    requires w.crypto.derive(a) != w.crypto.derive(b)
    ensures
      var env := Env(0, 0, None);
      !Agrees(After(w, d, [SetDrandParameters(0, 0, ""), SubmitRound(env, "a", false, round, a),
                           SubmitRound(env, "b", false, round, b)]))
  {
    var env := Env(0, 0, None);
    var e1, e2, e3 := SetDrandParameters(0, 0, ""), SubmitRound(env, "a", false, round, a), SubmitRound(env, "b", false, round, b);
    var s0 := Init(w, d);
    hide Submitted, Step, Run, Init;
    var s1 := Step(w, s0, e1);
    var s2 := Step(w, s1, e2);
    FreshParameters(w, d);
    StepSubmits(w, s1, env, "a", round, a);
    StepSubmits(w, s2, env, "b", round, b);
    SecondSubmission(w, s1, s2, round, a, b);
    RunThree(w, s0, e1, e2, e3);
  }

  lemma RunThree(w: World, s: State, e1: Event, e2: Event, e3: Event)
    ensures Run(w, s, [e1, e2, e3]) == Step(w, Step(w, Step(w, s, e1), e2), e3)
  {
    hide Step;
    assert [e1, e2, e3] == [e1] + [e2] + [e3];
    RunSplit(w, s, [e1] + [e2], [e3]);
    RunSplit(w, s, [e1], [e2]);
    RunOne(w, s, e1);
    RunOne(w, Step(w, s, e1), e2);
    RunOne(w, Step(w, Step(w, s, e1), e2), e3);
  }

  /**
   * The gateway's archive, overwritten on every submission, drand's write-once beacons and all deliveries agree
   * after every run, exactly if valid signatures of a round yield one randomness.
   */
  lemma AgreementIffUnique(w: World, d: Deployment)
    requires P.Faithful(w.codec)
    ensures (forall es: seq<Event> :: Agrees(After(w, d, es))) <==> UniqueRandomness(w.crypto)
  {
    hide After;
    if UniqueRandomness(w.crypto) {
      forall es: seq<Event>
        ensures Agrees(After(w, d, es))
      {
        Reachable(w, d, es);
        UniqueAgrees(w, After(w, d, es));
      }
    }
    if forall es: seq<Event> :: Agrees(After(w, d, es)) {
      forall round: nat, a: Bytes, b: Bytes | round <= U32_MAX && w.crypto.verify(round, a) && w.crypto.verify(round, b)
        ensures w.crypto.derive(a) == w.crypto.derive(b)
      {
        if w.crypto.derive(a) != w.crypto.derive(b) {
          DisagreementRun(w, d, round, a, b);
        }
      }
    }
  }

  // ---- Money ----

  /**
   * After every run, one price was charged per accepted request, and what a contract ever received is its
   * balance plus what was recorded as spent: prices charged, bot payouts, initial funds and burnt ashes.
   */
  lemma MoneyConserved(w: World, d: Deployment, es: seq<Event>, a: L.Account)
    requires P.Faithful(w.codec) && L.IsContract(w.addresses, a.0)
    ensures
      var s := After(w, d, es);
      && |s.ledger.charges| == GR.TotalRequested(s.gateway.customers)
      && L.At(s.ledger.bank.received, a) == L.At(s.ledger.bank.balance, a) + L.Recorded(w.addresses, s.ledger, a)
  {
    hide After, Run, PlacesInv, ContentInv, GR.Inv, DR.Inv, MarkInv, AgreeInv, DrainInv, P.Faithful, L.Recorded, GR.TotalRequested;
    Reachable(w, d, es);
    var s := After(w, d, es);
    assert L.At(s.ledger.bank.spent, a) == L.Recorded(w.addresses, s.ledger, a);
  }

  /**
   * Over every run, the recorded spending is exactly what the events account for, in order: the gateway's price
   * at each accepted request, its initial funds at each new channel, and the reward of each accepted
   * submission that the balance covered.
   */
  lemma SpendingAccountedFor(w: World, d: Deployment, es: seq<Event>)
    requires P.Faithful(w.codec)
    ensures BooksOf(After(w, d, es).ledger) == BooksOfRun(w, Init(w, d), es)
  {
    hide Inv, P.Faithful, Run, BooksOfRun;
    InitInv(w, d);
    RunBooks(w, Init(w, d), es);
  }

  /**
   * Over every run, what any account received, contract or not, is exactly what the events account for: of each accepted
   * request's price 40% for the sink, 20% for the relayer and the rest for the pool, initial funds for new payment
   * contracts, rewards for the submitting bots, and what came from outside.
   */
  lemma ReceiptsAccountedFor(w: World, d: Deployment, es: seq<Event>, a: L.Account)
    requires P.Faithful(w.codec)
    ensures L.At(After(w, d, es).ledger.bank.received, a) == CreditsOfRun(w, Init(w, d), es, a)
  {
    hide Inv, P.Faithful, Run, CreditsOfRun;
    InitInv(w, d);
    RunReceipts(w, Init(w, d), es, a);
  }
}
