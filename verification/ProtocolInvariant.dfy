/** What holds in every reachable state of the protocol, and that every event keeps it. */
module ProtocolInvariant {
  import opened Base
  import opened Sums
  import opened Rounds
  import opened SourceIds
  import opened Crypto
  import opened Traces
  import opened JobStore
  import opened Protocol
  import G = GatewayModel
  import GR = GatewayRuns
  import D = DrandModel
  import DR = DrandRuns
  import P = ProxyModel
  import L = Ledger

  type Owner = map<Loc, nat>

  // ---- Wiring ----

  ghost predicate Wired(w: World, g: G.Config, d: D.Config) {
    && g.drand == Some(w.addresses.drand) && g.trustedSources == [w.addresses.drand]
    && d.gateway == Some(w.addresses.gateway)
  }

  ghost predicate ChannelsInv(w: World, proxies: map<string, P.State>, customers: map<string, G.Customer>,
                              requests: seq<Request>)
  {
    && proxies.Keys == customers.Keys
    && (forall c <- customers :: customers[c].payment == w.addresses.paymentOf(c))
    && forall i :: 0 <= i < |requests| ==> requests[i].channel in customers
  }

  // ---- The occupied locations are exactly the packets, jobs, deliveries and callbacks ----

  ghost predicate RequestPlaces(net: Net, owner: Owner) {
    && (forall n: nat :: RequestInFlight(n) in owner <==> n in net.requestsInFlight)
    && (forall n: nat :: RequestExpired(n) in owner <==> n in net.requestsExpired)
    && (forall n: nat :: RequestRejected(n) in owner <==> n in net.requestsRejected)
  }

  ghost predicate QueuePlaces(queues: map<nat, seq<G.Job>>, lastJobId: map<nat, nat>, owner: Owner) {
    forall r: nat, id: nat :: Queued(r, id) in owner <==> Gone(lastJobId, queues, r) < id <= CountAt(lastJobId, r)
  }

  ghost predicate DeliveryPlaces(net: Net, owner: Owner) {
    && (forall d: nat :: DeliveryInFlight(d) in owner <==> d in net.deliveriesInFlight)
    && (forall d: nat :: DeliveryExpired(d) in owner <==> d in net.deliveriesExpired)
    && (forall d: nat :: DeliveryRefused(d) in owner <==> d in net.deliveriesRefused)
    && (forall d: nat :: d in net.deliveriesInFlight || d in net.deliveriesExpired || d in net.deliveriesRefused ==>
          d < |net.deliveries|)
  }

  ghost predicate CallPlaces(calls: seq<DappCall>, owner: Owner) {
    forall k: nat :: CalledBack(k) in owner <==> k < |calls|
  }

  ghost predicate PlacesInv(s: State) {
    var p := s.trace.places;
    && OneToOne(p) && |p.locOf| == |s.trace.requests|
    && RequestPlaces(s.net, p.owner)
    && QueuePlaces(s.gateway.queues, s.gateway.lastJobId, p.owner)
    && DeliveryPlaces(s.net, p.owner)
    && CallPlaces(s.net.calls, p.owner)
  }

  // ---- What is at a location belongs to the request that owns it ----

  ghost predicate PacketsInv(w: World, net: Net, requests: seq<Request>, owner: Owner) {
    && |net.packets| == |requests|
    && (forall n :: 0 <= n < |requests| ==> net.packets[n] == PacketOf(w, requests[n]))
    && (forall n: nat :: RequestInFlight(n) in owner ==> n < |requests| && owner[RequestInFlight(n)] == n)
    && (forall n: nat :: RequestExpired(n) in owner ==> n < |requests| && owner[RequestExpired(n)] == n)
    && (forall n: nat :: RequestRejected(n) in owner ==> n < |requests| && owner[RequestRejected(n)] == n)
  }

  ghost predicate JobMatches(w: World, q: seq<G.Job>, index: int, round: nat, requests: seq<Request>, i: nat) {
    && i < |requests| && 0 <= index < |q|
    && q[index] == JobOf(w, requests[i]) && RoundAfter(requests[i].after) == round
  }

  ghost predicate JobsInv(w: World, queues: map<nat, seq<G.Job>>, lastJobId: map<nat, nat>, requests: seq<Request>,
                          owner: Owner)
  {
    forall r: nat, id: nat :: Queued(r, id) in owner ==>
      JobMatches(w, G.QueueAt(queues, r), id - 1 - Gone(lastJobId, queues, r), r, requests, owner[Queued(r, id)])
  }

  /** A delivery answers the request: right channel and origin, its round's publish time and verified randomness. */
  ghost predicate DeliveryAnswers(w: World, d: G.Delivery, q: Request, beacons: map<nat, D.Beacon>) {
    var round := RoundAfter(q.after);
    && d.channel == q.channel && d.origin == OriginOf(w, q) && d.sourceId == SourceId(round)
    && d.published == PublishTime(round)
    && round in beacons && IsRandomnessOf(w.crypto, round, d.randomness)
  }

  ghost predicate DeliveriesInv(w: World, deliveries: seq<G.Delivery>, deliveryOwner: seq<nat>, requests: seq<Request>,
                                beacons: map<nat, D.Beacon>)
  {
    && |deliveryOwner| == |deliveries|
    && forall d :: 0 <= d < |deliveries| ==>
         deliveryOwner[d] < |requests| && DeliveryAnswers(w, deliveries[d], requests[deliveryOwner[d]], beacons)
  }

  /** A callback reaches the original sender with its job id, its round's publish time and verified randomness. */
  ghost predicate CallAnswers(w: World, c: DappCall, q: Request, beacons: map<nat, D.Beacon>) {
    var round := RoundAfter(q.after);
    && c.channel == q.channel && c.callback.contract == q.sender && c.callback.jobId == q.jobId
    && c.callback.published == PublishTime(round)
    && round in beacons && IsRandomnessOf(w.crypto, round, c.callback.randomness)
  }

  ghost predicate CallsInv(w: World, calls: seq<DappCall>, callOwner: seq<nat>, requests: seq<Request>,
                           beacons: map<nat, D.Beacon>)
  {
    && |callOwner| == |calls|
    && forall k :: 0 <= k < |calls| ==>
         callOwner[k] < |requests| && CallAnswers(w, calls[k], requests[callOwner[k]], beacons)
  }

  ghost predicate OwnersInv(owner: Owner, deliveryOwner: seq<nat>, callOwner: seq<nat>) {
    && (forall d: nat :: DeliveryInFlight(d) in owner ==>
          d < |deliveryOwner| && owner[DeliveryInFlight(d)] == deliveryOwner[d])
    && (forall d: nat :: DeliveryExpired(d) in owner ==>
          d < |deliveryOwner| && owner[DeliveryExpired(d)] == deliveryOwner[d])
    && (forall k: nat :: CalledBack(k) in owner ==> k < |callOwner| && owner[CalledBack(k)] == callOwner[k])
  }

  ghost predicate ContentInv(w: World, s: State) {
    var owner, requests := s.trace.places.owner, s.trace.requests;
    && PacketsInv(w, s.net, requests, owner)
    && JobsInv(w, s.gateway.queues, s.gateway.lastJobId, requests, owner)
    && DeliveriesInv(w, s.net.deliveries, s.trace.deliveryOwner, requests, s.drand.beacons)
    && CallsInv(w, s.net.calls, s.trace.callOwner, requests, s.drand.beacons)
    && OwnersInv(owner, s.trace.deliveryOwner, s.trace.callOwner)
  }

  // ---- Agreement between gateway and drand ----

  /** The same rounds are archived at the gateway and verified at drand, and the archive holds verified randomness. */
  ghost predicate AgreeInv(c: Scheme, archive: map<nat, Bytes>, beacons: map<nat, D.Beacon>) {
    archive.Keys == beacons.Keys && forall r <- archive :: IsRandomnessOf(c, r, archive[r])
  }

  /** How many queued jobs n accepted submissions of a round deliver, if there are enough. */
  function Budget(n: nat): nat {
    Min(n, 3) + 10 * (n - Min(n, 3))
  }

  ghost predicate DrainInv(queues: map<nat, seq<G.Job>>, lastJobId: map<nat, nat>, arrivals: map<nat, seq<D.Submission>>) {
    forall r: nat ::
      |G.QueueAt(queues, r)|
      == CountAt(lastJobId, r) - Min(CountAt(lastJobId, r), Budget(|D.ArrivalsAt(arrivals, r)|))
  }

  ghost predicate MarkInv(lastJobId: map<nat, nat>, incentivized: map<nat, nat>) {
    forall r: nat :: CountAt(lastJobId, r) > 0 ==> r in incentivized
  }

  // ---- Counting ----

  ghost predicate CountsInv(s: State) {
    && |s.trace.requests| == |s.net.requestsInFlight| + |s.net.requestsExpired| + |s.net.requestsRejected|
                             + GR.TotalRequested(s.gateway.customers)
    && Sum<nat>(s.gateway.processed) == |s.net.deliveries|
    && |s.net.deliveries| == |s.net.deliveriesInFlight| + |s.net.deliveriesExpired| + |s.net.calls|
    && s.net.deliveriesRefused == {}
    && |s.ledger.charges| == GR.TotalRequested(s.gateway.customers)
  }

  ghost predicate Inv(w: World, s: State) {
    && Wired(w, s.gateway.config, s.drand.config)
    && ChannelsInv(w, s.proxies, s.gateway.customers, s.trace.requests)
    && GR.Inv(s.gateway) && DR.Inv(w.crypto, s.drand) && L.Inv(w.addresses, s.ledger)
    && PlacesInv(s)
    && ContentInv(w, s)
    && AgreeInv(w.crypto, s.gateway.archive, s.drand.beacons)
    && DrainInv(s.gateway.queues, s.gateway.lastJobId, s.drand.arrivals)
    && MarkInv(s.gateway.lastJobId, s.drand.incentivized)
    && CountsInv(s)
  }

  lemma InitInv(w: World, d: Deployment)
    ensures Inv(w, Init(w, d))
  {
    var s := Init(w, d);
    GR.InitInv(s.gateway.config);
    DR.InitInv(w.crypto, s.drand.config);
    hide GR.QueueInv, GR.JobsInv, GR.CountInv, GR.CustomerInv, GR.TotalInv, DR.Inv;
    assert GR.Requested(s.gateway.customers) == map[];
  }
}
