/** What can still happen: every request can be served, and every queued job can be brought to its callback. */
module ProtocolProgress {
  import opened Base
  import opened Rounds
  import opened Crypto
  import opened Traces
  import opened JobStore
  import opened Protocol
  import opened ProtocolInvariant
  import opened ProtocolSteps
  import opened ProtocolRefinement
  import opened ProtocolHistory
  import opened ProtocolTheorems
  import G = GatewayModel
  import GR = GatewayRuns
  import D = DrandModel
  import DR = DrandRuns
  import P = ProxyModel
  import L = Ledger

  // ---- Every emitted request can be served ----

  /**
   * For a request emitted by a proxy whose `max_after` is below genesis + (2^32-2)·3s, the gateway's routing fails only
   * on an exhausted counter, exhausted job ids or a timeout beyond u64, never on the round.
   */
  lemma EmittedRequestIsRouted(codec: P.Codec, proxy: P.State, time: Timestamp, sender: Addr, funds: seq<Coin>,
                               requestedAfter: Option<Timestamp>, jobId: string, g: G.State, env: Env, channel: string)
    requires P.OrElse(proxy.maxAfter, P.MAX_AFTER_FALLBACK) < 14562587082 * NANOS
    requires P.GetRandomness(codec, proxy, time, sender, funds, requestedAfter, jobId).Ok?
    ensures
      var packet := P.GetRandomness(codec, proxy, time, sender, funds, requestedAfter, jobId).value.packet;
      var round := RoundAfter(packet.after);
      var r := G.Route(g, env, channel, packet.after, packet.origin);
      && !r.Err?
      && (r.Panic? <==>
            if round in g.archive then
              G.Processed(g, round) >= U32_MAX || env.time + G.DELIVER_BEACON_PACKET_LIFETIME * NANOS > U64_MAX
            else G.LastJobId(g, round) >= U16_MAX)
  {
    P.EmittedRequestIsServable(codec, proxy, time, sender, funds, requestedAfter, jobId);
    var packet := P.GetRandomness(codec, proxy, time, sender, funds, requestedAfter, jobId).value.packet;
    hide P.GetRandomness;
    G.RouteFailsIff(g, env, channel, packet.after, packet.origin);
  }

  predicate IsBounded(proxy: P.State) {
    P.OrElse(proxy.maxAfter, P.MAX_AFTER_FALLBACK) < 14562587082 * NANOS
  }

  /** Every proxy is configured within the bound. */
  predicate KeepsBound(e: Event) {
    (e.Connect? ==> IsBounded(e.proxy)) && (e.ConfigureProxy? ==> IsBounded(e.proxy))
  }

  ghost predicate AllBounded(s: State) {
    && (forall c <- s.proxies :: IsBounded(s.proxies[c]))
    && (forall i :: 0 <= i < |s.trace.requests| ==> RoundAfter(s.trace.requests[i].after) <= U32_MAX)
  }

  lemma AskedBounded(w: World, s: State, channel: string, time: Timestamp, sender: Addr, funds: seq<Coin>,
                     requestedAfter: Option<Timestamp>, jobId: string)
    requires AllBounded(s)
    ensures AllBounded(Asked(w, s, channel, time, sender, funds, requestedAfter, jobId))
  {
    hide Asks, P.GetRandomness, RoundAfter;
    var s' := Asked(w, s, channel, time, sender, funds, requestedAfter, jobId);
    if s' != s {
      var r := P.GetRandomness(w.codec, s.proxies[channel], time, sender, funds, requestedAfter, jobId);
      P.EmittedRequestIsServable(w.codec, s.proxies[channel], time, sender, funds, requestedAfter, jobId);
      SameMaxAfter(w.codec, s.proxies[channel], time, sender, funds, requestedAfter, jobId);
    }
  }

  lemma SameMaxAfter(codec: P.Codec, proxy: P.State, time: Timestamp, sender: Addr, funds: seq<Coin>,
                     requestedAfter: Option<Timestamp>, jobId: string)
    requires P.GetRandomness(codec, proxy, time, sender, funds, requestedAfter, jobId).Ok?
    ensures P.GetRandomness(codec, proxy, time, sender, funds, requestedAfter, jobId).value.state.maxAfter == proxy.maxAfter
  {
  }

  lemma StepBounded(w: World, s: State, e: Event)
    requires AllBounded(s) && KeepsBound(e)
    ensures AllBounded(Step(w, s, e))
  {
    hide RoundAfter, L.Fund, L.Send, L.BurnFrom, L.BurnSinkBalance, D.SetIncentivized, D.RegisterBot, L.IsContract, Asked;
    hide Relayed, D.AddRound, G.AddVerifiedRound, L.PayBot, Drain, DrainedOwners, Moved, SendAll, Gone;
    if e.RelayRequest? {
      RelayedFrame(w, s, e.packet, e.relayer, e.env);
    } else if e.AskForRandomness? {
      AskedBounded(w, s, e.channel, e.time, e.sender, e.funds, e.requestedAfter, e.jobId);
    }
  }

  lemma RelayedFrame(w: World, s: State, n: nat, relayer: Addr, env: Env)
    ensures
      var s' := Relayed(w, s, n, relayer, env);
      s'.proxies == s.proxies && s'.trace.requests == s.trace.requests
  {
    hide G.ReceiveRequest, Moved;
    if n in s.net.requestsInFlight && n < |s.net.packets| && s.net.packets[n].channel in s.gateway.customers {
      var packet := s.net.packets[n];
      var r := G.ReceiveRequest(s.gateway, env, packet.channel, relayer, packet.after, packet.origin);
      if r.Ok? {
        ReplyMessagesDispatchable(s.gateway, env, packet.channel, relayer, packet.after, packet.origin);
        var s0 := s.(gateway := r.value.state);
        if Dispatch(w, s0, r.value.msgs, env.time).Ok? {
          DispatchKeepsProxies(w, s0, r.value.msgs, env.time);
        }
      }
    }
  }

  lemma {:induction false} DispatchKeepsProxies(w: World, s: State, msgs: seq<G.Msg>, time: Timestamp)
    requires forall i :: 0 <= i < |msgs| ==> Dispatchable(msgs[i])
    requires Dispatch(w, s, msgs, time).Ok?
    ensures Dispatch(w, s, msgs, time).value.proxies == s.proxies
    decreases |msgs|
  {
    if msgs != [] {
      DispatchKeepsProxies(w, DispatchOne(w, s, msgs[0], time).value, msgs[1..], time);
    }
  }

  lemma {:induction false} RunBounded(w: World, s: State, es: seq<Event>)
    requires AllBounded(s) && forall e <- es :: KeepsBound(e)
    ensures AllBounded(Run(w, s, es))
    decreases |es|
  {
    hide AllBounded, Step;
    if es != [] {
      StepBounded(w, s, es[0]);
      RunBounded(w, Step(w, s, es[0]), es[1..]);
    }
  }

  /**
   * As long as all proxies keep their `max_after` below the bound, every request of every run commits to a round that
   * the gateway can queue, deliver and date; whenever it is routed, only counters or timeouts can fail.
   */
  lemma AllRequestsServable(w: World, d: Deployment, es: seq<Event>, i: nat, g: G.State, env: Env)
    requires (forall e <- es :: KeepsBound(e)) && i < |After(w, d, es).trace.requests|
    ensures
      var q := After(w, d, es).trace.requests[i];
      var round := RoundAfter(q.after);
      && 1 <= round <= U32_MAX && TimeOfRound(round).Ok?
      && (G.Route(g, env, q.channel, q.after, OriginOf(w, q)).Panic? <==>
            if round in g.archive then
              G.Processed(g, round) >= U32_MAX || env.time + G.DELIVER_BEACON_PACKET_LIFETIME * NANOS > U64_MAX
            else G.LastJobId(g, round) >= U16_MAX)
  {
    RunBounded(w, Init(w, d), es);
    hide Run, Init;
    var q := After(w, d, es).trace.requests[i];
    RoundAfterIsLeast(q.after, 1);
    TimeOfRoundIsPublishTime(RoundAfter(q.after));
    G.RouteFailsIff(g, env, q.channel, q.after, OriginOf(w, q));
  }

  // ---- Every queued job can be brought to its callback ----

  /** One submission of the round by each bot. */
  function Submissions(env: Env, bots: seq<Addr>, round: nat, signature: Bytes): seq<Event> {
    seq(|bots|, i requires 0 <= i < |bots| => SubmitRound(env, bots[i], false, round, signature))
  }

  /** New bots can submit the round one after the other, while counters and times are in range. */
  ghost predicate CanSubmitAll(w: World, s: State, env: Env, bots: seq<Addr>, round: nat, signature: Bytes) {
    && s.drand.config.minRound <= round <= U32_MAX && w.crypto.verify(round, signature)
    && (round in s.drand.beacons ==> s.drand.beacons[round].randomness == w.crypto.derive(signature))
    && G.CanSend(round, env.time)
    && G.Processed(s.gateway, round) + |G.Queue(s.gateway, round)| <= U32_MAX
    && |D.Arrivals(s.drand, round)| + |bots| <= U16_MAX
    && (forall i :: 0 <= i < |bots| ==> bots[i] !in s.drand.bots && !D.HasSubmitted(D.Arrivals(s.drand, round), bots[i]))
    && (forall i, j :: 0 <= i < j < |bots| ==> bots[i] != bots[j])
  }

  /** What submissions leave alone. */
  ghost predicate OnlySubmitted(s: State, s': State) {
    && s'.net.calls == s.net.calls && s'.net.deliveriesExpired == s.net.deliveriesExpired
    && s'.trace.requests == s.trace.requests && s'.trace.jobOwner == s.trace.jobOwner
    && s'.trace.callOwner == s.trace.callOwner && s'.trace.callDelivery == s.trace.callDelivery
    && s.trace.deliveryOwner <= s'.trace.deliveryOwner
    && s'.gateway.lastJobId == s.gateway.lastJobId
  }

  lemma OneSubmission(w: World, s: State, env: Env, bots: seq<Addr>, round: nat, signature: Bytes)
    requires Inv(w, s) && bots != [] && CanSubmitAll(w, s, env, bots, round, signature)
    ensures
      var s' := Submitted(w, s, env, bots[0], false, round, signature);
      && |D.Arrivals(s'.drand, round)| == |D.Arrivals(s.drand, round)| + 1
      && OnlySubmitted(s, s') && CanSubmitAll(w, s', env, bots[1..], round, signature)
  {
    hide Inv, Submitted, SendAll, G.CanSend, IsRandomnessOf;
    var n := |D.Arrivals(s.drand, round)|;
    WiredOk(w, s);
    BeaconOk(w, s, round);
    OutsiderSubmits(w, s, env, bots[0], round, signature);
    var s' := Submitted(w, s, env, bots[0], false, round, signature);
    assert D.Arrivals(s'.drand, round) == D.Arrivals(s.drand, round) + [D.Submission(bots[0], env, 0)];
    SendAllFrame(s.net, s'.net, G.DrainedDeliveries(s.gateway, env, round, w.crypto.derive(signature),
      G.DrainCount(s.gateway, round, n < 3)));
    forall i | 0 <= i < |bots[1..]|
      ensures !D.HasSubmitted(D.Arrivals(s'.drand, round), bots[1..][i])
    {
      assert bots[1..][i] == bots[i + 1];
      NotAmong(D.Arrivals(s.drand, round), D.Submission(bots[0], env, 0), bots[i + 1]);
    }
  }

  lemma NotAmong(subs: seq<D.Submission>, sub: D.Submission, bot: Addr)
    requires !D.HasSubmitted(subs, bot) && sub.bot != bot
    ensures !D.HasSubmitted(subs + [sub], bot)
  {
  }

  lemma SendAllFrame(net: Net, net': Net, ds: seq<G.Delivery>)
    requires net' == SendAll(net, ds)
    ensures net'.calls == net.calls && net'.deliveriesExpired == net.deliveriesExpired
  {
  }

  lemma BeaconOk(w: World, s: State, round: nat)
    requires Inv(w, s)
    ensures D.Arrivals(s.drand, round) != [] ==> round in s.drand.beacons
  {
    hide PlacesInv, ContentInv, GR.Inv, L.Inv, DrainInv, MarkInv, AgreeInv, CountsInv, ChannelsInv, Wired;
  }

  lemma {:induction false} AllSubmit(w: World, s: State, env: Env, bots: seq<Addr>, round: nat, signature: Bytes)
    requires Inv(w, s) && P.Faithful(w.codec) && CanSubmitAll(w, s, env, bots, round, signature)
    ensures
      var s' := Run(w, s, Submissions(env, bots, round, signature));
      |D.Arrivals(s'.drand, round)| == |D.Arrivals(s.drand, round)| + |bots| && OnlySubmitted(s, s')
    decreases |bots|
  {
    hide Inv, P.Faithful, Submitted, CanSubmitAll, Step;
    var es := Submissions(env, bots, round, signature);
    if bots != [] {
      OneSubmission(w, s, env, bots, round, signature);
      assert es[0] == SubmitRound(env, bots[0], false, round, signature);
      assert es[1..] == Submissions(env, bots[1..], round, signature);
      StepSubmits(w, s, env, bots[0], round, signature);
      StepInv(w, s, es[0]);
      AllSubmit(w, Step(w, s, es[0]), env, bots[1..], round, signature);
    }
  }

  /** A delivery made since a request was seen in the queue still travels if nothing was delivered or expired. */
  lemma NewDeliveryTravels(w: World, s: State, s': State, i: nat, k: nat)
    requires PlacesInv(s) && ContentInv(w, s) && PlacesInv(s') && ContentInv(w, s') && HistoryInv(s')
    requires OnlySubmitted(s, s') && i < |s.trace.places.locOf| && s.trace.places.locOf[i].Queued?
    requires k < |s'.trace.deliveryOwner| && s'.trace.deliveryOwner[k] == i
    ensures k in s'.net.deliveriesInFlight
  {
    hide JobsInv, PacketsInv, DeliveryAnswers, CallAnswers, RequestPlaces, QueuePlaces, HistoryInv;
    DeliveryPlace(w, s', k);
    var l := s'.trace.places.locOf[i];
    assert l in s'.trace.places.owner && s'.trace.places.owner[l] == i;
    assert l.DeliveryExpired? ==> l in s.trace.places.owner;
    assert l.CalledBack? ==> l in s.trace.places.owner;
  }

  /** Relaying a travelling delivery makes the callback of its request. */
  lemma RelayCallsBack(w: World, s: State, k: nat)
    requires Inv(w, s) && P.Faithful(w.codec) && k in s.net.deliveriesInFlight
    ensures
      var s' := Delivered(w, s, k);
      && k < |s.trace.deliveryOwner| && s.trace.deliveryOwner[k] < |s'.trace.places.locOf|
      && s'.trace.places.locOf[s.trace.deliveryOwner[k]] == CalledBack(|s.net.calls|)
      && |s'.net.calls| == |s.net.calls| + 1
  {
    hide Inv, PlacesInv, ContentInv, GR.Inv, CallAnswers, Moved, CanMove;
    InvPlaces(w, s);
    DeliveryCanMove(w, s, k);
    var q := s.trace.requests[s.trace.deliveryOwner[k]];
    DeliveryBecomesCall(w, s.net.deliveries[k], q, s.drand.beacons);
    ChannelOk(w, s, s.trace.deliveryOwner[k]);
    assert s.net.deliveries[k].channel in s.proxies;
    MovedLoc(s.trace.places, DeliveryInFlight(k), CalledBack(|s.net.calls|));
  }

  lemma MovedLoc(p: Places, from: Loc, to: Loc)
    requires CanMove(p, from, to)
    ensures |Moved(p, from, to).locOf| == |p.locOf| && p.owner[from] < |p.locOf|
    ensures Moved(p, from, to).locOf[p.owner[from]] == to
  {
  }

  lemma ChannelOk(w: World, s: State, i: nat)
    requires Inv(w, s) && i < |s.trace.requests|
    ensures s.trace.requests[i].channel in s.proxies
  {
    hide PlacesInv, ContentInv, GR.Inv, DR.Inv, L.Inv, DrainInv, MarkInv, AgreeInv, CountsInv, Wired;
  }

  /**
   * From every reachable state with a queued job, once enough new bots submit its round, relaying one delivery brings
   * the job's request to its callback.
   */
  lemma QueuedJobCanBeCalledBack(w: World, d: Deployment, es: seq<Event>, round: nat, id: nat, env: Env, bots: seq<Addr>,
                                 signature: Bytes) returns (k: nat)
    requires P.Faithful(w.codec)
    requires
      var s := After(w, d, es);
      var m := |D.Arrivals(s.drand, round)| + |bots|;
      && Occupied(s, Queued(round, id))
      && CanSubmitAll(w, s, env, bots, round, signature)
      && id <= Min(m, 3) + 10 * (m - Min(m, 3))
    ensures
      var s := After(w, d, es);
      var s' := After(w, d, es + Submissions(env, bots, round, signature) + [RelayDelivery(k)]);
      && (round, id) in s.trace.jobOwner
      && s.trace.requests == s'.trace.requests
      && (var i := s.trace.jobOwner[(round, id)];
          && i < |s.trace.places.locOf| && i < |s'.trace.places.locOf|
          && s.trace.places.locOf[i] == Queued(round, id)
          && s'.trace.places.locOf[i] == CalledBack(|s.net.calls|) && |s'.net.calls| == |s.net.calls| + 1)
  {
    hide Run, Init, Inv, HistoryInv, PlacesInv, ContentInv, GR.Inv, P.Faithful, CanSubmitAll, OnlySubmitted, Delivered;
    var s := After(w, d, es);
    var subs := Submissions(env, bots, round, signature);
    var s1 := After(w, d, es + subs);
    RunSplit(w, Init(w, d), es, subs);
    RunSplit(w, Init(w, d), es + subs, [RelayDelivery(0)]);
    ReachableHistory(w, d, es);
    ReachableHistory(w, d, es + subs);
    InvPlaces(w, s);
    InvPlaces(w, s1);
    QueueBound(s.gateway, round);
    AllSubmit(w, s, env, bots, round, signature);
    JobDelivered(w, s, round, id);
    SubmittedSame(s, s1);
    DeliveredIffWithinBudget(w, d, es + subs, round, id);
    var i := s.trace.jobOwner[(round, id)];
    k :| 0 <= k < |s1.trace.deliveryOwner| && s1.trace.deliveryOwner[k] == i;
    NewDeliveryTravels(w, s, s1, i, k);
    RelayCallsBack(w, s1, k);
    RunSplit(w, Init(w, d), es + subs, [RelayDelivery(k)]);
    RunOne(w, s1, RelayDelivery(k));
    DeliveredSame(w, s1, k);
  }

  lemma SubmittedSame(s: State, s': State)
    requires OnlySubmitted(s, s')
    ensures s'.trace.requests == s.trace.requests && s'.trace.jobOwner == s.trace.jobOwner
    ensures s'.gateway.lastJobId == s.gateway.lastJobId && s'.net.calls == s.net.calls
  {
  }

  lemma DeliveredSame(w: World, s: State, k: nat)
    ensures Delivered(w, s, k).trace.requests == s.trace.requests
    ensures Step(w, s, RelayDelivery(k)) == Delivered(w, s, k)
  {
  }

  // ---- A run from deployment to callback ----

  const PLAIN_PROXY :=
    P.State([Coin(0, "x")], P.Funded, None, 0, None, {}, Some(0), Some(0), false, None, None)

  const NOW := Env(0, 0, None)

  function FirstRequest(): seq<Event> {
    [Connect("c", 0, PLAIN_PROXY), AskForRandomness("c", 0, "dapp", [Coin(0, "x")], Some(0), "job"),
     RelayRequest(0, "relayer", NOW)]
  }

  const FREE := Deployment(Coin(0, "unois"), None, 0, 0, "unois")

  lemma FirstConnect(w: World)
    ensures
      var s := Step(w, Init(w, FREE), Connect("c", 0, PLAIN_PROXY));
      && s == Init(w, FREE).(gateway := s.gateway, proxies := map["c" := PLAIN_PROXY.(gatewayChannel := Some("c"))])
      && s.gateway == G.Connect(Init(w, FREE).gateway, "c", w.addresses.paymentOf("c"))
  {
  }

  lemma PlainRequestAccepted(codec: P.Codec)
    ensures P.GetRandomness(codec, PLAIN_PROXY.(gatewayChannel := Some("c")), 0, "dapp", [Coin(0, "x")], Some(0), "job")
            == Ok(P.Requested(PLAIN_PROXY.(gatewayChannel := Some("c")), None,
                              P.RequestPacket(0, codec.encode(P.Origin("dapp", "job")), 8_640_000_000_000_000)))
  {
    assert Utf8Length("job") <= 12;
    var prices := [Coin(0, "x")];
    assert prices[..0] == [];
    assert P.Pays(prices, prices[0]);
  }

  lemma FirstAsk(w: World, s: State)
    requires s.proxies == map["c" := PLAIN_PROXY.(gatewayChannel := Some("c"))] && s.net.packets == []
    requires s.net.requestsInFlight == {} && s.trace.requests == []
    ensures
      var s' := Step(w, s, AskForRandomness("c", 0, "dapp", [Coin(0, "x")], Some(0), "job"));
      && s' == s.(net := s'.net, trace := s'.trace) && s'.trace.requests == [Request("c", "dapp", "job", 0)]
      && s'.net == s.net.(packets := [Packet("c", 0, w.codec.encode(P.Origin("dapp", "job")))], requestsInFlight := {0})
  {
    hide P.GetRandomness;
    PlainRequestAccepted(w.codec);
    assert s.net.packets + [Packet("c", 0, w.codec.encode(P.Origin("dapp", "job")))]
           == [Packet("c", 0, w.codec.encode(P.Origin("dapp", "job")))];
  }

  /** A free request is queued: nothing has to be paid, and the round is marked. */
  lemma FirstRelay(w: World, s: State, origin: Bytes)
    requires |origin| <= G.MAX_ORIGIN_LEN && w.addresses.isValid("relayer")
    requires s.net.packets == [Packet("c", 0, origin)] && s.net.requestsInFlight == {0}
    requires s.gateway == G.Connect(Init(w, FREE).gateway, "c", w.addresses.paymentOf("c"))
    requires s.drand == Init(w, FREE).drand
    ensures
      var s' := Step(w, s, RelayRequest(0, "relayer", NOW));
      && G.LastJobId(s'.gateway, 1) == 1 && |G.Queue(s'.gateway, 1)| == 1 && G.Processed(s'.gateway, 1) == 0
      && s'.drand == s.drand.(incentivized := map[1 := 0]) && s'.net.calls == s.net.calls
      && s'.trace.requests == s.trace.requests
  {
    var r := G.ReceiveRequest(s.gateway, NOW, "c", "relayer", 0, origin);
    assert RoundAfter(0) == 1;
    var s0 := s.(gateway := r.value.state);
    var zero := Coin(0, "unois");
    assert r.value.msgs == [G.SetIncentivized(w.addresses.drand, 1),
                            G.Pay(w.addresses.paymentOf("c"), zero, "relayer", zero, zero)];
    FreePay(w, s.ledger, w.addresses.paymentOf("c"), zero);
    var s1 := s0.(drand := s.drand.(incentivized := map[1 := 0]));
    assert DispatchOne(w, s0, r.value.msgs[0], 0) == Ok(s1);
    TwoDispatched(w, s0, s1, r.value.msgs, 0);
  }

  lemma FreePay(w: World, l: L.Ledger, payment: Addr, zero: Coin)
    requires zero.amount == 0 && w.addresses.isValid("relayer")
    ensures L.Pay(w.addresses, l, payment, zero, "relayer", zero, zero, 0)
            == Ok(l.(charges := l.charges + [L.Charge(payment, Coin(0, zero.denom))]))
  {
  }

  lemma TwoDispatched(w: World, s: State, s1: State, msgs: seq<G.Msg>, time: Timestamp)
    requires |msgs| == 2 && Dispatchable(msgs[0]) && Dispatchable(msgs[1])
    requires DispatchOne(w, s, msgs[0], time) == Ok(s1)
    ensures DispatchOne(w, s1, msgs[1], time).Ok? ==> Dispatch(w, s, msgs, time) == DispatchOne(w, s1, msgs[1], time)
  {
    hide DispatchOne;
    assert msgs[1..][1..] == [];
    var r := DispatchOne(w, s1, msgs[1], time);
    if r.Ok? {
      assert Dispatch(w, r.value, [], time) == Ok(r.value);
      assert Dispatch(w, s1, msgs[1..], time) == r;
    }
  }

  /** The theorems above are not vacuous: some run leads from deployment to a callback of the requesting dapp. */
  lemma SomeRunCallsBack(w: World, signature: Bytes) returns (es: seq<Event>)
    requires P.Faithful(w.codec) && |w.codec.encode(P.Origin("dapp", "job"))| <= G.MAX_ORIGIN_LEN
    requires w.addresses.isValid("relayer") && w.crypto.verify(1, signature)
    ensures
      var s := After(w, FREE, es);
      && |s.net.calls| == 1
      && s.net.calls[0].callback.contract == "dapp" && s.net.calls[0].callback.jobId == "job"
      && s.net.calls[0].callback.published == DRAND_GENESIS
      && IsRandomnessOf(w.crypto, 1, s.net.calls[0].callback.randomness)
  {
    hide Run, Init, P.Faithful, Step, CanSubmitAll, IsRandomnessOf;
    RequestQueued(w, signature);
    var k := QueuedJobCanBeCalledBack(w, FREE, FirstRequest(), 1, 1, NOW, ["bot"], signature);
    es := FirstRequest() + Submissions(NOW, ["bot"], 1, signature) + [RelayDelivery(k)];
    CallbacksAreCorrect(w, FREE, es, 0);
    assert RoundAfter(0) == 1;
  }

  lemma RequestQueued(w: World, signature: Bytes)
    requires |w.codec.encode(P.Origin("dapp", "job"))| <= G.MAX_ORIGIN_LEN
    requires w.addresses.isValid("relayer") && w.crypto.verify(1, signature)
    ensures
      var s := After(w, FREE, FirstRequest());
      && Occupied(s, Queued(1, 1)) && D.Arrivals(s.drand, 1) == [] && s.net.calls == []
      && s.trace.requests == [Request("c", "dapp", "job", 0)]
      && CanSubmitAll(w, s, NOW, ["bot"], 1, signature)
  {
    hide Step, Run, Init, CanSubmitAll;
    var s0 := Init(w, FREE);
    NothingYet(w);
    var es := FirstRequest();
    var s1 := Step(w, s0, es[0]);
    var s2 := Step(w, s1, es[1]);
    FirstConnect(w);
    FirstAsk(w, s1);
    FirstRelay(w, s2, w.codec.encode(P.Origin("dapp", "job")));
    RunThree(w, s0, es[0], es[1], es[2]);
    FreshCanSubmit(w, Step(w, s2, es[2]), signature);
  }

  lemma NothingYet(w: World)
    ensures
      var s := Init(w, FREE);
      && s.net.packets == [] && s.net.requestsInFlight == {} && s.trace.requests == [] && s.net.calls == []
      && s.drand.bots == map[] && s.drand.arrivals == map[] && s.drand.beacons == map[] && s.drand.config.minRound == 0
  {
  }

  lemma FreshCanSubmit(w: World, s: State, signature: Bytes)
    requires s.drand.bots == map[] && s.drand.arrivals == map[] && s.drand.beacons == map[]
    requires s.drand.config.minRound == 0 && w.crypto.verify(1, signature)
    requires G.Processed(s.gateway, 1) == 0 && |G.Queue(s.gateway, 1)| == 1
    ensures CanSubmitAll(w, s, NOW, ["bot"], 1, signature)
  {
  }
}
