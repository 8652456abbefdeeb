/**
 * The whole protocol: proxies on consumer chains, the gateway, the drand contract and the bank on the Nois
 * chain, and packets travelling over unordered IBC channels. Every event is one transaction; a failing call
 * or a failing dispatched message leaves the state unchanged.
 */
module Protocol {
  import opened Base
  import opened Rounds
  import opened Crypto
  import opened Traces
  import opened JobStore
  import G = GatewayModel
  import D = DrandModel
  import P = ProxyModel
  import L = Ledger

  datatype World = World(crypto: Scheme, codec: P.Codec, addresses: L.Addresses)

  /** A request a proxy accepted. */
  datatype Request = Request(channel: string, sender: Addr, jobId: string, after: Timestamp)

  /** A `RequestBeacon` packet and the gateway channel it arrives on. */
  datatype Packet = Packet(channel: string, after: Timestamp, origin: Bytes)

  datatype DappCall = DappCall(channel: string, callback: P.Callback)

  /**
   * All packets ever sent, by sequence number, and what became of them. Each packet is delivered at most
   * once, in any order, or times out.
   */
  datatype Net = Net(
    packets: seq<Packet>,
    requestsInFlight: set<nat>,
    requestsExpired: set<nat>,
    requestsRejected: set<nat>,
    deliveries: seq<G.Delivery>,
    deliveriesInFlight: set<nat>,
    deliveriesExpired: set<nat>,
    deliveriesRefused: set<nat>,
    calls: seq<DappCall>)

  /**
   * History, which no step reads: the accepted requests, where they are, for which request a job (by round and
   * id), a delivery or a callback was made, and which delivery led to a callback.
   */
  datatype Trace = Trace(
    requests: seq<Request>,
    places: Places,
    jobOwner: map<(nat, nat), nat>,
    deliveryOwner: seq<nat>,
    callOwner: seq<nat>,
    callDelivery: seq<nat>)

  datatype State = State(
    gateway: G.State, drand: D.State, proxies: map<string, P.State>, ledger: L.Ledger, net: Net, trace: Trace)

  datatype Event =
    | Connect(channel: string, time: Timestamp, proxy: P.State)
    | AskForRandomness(channel: string, time: Timestamp, sender: Addr, funds: seq<Coin>,
                       requestedAfter: Option<Timestamp>, jobId: string)
    | RelayRequest(packet: nat, relayer: Addr, env: Env)
    | TimeoutRequest(packet: nat)
    | SubmitRound(env: Env, bot: Addr, fundsSent: bool, round: nat, signature: Bytes)
    | RelayDelivery(delivery: nat)
    | TimeoutDelivery(delivery: nat)
    /** Direct calls by accounts other than the contracts of this deployment. */
    | ForeignVerifiedRound(env: Env, sender: Addr, round: nat, randomness: Bytes, isVerifyingTx: bool)
    | ForeignMark(sender: Addr, round: nat)
    /** Administration that keeps the wiring between the contracts. */
    | SetGatewayParameters(price: Coin, paymentInitialFunds: Option<Coin>)
    | SetDrandParameters(minRound: nat, incentivePointPrice: nat, incentiveDenom: string)
    | RegisterBot(bot: Addr, moniker: string)
    | SetAllowlist(bots: set<Addr>)
    | ConfigureProxy(channel: string, proxy: P.State)
    /** Coins arrive from elsewhere; outsiders, who are no contract of this deployment, spend or burn theirs. */
    | Arrive(account: L.Account, amount: nat)
    | Send(from: Addr, to: Option<Addr>, coin: Coin)
    | BurnAtSink(burner: Addr, funds: seq<Coin>, time: Timestamp)
    | BurnSinkBalance(funds: seq<Coin>, time: Timestamp)

  // ---- What a request turns into ----

  function OriginOf(w: World, q: Request): Bytes {
    w.codec.encode(P.Origin(q.sender, q.jobId))
  }

  function PacketOf(w: World, q: Request): Packet {
    Packet(q.channel, q.after, OriginOf(w, q))
  }

  function JobOf(w: World, q: Request): G.Job {
    G.RequestJob(q.channel, q.after, OriginOf(w, q))
  }

  // ---- Steps ----

  /** The next k sequence numbers. */
  function NewIds(from: nat, k: nat): (ids: set<nat>)
    ensures forall d: nat :: d in ids <==> from <= d < from + k
    ensures |ids| == k
  {
    if k == 0 then {} else NewIds(from, k - 1) + {from + k - 1}
  }

  function SendAll(net: Net, ds: seq<G.Delivery>): Net {
    net.(deliveries := net.deliveries + ds,
         deliveriesInFlight := net.deliveriesInFlight + NewIds(|net.deliveries|, |ds|))
  }

  ghost function Asked(w: World, s: State, channel: string, time: Timestamp, sender: Addr, funds: seq<Coin>,
                       requestedAfter: Option<Timestamp>, jobId: string): State
  {
    if channel !in s.proxies then s
    else
      var r := P.GetRandomness(w.codec, s.proxies[channel], time, sender, funds, requestedAfter, jobId);
      if !r.Ok? then s
      else
        var n := |s.net.packets|;
        var packet := r.value.packet;
        s.(proxies := s.proxies[channel := r.value.state],
           net := s.net.(packets := s.net.packets + [Packet(channel, packet.after, packet.origin)],
                         requestsInFlight := s.net.requestsInFlight + {n}),
           trace := s.trace.(requests := s.trace.requests + [Request(channel, sender, jobId, packet.after)],
                             places := Added(s.trace.places, RequestInFlight(n))))
  }

  predicate Dispatchable(m: G.Msg) {
    m.Pay? ==> m.burn.denom == m.relayerShare.denom == m.communityPool.denom
  }

  /** What one message of the gateway does: send a packet, call the drand contract, or pay. */
  function DispatchOne(w: World, s: State, m: G.Msg, time: Timestamp): Res<State>
    requires Dispatchable(m)
  {
    match m
    case SendBeacon(delivery) => Ok(s.(net := SendAll(s.net, [delivery])))
    case SetIncentivized(drand, round) =>
      if drand != w.addresses.drand then Err(NotFound)
      else
        var marked :- D.SetIncentivized(s.drand, w.addresses.gateway, round);
        Ok(s.(drand := marked))
    case Pay(payment, burn, relayer, relayerShare, communityPool) =>
      var paid :- L.Pay(w.addresses, s.ledger, payment, burn, relayer, relayerShare, communityPool, time);
      Ok(s.(ledger := paid))
  }

  /** Dispatches the gateway's messages in order. */
  function Dispatch(w: World, s: State, msgs: seq<G.Msg>, time: Timestamp): Res<State>
    requires forall i :: 0 <= i < |msgs| ==> Dispatchable(msgs[i])
    decreases |msgs|
  {
    if msgs == [] then Ok(s)
    else
      var s1 :- DispatchOne(w, s, msgs[0], time);
      Dispatch(w, s1, msgs[1..], time)
  }

  lemma ReplyMessagesDispatchable(g: G.State, env: Env, channel: string, relayer: Addr, after: Timestamp, origin: Bytes)
    requires G.ReceiveRequest(g, env, channel, relayer, after, origin).Ok?
    ensures
      var msgs := G.ReceiveRequest(g, env, channel, relayer, after, origin).value.msgs;
      forall i :: 0 <= i < |msgs| ==> Dispatchable(msgs[i])
  {
  }

  /** The move of a request the gateway acknowledged: rejected, queued under its new id, or answered. */
  function AcknowledgedPlace(s: State, n: nat, reply: G.Reply, after: Timestamp): Loc {
    match reply.ack
    case ErrorAck => RequestRejected(n)
    case RequestQueued(_) => Queued(RoundAfter(after), G.LastJobId(reply.state, RoundAfter(after)))
    case RequestProcessed(_) => DeliveryInFlight(|s.net.deliveries|)
  }

  ghost function Relayed(w: World, s: State, n: nat, relayer: Addr, env: Env): State {
    if n !in s.net.requestsInFlight || n >= |s.net.packets| then s
    else
      var packet := s.net.packets[n];
      if packet.channel !in s.gateway.customers then s
      else
        var r := G.ReceiveRequest(s.gateway, env, packet.channel, relayer, packet.after, packet.origin);
        if !r.Ok? then s
        else
          ReplyMessagesDispatchable(s.gateway, env, packet.channel, relayer, packet.after, packet.origin);
          var reply := r.value;
          var place := AcknowledgedPlace(s, n, reply, packet.after);
          var dispatched := Dispatch(w, s.(gateway := reply.state), reply.msgs, env.time);
          if !dispatched.Ok? then s
          else
            var s1 := dispatched.value;
            s1.(net := s1.net.(requestsInFlight := s1.net.requestsInFlight - {n},
                               requestsRejected := if reply.ack.ErrorAck? then s1.net.requestsRejected + {n}
                                                   else s1.net.requestsRejected),
                trace := s.trace.(places := Moved(s.trace.places, RequestInFlight(n), place),
                                  jobOwner := if place.Queued? then s.trace.jobOwner[(place.round, place.id) := n]
                                              else s.trace.jobOwner,
                                  deliveryOwner := if reply.ack.RequestProcessed? then s.trace.deliveryOwner + [n]
                                                   else s.trace.deliveryOwner))
  }

  /** The gateway processes a verified round: its drained jobs become deliveries. */
  ghost function Forwarded(s: State, env: Env, sender: Addr, round: nat, randomness: Bytes, isVerifyingTx: bool): Option<State> {
    var r := G.AddVerifiedRound(s.gateway, env, sender, round, randomness, isVerifyingTx);
    if !r.Ok? then None
    else
      var k := G.DrainCount(s.gateway, round, isVerifyingTx);
      var gone := Gone(s.gateway.lastJobId, s.gateway.queues, round);
      Some(s.(gateway := r.value.state,
              net := SendAll(s.net, r.value.deliveries),
              trace := s.trace.(places := Drain(s.trace.places, round, gone, |s.net.deliveries|, k),
                                deliveryOwner := s.trace.deliveryOwner + DrainedOwners(s.trace.places, round, gone, k))))
  }

  ghost function Submitted(w: World, s: State, env: Env, bot: Addr, fundsSent: bool, round: nat, signature: Bytes): State {
    var balance := L.At(s.ledger.bank.balance, (w.addresses.drand, s.drand.config.incentiveDenom));
    var r := D.AddRound(w.crypto, s.drand, env, bot, fundsSent, round, signature, balance);
    if !r.Ok? then s
    else
      var s1 := s.(drand := r.value.state);
      var s2 :=
        match r.value.forward
        case None => Some(s1)
        case Some(f) =>
          if f.gateway != w.addresses.gateway then None
          else Forwarded(s1, env, w.addresses.drand, f.round, f.randomness, f.isVerifyingTx);
      var paid := L.PayBot(w.addresses, s.ledger, bot, r.value.payout);
      if s2.None? || !paid.Ok? then s else s2.value.(ledger := paid.value)
  }

  function Delivered(w: World, s: State, d: nat): State {
    if d !in s.net.deliveriesInFlight || d >= |s.net.deliveries| then s
    else
      var delivery := s.net.deliveries[d];
      if delivery.channel !in s.proxies then s
      else
        var net := s.net.(deliveriesInFlight := s.net.deliveriesInFlight - {d});
        match P.ReceiveBeacon(w.codec, delivery.published, delivery.randomness, delivery.origin)
        case Some(callback) =>
          s.(net := net.(calls := net.calls + [DappCall(delivery.channel, callback)]),
             trace := s.trace.(places := Moved(s.trace.places, DeliveryInFlight(d), CalledBack(|net.calls|)),
                               callDelivery := s.trace.callDelivery + [d],
                               callOwner := s.trace.callOwner
                                            + [if d < |s.trace.deliveryOwner| then s.trace.deliveryOwner[d] else 0]))
        case None =>
          s.(net := net.(deliveriesRefused := net.deliveriesRefused + {d}),
             trace := s.trace.(places := Moved(s.trace.places, DeliveryInFlight(d), DeliveryRefused(d))))
  }

  function RequestTimedOut(s: State, n: nat): State {
    if n !in s.net.requestsInFlight then s
    else
      s.(net := s.net.(requestsInFlight := s.net.requestsInFlight - {n},
                       requestsExpired := s.net.requestsExpired + {n}),
         trace := s.trace.(places := Moved(s.trace.places, RequestInFlight(n), RequestExpired(n))))
  }

  function DeliveryTimedOut(s: State, d: nat): State {
    if d !in s.net.deliveriesInFlight then s
    else
      s.(net := s.net.(deliveriesInFlight := s.net.deliveriesInFlight - {d},
                       deliveriesExpired := s.net.deliveriesExpired + {d}),
         trace := s.trace.(places := Moved(s.trace.places, DeliveryInFlight(d), DeliveryExpired(d))))
  }

  /**
   * An IBC channel id is connected once. The gateway creates and funds the channel's payment contract; the
   * proxy then knows the channel.
   */
  function Connected(w: World, s: State, channel: string, time: Timestamp, proxy: P.State): State {
    var payment := w.addresses.paymentOf(channel);
    var r := G.ChannelConnect(s.gateway, time, channel, payment);
    var funded := L.Fund(w.addresses, s.ledger, payment, s.gateway.config.paymentInitialFunds);
    if channel in s.gateway.customers || !r.Ok? || !funded.Ok? then s
    else
      s.(gateway := r.value.state, ledger := funded.value,
         proxies := s.proxies[channel := proxy.(gatewayChannel := Some(channel))])
  }

  ghost function Step(w: World, s: State, e: Event): State {
    match e
    case Connect(channel, time, proxy) => Connected(w, s, channel, time, proxy)
    case AskForRandomness(channel, time, sender, funds, requestedAfter, jobId) =>
      Asked(w, s, channel, time, sender, funds, requestedAfter, jobId)
    case RelayRequest(packet, relayer, env) => Relayed(w, s, packet, relayer, env)
    case TimeoutRequest(packet) => RequestTimedOut(s, packet)
    case SubmitRound(env, bot, fundsSent, round, signature) => Submitted(w, s, env, bot, fundsSent, round, signature)
    case RelayDelivery(delivery) => Delivered(w, s, delivery)
    case TimeoutDelivery(delivery) => DeliveryTimedOut(s, delivery)
    case ForeignVerifiedRound(env, sender, round, randomness, isVerifyingTx) =>
      if sender == w.addresses.drand then s
      else
        var r := Forwarded(s, env, sender, round, randomness, isVerifyingTx);
        if r.Some? then r.value else s
    case ForeignMark(sender, round) =>
      if sender == w.addresses.gateway then s
      else
        var r := D.SetIncentivized(s.drand, sender, round);
        if r.Ok? then s.(drand := r.value) else s
    case SetGatewayParameters(price, paymentInitialFunds) =>
      var config := s.gateway.config;
      s.(gateway := s.gateway.(config := G.Config(config.drand, config.trustedSources, price, paymentInitialFunds)))
    case SetDrandParameters(minRound, incentivePointPrice, incentiveDenom) =>
      s.(drand := s.drand.(config := D.Config(s.drand.config.gateway, minRound, incentivePointPrice, incentiveDenom)))
    case RegisterBot(bot, moniker) =>
      var r := D.RegisterBot(s.drand, bot, moniker);
      if r.Ok? then s.(drand := r.value) else s
    case SetAllowlist(bots) => s.(drand := s.drand.(allowlist := bots))
    case ConfigureProxy(channel, proxy) =>
      if channel !in s.proxies then s
      else s.(proxies := s.proxies[channel := proxy.(gatewayChannel := s.proxies[channel].gatewayChannel)])
    case Arrive(account, amount) => s.(ledger := L.Deposit(s.ledger, account, amount))
    case Send(from, to, coin) =>
      if L.IsContract(w.addresses, from) then s
      else s.(ledger := L.OrSame(L.Send(s.ledger, from, to, coin), s.ledger))
    case BurnAtSink(burner, funds, time) =>
      if L.IsContract(w.addresses, burner) then s
      else s.(ledger := L.OrSame(L.BurnFrom(w.addresses, s.ledger, burner, funds, time), s.ledger))
    case BurnSinkBalance(funds, time) =>
      s.(ledger := L.OrSame(L.BurnSinkBalance(w.addresses, s.ledger, funds, time), s.ledger))
  }

  ghost function Run(w: World, s: State, es: seq<Event>): State
    decreases |es|
  {
    if es == [] then s else Run(w, Step(w, s, es[0]), es[1..])
  }

  datatype Deployment = Deployment(
    price: Coin, paymentInitialFunds: Option<Coin>, minRound: nat, incentivePointPrice: nat, incentiveDenom: string)

  /** A fresh deployment: drand is the gateway's only trusted source and forwards to it from the start. */
  function Init(w: World, d: Deployment): State {
    State(G.InitState(G.Config(Some(w.addresses.drand), [w.addresses.drand], d.price, d.paymentInitialFunds)),
          D.InitState(D.Config(Some(w.addresses.gateway), d.minRound, d.incentivePointPrice, d.incentiveDenom)),
          map[], L.EMPTY,
          Net([], {}, {}, {}, [], {}, {}, {}, []),
          Trace([], Places([], map[]), map[], [], [], []))
  }
}
