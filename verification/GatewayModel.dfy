/**
 * nois-gateway as a state machine on values. The job store is one FIFO sequence per drand round and
 * the capped drain loop is a closed form; GatewayContract.dfy proves that the stored, id-keyed maps
 * and the loop do the same.
 */
module GatewayModel {
  import opened Base
  import opened Rounds
  import opened SourceIds

  const MAX_ORIGIN_LEN := 512
  const MAX_JOBS_WITH_VERIFICATION := 1
  const MAX_JOBS_WITHOUT_VERIFICATION := 10
  const DELIVER_BEACON_PACKET_LIFETIME := 100 * 24 * 3600
  const WELCOME_PACKET_LIFETIME := 100 * 24 * 3600
  const BEACON_PRICE_PACKET_LIFETIME := 100 * 24 * 3600

  datatype Job = Job(sourceId: string, channel: string, origin: Bytes)

  datatype LogEntry = LogEntry(origin: Bytes, tx: (U64, Option<nat>), sourceId: string, queued: bool)

  datatype Customer = Customer(payment: Addr, requestedBeacons: nat)

  /** `trustedSources` is the stored list, where "unset" and "empty" mean the same. */
  datatype Config = Config(
    drand: Option<Addr>, trustedSources: seq<Addr>, price: Coin, paymentInitialFunds: Option<Coin>)

  /** A `DeliverBeacon` packet together with the channel it is sent on. */
  datatype Delivery = Delivery(
    channel: string, sourceId: string, published: int, randomness: Bytes, origin: Bytes, timeout: int)

  datatype Msg =
    | SendBeacon(delivery: Delivery)
    | SetIncentivized(drand: Addr, round: nat)
    | Pay(payment: Addr, burn: Coin, relayer: Addr, relayerShare: Coin, communityPool: Coin)

  datatype Ack = RequestProcessed(sourceId: string) | RequestQueued(sourceId: string) | ErrorAck

  datatype State = State(
    config: Config,
    queues: map<nat, seq<Job>>,
    lastJobId: map<nat, nat>,
    archive: map<nat, Bytes>,
    processed: map<nat, nat>,
    logs: map<string, seq<LogEntry>>,
    customers: map<string, Customer>)

  datatype Reply = Reply(state: State, ack: Ack, msgs: seq<Msg>)

  datatype NewDrandResult = NewDrandResult(state: State, deliveries: seq<Delivery>)

  function QueueAt(queues: map<nat, seq<Job>>, round: nat): seq<Job> {
    if round in queues then queues[round] else []
  }

  function LogAt(logs: map<string, seq<LogEntry>>, channel: string): seq<LogEntry> {
    if channel in logs then logs[channel] else []
  }

  function Queue(s: State, round: nat): seq<Job> {
    QueueAt(s.queues, round)
  }

  function LastJobId(s: State, round: nat): nat {
    CountAt(s.lastJobId, round)
  }

  function Processed(s: State, round: nat): nat {
    CountAt(s.processed, round)
  }

  function Log(s: State, channel: string): seq<LogEntry> {
    LogAt(s.logs, channel)
  }

  // ---- Price split ----

  function BurnShare(amount: nat): nat {
    amount * 40 / 100
  }

  function RelayerShare(amount: nat): nat {
    amount * 20 / 100
  }

  function PoolShare(amount: nat): int {
    amount - BurnShare(amount) - RelayerShare(amount)
  }

  /**
   * The subtraction on `Uint128` never underflows, the shares add up to the price, and rounding
   * favours the community pool by less than two units.
   */
  lemma SharesAddUp(amount: nat)
    ensures 0 <= PoolShare(amount)
    ensures BurnShare(amount) + RelayerShare(amount) + PoolShare(amount) == amount
    ensures 40 * amount <= 100 * PoolShare(amount) < 40 * amount + 200
    ensures 40 * amount - 100 < 100 * BurnShare(amount) <= 40 * amount
    ensures 20 * amount - 100 < 100 * RelayerShare(amount) <= 20 * amount
  {
  }

  // ---- Routing a request ----

  function BeaconDelivery(job: Job, round: nat, randomness: Bytes, time: Timestamp): Delivery {
    Delivery(job.channel, job.sourceId, PublishTime(round), randomness, job.origin,
             time + DELIVER_BEACON_PACKET_LIFETIME * NANOS)
  }

  predicate CanSend(round: nat, time: Timestamp) {
    1 <= round <= LAST_TIMED_ROUND && time + DELIVER_BEACON_PACKET_LIFETIME * NANOS <= U64_MAX
  }

  function RequestJob(channel: string, after: Timestamp, origin: Bytes): Job {
    Job(SourceId(RoundAfter(after)), channel, origin)
  }

  /** `handle_drand_request`: answer from the archive, or queue the job and ask drand to incentivize the round. */
  function Route(s: State, env: Env, channel: string, after: Timestamp, origin: Bytes): Res<Reply> {
    var round := RoundAfter(after);
    var job := RequestJob(channel, after, origin);
    if round in s.archive then
      if Processed(s, round) >= U32_MAX || !CanSend(round, env.time) then Panic
      else
        Ok(Reply(s.(processed := s.processed[round := Processed(s, round) + 1]),
                 RequestProcessed(SourceId(round)),
                 [SendBeacon(BeaconDelivery(job, round, s.archive[round], env.time))]))
    else if round > U32_MAX || LastJobId(s, round) >= U16_MAX then Panic
    else
      Ok(Reply(s.(queues := s.queues[round := Queue(s, round) + [job]],
                  lastJobId := s.lastJobId[round := LastJobId(s, round) + 1]),
               RequestQueued(SourceId(round)),
               match s.config.drand
               case Some(drand) => [SetIncentivized(drand, round)]
               case None => []))
  }

  function Logged(s: State, env: Env, channel: string, after: Timestamp, origin: Bytes, queued: bool): State {
    var entry := LogEntry(origin, (env.height, env.txIndex), SourceId(RoundAfter(after)), queued);
    s.(logs := s.logs[channel := Log(s, channel) + [entry]])
  }

  function PayMsg(customer: Customer, price: Coin, relayer: Addr): Msg {
    SharesAddUp(price.amount);
    Pay(customer.payment, Coin(BurnShare(price.amount), price.denom), relayer,
        Coin(RelayerShare(price.amount), price.denom), Coin(PoolShare(price.amount), price.denom))
  }

  /**
   * `receive_request_beacon` inside the packet handler. A returned error becomes an error acknowledgement
   * and keeps the writes made before it; a panic reverts the transaction.
   */
  function ReceiveRequest(s: State, env: Env, channel: string, relayer: Addr, after: Timestamp, origin: Bytes)
    : Res<Reply>
  {
    if |origin| > MAX_ORIGIN_LEN then Ok(Reply(s, ErrorAck, []))
    else
      var routed :- Route(s, env, channel, after, origin);
      var s1 := Logged(routed.state, env, channel, after, origin, routed.ack.RequestQueued?);
      if channel !in s1.customers then Ok(Reply(s1, ErrorAck, []))
      else
        var customer := s1.customers[channel];
        if customer.requestedBeacons >= U64_MAX then Panic
        else
          var customer' := customer.(requestedBeacons := customer.requestedBeacons + 1);
          Ok(Reply(s1.(customers := s1.customers[channel := customer']), routed.ack,
                   routed.msgs + [PayMsg(customer', s1.config.price, relayer)]))
  }

  /** What arrives on a channel; parsing is library code. */
  datatype InPacket =
    | RequestBeacon(after: Timestamp, origin: Bytes)
    | PullBeaconPrice
    | Unsupported
    | Unparsable

  datatype PacketAck = Answer(ack: Ack) | BeaconPrice(timestamp: Timestamp, price: Coin)

  datatype PacketReply = PacketReply(state: State, ack: PacketAck, msgs: seq<Msg>)

  /** `ibc_packet_receive` */
  function ReceivePacket(s: State, env: Env, channel: string, relayer: Addr, packet: InPacket): Res<PacketReply> {
    match packet
    case RequestBeacon(after, origin) =>
      var reply :- ReceiveRequest(s, env, channel, relayer, after, origin);
      Ok(PacketReply(reply.state, Answer(reply.ack), reply.msgs))
    case PullBeaconPrice => Ok(PacketReply(s, BeaconPrice(env.time, s.config.price), []))
    case _ => Ok(PacketReply(s, Answer(ErrorAck), []))
  }

  // ---- A new verified round ----

  function Cap(isVerifyingTx: bool): nat {
    if isVerifyingTx then MAX_JOBS_WITH_VERIFICATION else MAX_JOBS_WITHOUT_VERIFICATION
  }

  /** How many jobs one submission drains. */
  function DrainCount(s: State, round: nat, isVerifyingTx: bool): nat {
    Min(|Queue(s, round)|, Cap(isVerifyingTx))
  }

  predicate CanDrain(s: State, env: Env, round: nat, isVerifyingTx: bool) {
    var k := DrainCount(s, round, isVerifyingTx);
    && round <= U32_MAX
    && (k > 0 ==> CanSend(round, env.time) && Processed(s, round) + k <= U32_MAX)
  }

  function Drained(s: State, round: nat, k: nat): State
    requires k <= |Queue(s, round)|
  {
    if k == 0 then s
    else s.(queues := s.queues[round := Queue(s, round)[k..]],
            processed := s.processed[round := Processed(s, round) + k])
  }

  function DrainedDeliveries(s: State, env: Env, round: nat, randomness: Bytes, k: nat): seq<Delivery>
    requires k <= |Queue(s, round)|
  {
    seq(k, i requires 0 <= i < k => BeaconDelivery(Queue(s, round)[i], round, randomness, env.time))
  }

  function AddVerifiedRound(
    s: State, env: Env, sender: Addr, round: nat, randomness: Bytes, isVerifyingTx: bool)
    : Res<NewDrandResult>
  {
    if sender !in s.config.trustedSources then Err(Unauthorized)
    else if !CanDrain(s, env, round, isVerifyingTx) then Panic
    else
      var k := DrainCount(s, round, isVerifyingTx);
      Ok(NewDrandResult(Drained(s, round, k).(archive := s.archive[round := randomness]),
                        DrainedDeliveries(s, env, round, randomness, k)))
  }

  function Connect(s: State, channel: string, payment: Addr): State {
    s.(customers := s.customers[channel := Customer(payment, 0)])
  }

  /** The messages of `ibc_channel_connect`, in dispatch order. */
  datatype ConnectMsg =
    | InstantiatePayment(payment: Addr, funds: Option<Coin>)
    | Welcome(channel: string, payment: Addr, timeout: int)
    | PushBeaconPrice(channel: string, timestamp: Timestamp, price: Coin, timeout: int)

  datatype ConnectReply = ConnectReply(state: State, msgs: seq<ConnectMsg>)

  function ChannelConnect(s: State, time: Timestamp, channel: string, payment: Addr): Res<ConnectReply> {
    var welcomeTimeout := time + WELCOME_PACKET_LIFETIME * NANOS;
    var priceTimeout := time + BEACON_PRICE_PACKET_LIFETIME * NANOS;
    if welcomeTimeout > U64_MAX || priceTimeout > U64_MAX then Panic
    else
      Ok(ConnectReply(Connect(s, channel, payment),
                      [InstantiatePayment(payment, s.config.paymentInitialFunds),
                       Welcome(channel, payment, welcomeTimeout),
                       PushBeaconPrice(channel, time, s.config.price, priceTimeout)]))
  }

  function InitState(config: Config): State {
    State(config, map[], map[], map[], map[], map[], map[])
  }

  // ---- Acknowledgements ----

  /** On a connected channel a request is refused exactly for an over-long origin, and then nothing is written. */
  lemma RequestErrorAck(s: State, env: Env, channel: string, relayer: Addr, after: Timestamp, origin: Bytes)
    requires channel in s.customers
    requires ReceiveRequest(s, env, channel, relayer, after, origin).Ok?
    ensures
      var reply := ReceiveRequest(s, env, channel, relayer, after, origin).value;
      && (reply.ack.ErrorAck? <==> |origin| > 512)
      && (reply.ack.ErrorAck? ==> reply.state == s && reply.msgs == [])
  {
  }

  /** A call that ends in an error acknowledgement leaves no trace. */
  predicate AtomicOnError(s: State, env: Env, channel: string, relayer: Addr, packet: InPacket)
    requires ReceivePacket(s, env, channel, relayer, packet).Ok?
  {
    var reply := ReceivePacket(s, env, channel, relayer, packet).value;
    reply.ack == Answer(ErrorAck) ==> reply.state == s && reply.msgs == []
  }

  /**
   * On a connected channel the acknowledgement is an error exactly for packets that do not parse, packets of
   * an unsupported kind and requests with an over-long origin, and then nothing was written or sent.
   */
  lemma ErrorAckOnConnectedChannel(s: State, env: Env, channel: string, relayer: Addr, packet: InPacket)
    requires channel in s.customers && ReceivePacket(s, env, channel, relayer, packet).Ok?
    ensures
      ReceivePacket(s, env, channel, relayer, packet).value.ack == Answer(ErrorAck)
      <==> packet.Unparsable? || packet.Unsupported? || (packet.RequestBeacon? && |packet.origin| > 512)
    ensures AtomicOnError(s, env, channel, relayer, packet)
  {
    if packet.RequestBeacon? {
      RequestErrorAck(s, env, channel, relayer, packet.after, packet.origin);
    }
  }

  /**
   * Error acknowledgements are not atomic in general: the router's writes stay when the customer is missing.
   * A call is atomic exactly if the packet is no request, its origin is too long, or the channel is connected.
   */
  lemma ErrorAckAtomicIff(s: State, env: Env, channel: string, relayer: Addr, packet: InPacket)
    requires ReceivePacket(s, env, channel, relayer, packet).Ok?
    ensures AtomicOnError(s, env, channel, relayer, packet)
            <==> !packet.RequestBeacon? || |packet.origin| > 512 || channel in s.customers
  {
    if channel in s.customers {
      ErrorAckOnConnectedChannel(s, env, channel, relayer, packet);
    } else if packet.RequestBeacon? && |packet.origin| <= 512 {
      var s' := ReceivePacket(s, env, channel, relayer, packet).value.state;
      assert |Log(s', channel)| == |Log(s, channel)| + 1;
    }
  }

  /** A non-atomic call: a fresh gateway refuses a request on an unknown channel, yet keeps its job and its log entry. */
  lemma ErrorAckKeepsWrites(config: Config, env: Env, channel: string, relayer: Addr)
    ensures
      var s := InitState(config);
      var r := ReceivePacket(s, env, channel, relayer, RequestBeacon(0, []));
      && r.Ok? && r.value.ack == Answer(ErrorAck)
      && Queue(r.value.state, 1) == [RequestJob(channel, 0, [])] && Queue(s, 1) == []
      && |Log(r.value.state, channel)| == 1 && Log(s, channel) == []
  {
    assert RoundAfter(0) == 1;
  }

  /**
   * For a round within u32, routing fails exactly on an exhausted processed counter or a timeout beyond u64 if the
   * round is archived, and on exhausted job ids if it is not; it never returns an error.
   */
  lemma RouteFailsIff(s: State, env: Env, channel: string, after: Timestamp, origin: Bytes)
    requires RoundAfter(after) <= U32_MAX
    ensures !Route(s, env, channel, after, origin).Err?
    ensures
      var round := RoundAfter(after);
      Route(s, env, channel, after, origin).Panic? <==>
        if round in s.archive then
          Processed(s, round) >= 4_294_967_295 || env.time + 8_640_000_000_000_000 > 18_446_744_073_709_551_615
        else LastJobId(s, round) >= 65_535
  {
    RoundAfterIsLeast(after, 1);
    TimeOfRoundIsPublishTime(RoundAfter(after));
  }

  /** The delivery of a beacon, field by field; it may travel for 100 days. */
  predicate Delivers(d: Delivery, channel: string, round: nat, randomness: Bytes, origin: Bytes, time: Timestamp) {
    && d.channel == channel && d.sourceId == SourceId(round) && d.published == PublishTime(round)
    && d.randomness == randomness && d.origin == origin && d.timeout == time + 8_640_000_000_000_000
  }

  /** Routing touches only the scheduler: one job at the back of its round's queue, or one counted delivery. */
  lemma RouteEffects(s: State, env: Env, channel: string, after: Timestamp, origin: Bytes)
    requires Route(s, env, channel, after, origin).Ok?
    ensures
      var reply := Route(s, env, channel, after, origin).value;
      var s' := reply.state;
      var round := RoundAfter(after);
      && s'.config == s.config && s'.archive == s.archive && s'.logs == s.logs && s'.customers == s.customers
      && !reply.ack.ErrorAck? && reply.ack.sourceId == SourceId(round)
      && (reply.ack.RequestQueued? <==> round !in s.archive)
      && |reply.msgs| <= 1
      && (reply.ack.RequestQueued? ==>
            && Queue(s', round) == Queue(s, round) + [Job(SourceId(round), channel, origin)]
            && LastJobId(s', round) == LastJobId(s, round) + 1
            && s'.processed == s.processed
            && reply.msgs == (if s.config.drand.Some? then [SetIncentivized(s.config.drand.value, round)] else []))
      && (reply.ack.RequestProcessed? ==>
            && s'.queues == s.queues && s'.lastJobId == s.lastJobId
            && Processed(s', round) == Processed(s, round) + 1
            && |reply.msgs| == 1 && reply.msgs[0].SendBeacon?
            && Delivers(reply.msgs[0].delivery, channel, round, s.archive[round], origin, env.time))
      && (forall r: nat :: r != round ==>
            Queue(s', r) == Queue(s, r) && Processed(s', r) == Processed(s, r) && LastJobId(s', r) == LastJobId(s, r))
  {
  }

  /**
   * A success acknowledgement stands for exactly one log entry, one counted beacon, one Pay message that burns 40%
   * of the price, rewards the relayer with 20% and leaves the rest to the pool, and either one queued job (FIFO, at
   * the back) or one delivery.
   */
  lemma SuccessAckEffects(s: State, env: Env, channel: string, relayer: Addr, after: Timestamp, origin: Bytes)
    requires ReceiveRequest(s, env, channel, relayer, after, origin).Ok?
    requires !ReceiveRequest(s, env, channel, relayer, after, origin).value.ack.ErrorAck?
    ensures
      var reply := ReceiveRequest(s, env, channel, relayer, after, origin).value;
      var s' := reply.state;
      var round := RoundAfter(after);
      && channel in s.customers
      && reply.ack.sourceId == SourceId(round)
      && (reply.ack.RequestQueued? <==> round !in s.archive)
      && Log(s', channel) == Log(s, channel)
           + [LogEntry(origin, (env.height, env.txIndex), SourceId(round), reply.ack.RequestQueued?)]
      && (forall c: string :: c != channel ==> Log(s', c) == Log(s, c))
      && s'.customers[channel] == s.customers[channel].(requestedBeacons := s.customers[channel].requestedBeacons + 1)
      && (forall c <- s.customers :: c != channel ==> c in s'.customers && s'.customers[c] == s.customers[c])
      && |reply.msgs| >= 1 && reply.msgs[|reply.msgs| - 1].Pay?
      && (var pay := reply.msgs[|reply.msgs| - 1];
          var price := s.config.price.amount;
          && pay.payment == s.customers[channel].payment && pay.relayer == relayer
          && pay.burn.amount + pay.relayerShare.amount + pay.communityPool.amount == price
          && 40 * price - 100 < 100 * pay.burn.amount <= 40 * price
          && 20 * price - 100 < 100 * pay.relayerShare.amount <= 20 * price
          && 40 * price <= 100 * pay.communityPool.amount < 40 * price + 200
          && pay.burn.denom == pay.relayerShare.denom == pay.communityPool.denom == s.config.price.denom)
      && (reply.ack.RequestQueued? ==>
            && Queue(s', round) == Queue(s, round) + [Job(SourceId(round), channel, origin)]
            && LastJobId(s', round) == LastJobId(s, round) + 1
            && s'.processed == s.processed
            && reply.msgs[..|reply.msgs| - 1]
               == (if s.config.drand.Some? then [SetIncentivized(s.config.drand.value, round)] else []))
      && (reply.ack.RequestProcessed? ==>
            && s'.queues == s.queues && s'.lastJobId == s.lastJobId
            && Processed(s', round) == Processed(s, round) + 1
            && |reply.msgs| == 2 && reply.msgs[0].SendBeacon?
            && Delivers(reply.msgs[0].delivery, channel, round, s.archive[round], origin, env.time))
      && s'.archive == s.archive
      && (forall r: nat :: r != round ==>
            Queue(s', r) == Queue(s, r) && Processed(s', r) == Processed(s, r) && LastJobId(s', r) == LastJobId(s, r))
  {
    hide Route, PayMsg, SourceId, Delivers, ReceiveRequest, RoundAfter;
    AcceptedReply(s, env, channel, relayer, after, origin);
    RouteEffects(s, env, channel, after, origin);
    PayMsgShares(Customer(s.customers[channel].payment, s.customers[channel].requestedBeacons + 1), s.config.price, relayer);
  }

  /** An accepted request is routed, logged, counted and paid for. */
  lemma AcceptedReply(s: State, env: Env, channel: string, relayer: Addr, after: Timestamp, origin: Bytes)
    requires ReceiveRequest(s, env, channel, relayer, after, origin).Ok?
    requires !ReceiveRequest(s, env, channel, relayer, after, origin).value.ack.ErrorAck?
    ensures Route(s, env, channel, after, origin).Ok? && channel in s.customers
    ensures
      var reply := ReceiveRequest(s, env, channel, relayer, after, origin).value;
      var routed := Route(s, env, channel, after, origin).value;
      var customer := Customer(s.customers[channel].payment, s.customers[channel].requestedBeacons + 1);
      && reply.ack == routed.ack
      && reply.msgs == routed.msgs + [PayMsg(customer, s.config.price, relayer)]
      && reply.state == Logged(routed.state, env, channel, after, origin, routed.ack.RequestQueued?)
                          .(customers := s.customers[channel := customer])
  {
    RouteKeepsCustomers(s, env, channel, after, origin);
    hide Route, PayMsg, SourceId;
  }

  lemma RouteKeepsCustomers(s: State, env: Env, channel: string, after: Timestamp, origin: Bytes)
    ensures
      var r := Route(s, env, channel, after, origin);
      r.Ok? ==> r.value.state.customers == s.customers && r.value.state.config == s.config
  {
  }

  lemma PayMsgShares(customer: Customer, price: Coin, relayer: Addr)
    ensures
      var pay := PayMsg(customer, price, relayer);
      && pay.Pay? && pay.payment == customer.payment && pay.relayer == relayer
      && pay.burn.amount + pay.relayerShare.amount + pay.communityPool.amount == price.amount
      && 40 * price.amount - 100 < 100 * pay.burn.amount <= 40 * price.amount
      && 20 * price.amount - 100 < 100 * pay.relayerShare.amount <= 20 * price.amount
      && 40 * price.amount <= 100 * pay.communityPool.amount < 40 * price.amount + 200
      && pay.burn.denom == pay.relayerShare.denom == pay.communityPool.denom == price.denom
  {
    SharesAddUp(price.amount);
    hide BurnShare, RelayerShare, PoolShare;
  }

  /**
   * A verified round is archived, and the first min(length, 1 or 10) queued jobs leave in order: each is counted and
   * answered on its own channel with the round's publish time and randomness.
   */
  lemma VerifiedRoundEffects(s: State, env: Env, sender: Addr, round: nat, randomness: Bytes, isVerifyingTx: bool)
    requires AddVerifiedRound(s, env, sender, round, randomness, isVerifyingTx).Ok?
    ensures
      var r := AddVerifiedRound(s, env, sender, round, randomness, isVerifyingTx).value;
      var q := Queue(s, round);
      var k := Min(|q|, if isVerifyingTx then 1 else 10);
      && sender in s.config.trustedSources
      && r.state.archive == s.archive[round := randomness]
      && Queue(r.state, round) == q[k..] && Processed(r.state, round) == Processed(s, round) + k
      && |r.deliveries| == k
      && (forall i :: 0 <= i < k && q[i].sourceId == SourceId(round) ==>
            Delivers(r.deliveries[i], q[i].channel, round, randomness, q[i].origin, env.time))
      && (forall n: nat :: n != round ==> Queue(r.state, n) == Queue(s, n) && Processed(r.state, n) == Processed(s, n))
      && r.state.lastJobId == s.lastJobId && r.state.logs == s.logs && r.state.customers == s.customers
      && r.state.config == s.config
  {
  }

  /** A price pull is answered with the block time and the configured price, and changes nothing. */
  lemma PullAnswersPrice(s: State, env: Env, channel: string, relayer: Addr)
    ensures ReceivePacket(s, env, channel, relayer, PullBeaconPrice)
            == Ok(PacketReply(s, BeaconPrice(env.time, s.config.price), []))
  {
  }

  /**
   * A new channel gets a customer entry without beacons, the payment contract stored there with the configured funds,
   * one welcome packet that names it, and one price packet with the block time and the configured price; both packets
   * travel on the channel for up to 100 days.
   */
  lemma ConnectGreets(s: State, time: Timestamp, channel: string, payment: Addr)
    requires ChannelConnect(s, time, channel, payment).Ok?
    ensures
      var r := ChannelConnect(s, time, channel, payment).value;
      var timeout := time + 8_640_000_000_000_000;
      && channel in r.state.customers
      && r.state.customers[channel].payment == payment && r.state.customers[channel].requestedBeacons == 0
      && r.state.customers - {channel} == s.customers - {channel}
      && r.state == s.(customers := r.state.customers)
      && |r.msgs| == 3
      && r.msgs[0] == InstantiatePayment(r.state.customers[channel].payment, s.config.paymentInitialFunds)
      && r.msgs[1] == Welcome(channel, r.state.customers[channel].payment, timeout)
      && r.msgs[2] == ConnectMsg.PushBeaconPrice(channel, time, s.config.price, timeout)
  {
  }
}
