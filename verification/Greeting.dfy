/** The packets with which the gateway greets a new proxy, and what the proxy does with them. */
module Greeting {
  import opened Base
  import opened Rounds
  import opened PriceRegister
  import G = GatewayModel
  import P = ProxyModel

  datatype Proxy = Proxy(state: P.State, price: Record)

  /** The proxy handles a packet; `InstantiatePayment` stays on the gateway's chain. */
  function Handle(p: Proxy, m: G.ConnectMsg): Proxy {
    match m
    case Welcome(_, payment, _) => p.(state := p.state.(payment := Some(payment)))
    case PushBeaconPrice(_, timestamp, price, _) =>
      var record := Update(p.price, PriceInfo(timestamp, price.amount, price.denom));
      Proxy(p.state.(noisBeaconPrice := record.amount), record)
    case InstantiatePayment(_, _) => p
  }

  /** The two packets of a new channel arrive, in either order. */
  function Greeted(p: Proxy, r: G.ConnectReply, priceFirst: bool): Proxy
    requires |r.msgs| == 3
  {
    if priceFirst then Handle(Handle(p, r.msgs[2]), r.msgs[1]) else Handle(Handle(p, r.msgs[1]), r.msgs[2])
  }

  /**
   * Once both packets arrived, in either order, a request in `IbcPay` mode transfers the gateway's price to the very
   * payment contract that the gateway charges for requests of this channel, and the gateway charges that amount.
   */
  lemma GreetedProxyPaysItsContract(
    codec: P.Codec, g: G.State, time: Timestamp, channel: string, payment: Addr, p: Proxy, priceFirst: bool, now: Timestamp,
    sender: Addr, funds: seq<Coin>, requestedAfter: Option<Timestamp>, jobId: string, env: Env, relayer: Addr)
    requires P.Faithful(codec) && G.ChannelConnect(g, time, channel, payment).Ok?
    requires g.config.price.denom == "unois" && g.config.price.amount > 0 && p.price.updated <= time && p.state.mode.IbcPay?
    requires
      var proxy := Greeted(p, G.ChannelConnect(g, time, channel, payment).value, priceFirst).state;
      P.GetRandomness(codec, proxy, now, sender, funds, requestedAfter, jobId).Ok?
    ensures
      var connected := G.ChannelConnect(g, time, channel, payment).value;
      var proxy := Greeted(p, connected, priceFirst).state;
      var emitted := P.GetRandomness(codec, proxy, now, sender, funds, requestedAfter, jobId).value;
      var reply := G.ReceiveRequest(connected.state, env, channel, relayer, emitted.packet.after, emitted.packet.origin);
      && channel in connected.state.customers && emitted.transfer.Some?
      && emitted.transfer.value.to == connected.state.customers[channel].payment
      && emitted.transfer.value.coin == Coin(g.config.price.amount, p.state.mode.denom)
      && (reply.Ok? && !reply.value.ack.ErrorAck? ==>
            && |reply.value.msgs| > 0
            && (var pay := reply.value.msgs[|reply.value.msgs| - 1];
                && pay.Pay? && pay.payment == emitted.transfer.value.to
                && pay.burn.amount + pay.relayerShare.amount + pay.communityPool.amount == emitted.transfer.value.coin.amount))
  {
    G.ConnectGreets(g, time, channel, payment);
    var connected := G.ChannelConnect(g, time, channel, payment).value;
    var proxy := Greeted(p, connected, priceFirst).state;
    hide P.GetRandomness, P.Faithful, G.ChannelConnect, G.ReceiveRequest;
    P.EmittedIffPermitted(codec, proxy, now, sender, funds, requestedAfter, jobId);
    var emitted := P.GetRandomness(codec, proxy, now, sender, funds, requestedAfter, jobId).value;
    var reply := G.ReceiveRequest(connected.state, env, channel, relayer, emitted.packet.after, emitted.packet.origin);
    if reply.Ok? && !reply.value.ack.ErrorAck? {
      G.SuccessAckEffects(connected.state, env, channel, relayer, emitted.packet.after, emitted.packet.origin);
    }
  }
}
