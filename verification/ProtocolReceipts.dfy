/** Who receives what over a run of the protocol. */
module ProtocolReceipts {
  import opened Base
  import opened Traces
  import opened JobStore
  import opened Protocol
  import opened ProtocolInvariant
  import opened ProtocolSteps
  import opened ProtocolBooks
  import G = GatewayModel
  import D = DrandModel
  import DR = DrandRuns
  import P = ProxyModel
  import L = Ledger
  import R = ProtocolRefinement

  /** An accepted request: 40% of the price to the sink, 20% to the relayer, the rest to the community pool. */
  function PriceCredits(w: World, price: Coin, relayer: Addr, a: L.Account): int {
    var burn := price.amount * 40 / 100;
    var tip := price.amount * 20 / 100;
    (if a == (w.addresses.sink, price.denom) then burn else 0)
    + (if a == (relayer, price.denom) then tip else 0)
    + (if a == (w.addresses.pool, price.denom) then price.amount - burn - tip else 0)
  }

  /** What a step credits to an account. */
  ghost function CreditsOfStep(w: World, s: State, e: Event, a: L.Account): int {
    match e
    case RelayRequest(_, relayer, _) =>
      if Step(w, s, e).gateway.customers == s.gateway.customers then 0
      else PriceCredits(w, s.gateway.config.price, relayer, a)
    case Connect(channel, _, _) =>
      var funds := s.gateway.config.paymentInitialFunds;
      if Step(w, s, e).gateway.customers != s.gateway.customers
         && funds.Some? && a == (w.addresses.paymentOf(channel), funds.value.denom)
      then funds.value.amount else 0
    case SubmitRound(_, bot, _, round, _) =>
      var reward := Reward(w, s, bot, round);
      if Step(w, s, e).drand != s.drand && a == (bot, s.drand.config.incentiveDenom)
         && reward <= L.At(s.ledger.bank.balance, (w.addresses.drand, s.drand.config.incentiveDenom))
      then reward else 0
    case Arrive(account, amount) => if a == account then amount else 0
    case Send(from, to, coin) =>
      if !L.IsContract(w.addresses, from) && coin.amount <= L.At(s.ledger.bank.balance, (from, coin.denom))
         && to.Some? && a == (to.value, coin.denom)
      then coin.amount else 0
    case BurnAtSink(_, funds, _) =>
      if Step(w, s, e).ledger.ashes != s.ledger.ashes && funds != [] && a == (w.addresses.sink, "unois")
      then funds[0].amount else 0
    case _ => 0
  }

  ghost function CreditsOfRun(w: World, s: State, es: seq<Event>, a: L.Account): int
    decreases |es|
  {
    if es == [] then 0 else CreditsOfStep(w, s, es[0], a) + CreditsOfRun(w, Step(w, s, es[0]), es[1..], a)
  }

  /** The credits of a reply's two messages. */
  lemma ReplyCredits(w: World, s: State, msgs: seq<G.Msg>, time: Timestamp, price: Coin, relayer: Addr, a: L.Account)
    requires forall i :: 0 <= i < |msgs| ==> Dispatchable(msgs[i])
    requires |msgs| == 2 && Dispatch(w, s, msgs, time).Ok? && !msgs[0].Pay? && msgs[1].Pay?
    requires
      var pay := msgs[1];
      && pay.relayer == relayer && pay.burn.denom == pay.relayerShare.denom == pay.communityPool.denom == price.denom
      && pay.burn.amount == price.amount * 40 / 100 && pay.relayerShare.amount == price.amount * 20 / 100
      && pay.communityPool.amount == price.amount - price.amount * 40 / 100 - price.amount * 20 / 100
    ensures L.At(Dispatch(w, s, msgs, time).value.ledger.bank.received, a)
            == L.At(s.ledger.bank.received, a) + PriceCredits(w, price, relayer, a)
  {
    hide Dispatch, L.Pay, SendAll, D.SetIncentivized;
    DispatchTwo(w, s, msgs, time);
    var s1 := DispatchOne(w, s, msgs[0], time).value;
    assert s1.ledger == s.ledger;
    var pay := msgs[1];
    L.PayDistributes(w.addresses, s1.ledger, pay.payment, pay.burn, pay.relayer, pay.relayerShare, pay.communityPool, time, a);
  }

  /** The Pay message of an accepted request, in exact shares. */
  lemma ExactShares(g: G.State, env: Env, channel: string, relayer: Addr, after: Timestamp, origin: Bytes)
    requires g.config.drand.Some? && G.ReceiveRequest(g, env, channel, relayer, after, origin).Ok?
    requires !G.ReceiveRequest(g, env, channel, relayer, after, origin).value.ack.ErrorAck?
    ensures
      var msgs := G.ReceiveRequest(g, env, channel, relayer, after, origin).value.msgs;
      var price := g.config.price;
      && |msgs| == 2 && !msgs[0].Pay? && msgs[1].Pay?
      && msgs[1].relayer == relayer
      && msgs[1].burn.denom == msgs[1].relayerShare.denom == msgs[1].communityPool.denom == price.denom
      && msgs[1].burn.amount == price.amount * 40 / 100
      && msgs[1].relayerShare.amount == price.amount * 20 / 100
      && msgs[1].communityPool.amount == price.amount - price.amount * 40 / 100 - price.amount * 20 / 100
  {
    G.SuccessAckEffects(g, env, channel, relayer, after, origin);
    hide G.ReceiveRequest, G.Delivers;
    var msgs := G.ReceiveRequest(g, env, channel, relayer, after, origin).value.msgs;
    assert G.ReceiveRequest(g, env, channel, relayer, after, origin).value.ack.RequestQueued? ==>
        msgs[..|msgs| - 1][0].SetIncentivized?;
  }

  lemma RelayedReceipts(w: World, s: State, n: nat, relayer: Addr, env: Env, a: L.Account)
    requires Inv(w, s)
    ensures L.At(Step(w, s, RelayRequest(n, relayer, env)).ledger.bank.received, a)
            == L.At(s.ledger.bank.received, a) + CreditsOfStep(w, s, RelayRequest(n, relayer, env), a)
  {
    hide Inv, G.ReceiveRequest, Moved, Dispatch, PriceCredits, L.Inv;
    InvParts(w, s);
    if n in s.net.requestsInFlight && n < |s.net.packets| && s.net.packets[n].channel in s.gateway.customers {
      var packet := s.net.packets[n];
      var r := G.ReceiveRequest(s.gateway, env, packet.channel, relayer, packet.after, packet.origin);
      if r.Ok? {
        ReplyMessagesDispatchable(s.gateway, env, packet.channel, relayer, packet.after, packet.origin);
        ReplyCharges(s.gateway, env, packet.channel, relayer, packet.after, packet.origin);
        var s0 := s.(gateway := r.value.state);
        if r.value.ack.ErrorAck? {
          G.RequestErrorAck(s.gateway, env, packet.channel, relayer, packet.after, packet.origin);
          DispatchNothing(w, s0, env.time);
        } else if Dispatch(w, s0, r.value.msgs, env.time).Ok? {
          ExactShares(s.gateway, env, packet.channel, relayer, packet.after, packet.origin);
          ReplyCredits(w, s0, r.value.msgs, env.time, s.gateway.config.price, relayer, a);
          R.DispatchKeepsGateway(w, s0, r.value.msgs, env.time);
        }
      }
    }
  }

  lemma ConnectedReceipts(w: World, s: State, channel: string, time: Timestamp, proxy: P.State, a: L.Account)
    ensures L.At(Step(w, s, Connect(channel, time, proxy)).ledger.bank.received, a)
            == L.At(s.ledger.bank.received, a) + CreditsOfStep(w, s, Connect(channel, time, proxy), a)
  {
    hide L.Fund;
    var payment := w.addresses.paymentOf(channel);
    if channel !in s.gateway.customers {
      assert G.Connect(s.gateway, channel, payment).customers != s.gateway.customers;
      if L.Fund(w.addresses, s.ledger, payment, s.gateway.config.paymentInitialFunds).Ok? {
        L.FundCredits(w.addresses, s.ledger, payment, s.gateway.config.paymentInitialFunds, a);
      }
    }
  }

  lemma SubmittedReceipts(w: World, s: State, env: Env, bot: Addr, fundsSent: bool, round: nat, signature: Bytes, a: L.Account)
    requires Inv(w, s)
    ensures
      var e := SubmitRound(env, bot, fundsSent, round, signature);
      L.At(Submitted(w, s, env, bot, fundsSent, round, signature).ledger.bank.received, a)
      == L.At(s.ledger.bank.received, a) + CreditsOfStep(w, s, e, a)
  {
    hide Inv, L.Inv, D.AddRound, L.PayBot, G.AddVerifiedRound, SendAll, Drain, DrainedOwners, Gone;
    InvParts(w, s);
    var balance := L.At(s.ledger.bank.balance, (w.addresses.drand, s.drand.config.incentiveDenom));
    var r := D.AddRound(w.crypto, s.drand, env, bot, fundsSent, round, signature, balance);
    if r.Ok? {
      DR.RewardOfSubmission(w.crypto, s.drand, env, bot, fundsSent, round, signature, balance);
      DR.AddRoundSubmits(w.crypto, s.drand, env, bot, fundsSent, round, signature, balance);
      assert |D.Arrivals(r.value.state, round)| == |D.Arrivals(s.drand, round)| + 1;
      if L.PayBot(w.addresses, s.ledger, bot, r.value.payout).Ok? {
        L.PayBotCredits(w.addresses, s.ledger, bot, r.value.payout, a);
      }
    }
  }

  lemma BurntReceipts(w: World, s: State, burner: Addr, funds: seq<Coin>, time: Timestamp, a: L.Account)
    ensures L.At(Step(w, s, BurnAtSink(burner, funds, time)).ledger.bank.received, a)
            == L.At(s.ledger.bank.received, a) + CreditsOfStep(w, s, BurnAtSink(burner, funds, time), a)
  {
    hide L.BurnFrom, L.IsContract;
    var r := L.BurnFrom(w.addresses, s.ledger, burner, funds, time);
    if !L.IsContract(w.addresses, burner) && r.Ok? {
      L.BurnFromCredits(w.addresses, s.ledger, burner, funds, time, a);
      assert |r.value.ashes| == |s.ledger.ashes| + 1;
    }
  }

  lemma SentReceipts(w: World, s: State, from: Addr, to: Option<Addr>, coin: Coin, a: L.Account)
    ensures L.At(Step(w, s, Send(from, to, coin)).ledger.bank.received, a)
            == L.At(s.ledger.bank.received, a) + CreditsOfStep(w, s, Send(from, to, coin), a)
  {
    hide L.IsContract;
    var r := L.Send(s.ledger, from, to, coin);
    if !L.IsContract(w.addresses, from) && r.Ok? {
      L.SendCredits(s.ledger, from, to, coin, a);
    }
  }

  lemma OtherReceipts(w: World, s: State, e: Event, a: L.Account)
    requires !e.RelayRequest? && !e.Connect? && !e.SubmitRound? && !e.Send? && !e.BurnAtSink?
    ensures L.At(Step(w, s, e).ledger.bank.received, a) == L.At(s.ledger.bank.received, a) + CreditsOfStep(w, s, e, a)
  {
    hide G.AddVerifiedRound, SendAll, Drain, DrainedOwners, Gone, P.GetRandomness, D.SetIncentivized, D.RegisterBot;
  }

  lemma StepReceipts(w: World, s: State, e: Event, a: L.Account)
    requires Inv(w, s)
    ensures L.At(Step(w, s, e).ledger.bank.received, a) == L.At(s.ledger.bank.received, a) + CreditsOfStep(w, s, e, a)
  {
    hide Inv, CreditsOfStep, Submitted;
    match e
    case RelayRequest(n, relayer, env) =>
      hide Step;
      RelayedReceipts(w, s, n, relayer, env, a);
    case Connect(channel, time, proxy) =>
      hide Step;
      ConnectedReceipts(w, s, channel, time, proxy, a);
    case SubmitRound(env, bot, fundsSent, round, signature) =>
      SubmittedReceipts(w, s, env, bot, fundsSent, round, signature, a);
    case Send(from, to, coin) =>
      hide Step;
      SentReceipts(w, s, from, to, coin, a);
    case BurnAtSink(burner, funds, time) =>
      hide Step;
      BurntReceipts(w, s, burner, funds, time, a);
    case _ =>
      hide Step;
      OtherReceipts(w, s, e, a);
  }

  lemma {:induction false} RunReceipts(w: World, s: State, es: seq<Event>, a: L.Account)
    requires Inv(w, s) && P.Faithful(w.codec)
    ensures L.At(Run(w, s, es).ledger.bank.received, a) == L.At(s.ledger.bank.received, a) + CreditsOfRun(w, s, es, a)
    decreases |es|
  {
    hide Inv, Step, P.Faithful, CreditsOfStep;
    if es != [] {
      StepReceipts(w, s, es[0], a);
      StepInv(w, s, es[0]);
      RunReceipts(w, Step(w, s, es[0]), es[1..], a);
    }
  }
}
