/** What the contracts spend over a run of the protocol: prices charged, initial funds and bot payouts. */
module ProtocolBooks {
  import opened Base
  import opened Traces
  import opened JobStore
  import opened Protocol
  import opened ProtocolInvariant
  import opened ProtocolSteps
  import opened ProtocolRefinement
  import G = GatewayModel
  import GR = GatewayRuns
  import D = DrandModel
  import DR = DrandRuns
  import P = ProxyModel
  import L = Ledger

  datatype Books = Books(charges: seq<L.Charge>, fundings: seq<L.Payout>, payouts: seq<L.Payout>) {
    function Plus(b: Books): Books {
      Books(charges + b.charges, fundings + b.fundings, payouts + b.payouts)
    }
  }

  const NOTHING := Books([], [], [])

  function BooksOf(l: L.Ledger): Books {
    Books(l.charges, l.fundings, l.payouts)
  }

  // ---- Messages of the gateway ----

  /** The prices that the Pay messages among these charge. */
  function MsgCharges(msgs: seq<G.Msg>): seq<L.Charge> {
    if msgs == [] then []
    else
      (match msgs[0]
       case Pay(payment, burn, _, relayerShare, communityPool) =>
         [L.Charge(payment, Coin(burn.amount + relayerShare.amount + communityPool.amount, burn.denom))]
       case _ => [])
      + MsgCharges(msgs[1..])
  }

  lemma NoMsgCharges()
    ensures MsgCharges([]) == []
  {
  }

  lemma FirstMsgCharges(msgs: seq<G.Msg>)
    requires msgs != []
    ensures MsgCharges(msgs) == MsgCharges([msgs[0]]) + MsgCharges(msgs[1..])
  {
    assert [msgs[0]][1..] == [];
  }

  lemma PayCharges(w: World, s: State, m: G.Msg, time: Timestamp)
    requires Dispatchable(m) && L.Inv(w.addresses, s.ledger) && DispatchOne(w, s, m, time).Ok?
    ensures
      var s' := DispatchOne(w, s, m, time).value;
      L.Inv(w.addresses, s'.ledger) && BooksOf(s'.ledger) == BooksOf(s.ledger).Plus(Books(MsgCharges([m]), [], []))
  {
    hide L.Inv, L.ExecuteAll;
    assert MsgCharges([m][1..]) == [];
    if m.Pay? {
      L.PayInv(w.addresses, s.ledger, m.payment, m.burn, m.relayer, m.relayerShare, m.communityPool, time);
    }
  }

  lemma {:induction false} DispatchCharges(w: World, s: State, msgs: seq<G.Msg>, time: Timestamp)
    requires forall i :: 0 <= i < |msgs| ==> Dispatchable(msgs[i])
    requires L.Inv(w.addresses, s.ledger) && Dispatch(w, s, msgs, time).Ok?
    ensures BooksOf(Dispatch(w, s, msgs, time).value.ledger) == BooksOf(s.ledger).Plus(Books(MsgCharges(msgs), [], []))
    decreases |msgs|
  {
    hide L.Inv, DispatchOne, MsgCharges;
    if msgs == [] {
      NoMsgCharges();
    } else {
      var s1 := DispatchOne(w, s, msgs[0], time).value;
      PayCharges(w, s, msgs[0], time);
      FirstMsgCharges(msgs);
      DispatchCharges(w, s1, msgs[1..], time);
    }
  }

  /** The last message of an accepted reply pays the price; the one before it, if any, pays nothing. */
  lemma ReplyPaysLast(g: G.State, env: Env, channel: string, relayer: Addr, after: Timestamp, origin: Bytes)
    requires channel in g.customers && G.ReceiveRequest(g, env, channel, relayer, after, origin).Ok?
    requires !G.ReceiveRequest(g, env, channel, relayer, after, origin).value.ack.ErrorAck?
    ensures
      var msgs := G.ReceiveRequest(g, env, channel, relayer, after, origin).value.msgs;
      && 1 <= |msgs| <= 2
      && msgs[|msgs| - 1].Pay?
      && (var pay := msgs[|msgs| - 1];
          && pay.payment == g.customers[channel].payment && pay.burn.denom == g.config.price.denom
          && pay.burn.amount + pay.relayerShare.amount + pay.communityPool.amount == g.config.price.amount)
      && (|msgs| == 2 ==> !msgs[0].Pay?)
  {
    G.SharesAddUp(g.config.price.amount);
  }

  /** The messages of one reply charge the price once if the request was accepted, and nothing otherwise. */
  lemma ReplyCharges(g: G.State, env: Env, channel: string, relayer: Addr, after: Timestamp, origin: Bytes)
    requires channel in g.customers && G.ReceiveRequest(g, env, channel, relayer, after, origin).Ok?
    ensures
      var reply := G.ReceiveRequest(g, env, channel, relayer, after, origin).value;
      && (reply.state.customers == g.customers <==> reply.ack.ErrorAck?)
      && MsgCharges(reply.msgs)
         == if reply.ack.ErrorAck? then [] else [L.Charge(g.customers[channel].payment, g.config.price)]
  {
    hide G.ReceiveRequest;
    var reply := G.ReceiveRequest(g, env, channel, relayer, after, origin).value;
    if reply.ack.ErrorAck? {
      G.RequestErrorAck(g, env, channel, relayer, after, origin);
    } else {
      GR.ReceiveAccepts(g, env, channel, relayer, after, origin);
      assert reply.state.customers[channel].requestedBeacons != g.customers[channel].requestedBeacons;
      ReplyPaysLast(g, env, channel, relayer, after, origin);
      FirstMsgCharges(reply.msgs);
      if |reply.msgs| == 2 {
        FirstMsgCharges(reply.msgs[1..]);
      }
    }
  }

  // ---- Steps ----

  /** An accepted request costs its payment contract the gateway's current price. */
  ghost function ChargesOfStep(w: World, s: State, e: Event): seq<L.Charge> {
    if e.RelayRequest? && e.packet < |s.net.packets| && s.net.packets[e.packet].channel in s.gateway.customers
       && Step(w, s, e).gateway.customers != s.gateway.customers
    then [L.Charge(w.addresses.paymentOf(s.net.packets[e.packet].channel), s.gateway.config.price)]
    else []
  }

  /** A new channel costs the gateway the configured initial funds. */
  ghost function FundingsOfStep(w: World, s: State, e: Event): seq<L.Payout> {
    if e.Connect? && Step(w, s, e).gateway.customers != s.gateway.customers && s.gateway.config.paymentInitialFunds.Some?
    then [L.Payout(w.addresses.paymentOf(e.channel), s.gateway.config.paymentInitialFunds.value)]
    else []
  }

  /** The reward in coins of a submission by its arrival position. */
  function Reward(w: World, s: State, bot: Addr, round: nat): nat {
    var n := |D.Arrivals(s.drand, round)|;
    var eligible :=
      && round >= s.drand.config.minRound
      && (round in s.drand.incentivized || (round > 0 && round % 25 == 0))
      && (if round % 2 == 0 then w.crypto.inGroupA(bot) else !w.crypto.inGroupA(bot))
      && bot in s.drand.bots && bot in s.drand.allowlist;
    (if !eligible then 0 else if n < 3 then 50 else if n < 6 then 15 else 0) * s.drand.config.incentivePointPrice
  }

  /** An accepted submission costs the drand contract its reward, if the balance covers it. */
  ghost function PayoutsOfStep(w: World, s: State, e: Event): seq<L.Payout> {
    if e.SubmitRound? && Step(w, s, e).drand != s.drand
       && 0 < Reward(w, s, e.bot, e.round)
              <= L.At(s.ledger.bank.balance, (w.addresses.drand, s.drand.config.incentiveDenom))
    then [L.Payout(e.bot, Coin(Reward(w, s, e.bot, e.round), s.drand.config.incentiveDenom))]
    else []
  }

  ghost function BooksOfStep(w: World, s: State, e: Event): Books {
    Books(ChargesOfStep(w, s, e), FundingsOfStep(w, s, e), PayoutsOfStep(w, s, e))
  }

  ghost function BooksOfRun(w: World, s: State, es: seq<Event>): Books
    decreases |es|
  {
    if es == [] then NOTHING else BooksOfStep(w, s, es[0]).Plus(BooksOfRun(w, Step(w, s, es[0]), es[1..]))
  }

  lemma InvParts(w: World, s: State)
    requires Inv(w, s)
    ensures L.Inv(w.addresses, s.ledger) && ChannelsInv(w, s.proxies, s.gateway.customers, s.trace.requests)
    ensures Wired(w, s.gateway.config, s.drand.config)
  {
    hide PlacesInv, ContentInv, DrainInv, MarkInv, AgreeInv, CountsInv, GR.Inv, DR.Inv, L.Inv, ChannelsInv, Wired;
  }

  lemma RelayedBooks(w: World, s: State, e: Event)
    requires Inv(w, s) && e.RelayRequest?
    ensures BooksOf(Step(w, s, e).ledger) == BooksOf(s.ledger).Plus(BooksOfStep(w, s, e))
  {
    hide Inv, G.ReceiveRequest, L.Inv, MsgCharges, Moved;
    var n := e.packet;
    InvParts(w, s);
    if n in s.net.requestsInFlight && n < |s.net.packets| && s.net.packets[n].channel in s.gateway.customers {
      var packet := s.net.packets[n];
      var r := G.ReceiveRequest(s.gateway, e.env, packet.channel, e.relayer, packet.after, packet.origin);
      if r.Ok? {
        ReplyMessagesDispatchable(s.gateway, e.env, packet.channel, e.relayer, packet.after, packet.origin);
        ReplyCharges(s.gateway, e.env, packet.channel, e.relayer, packet.after, packet.origin);
        var s0 := s.(gateway := r.value.state);
        if Dispatch(w, s0, r.value.msgs, e.env.time).Ok? {
          DispatchCharges(w, s0, r.value.msgs, e.env.time);
          DispatchKeepsGateway(w, s0, r.value.msgs, e.env.time);
        }
      }
    }
  }

  lemma ConnectedBooks(w: World, s: State, e: Event)
    requires Inv(w, s) && e.Connect?
    ensures BooksOf(Step(w, s, e).ledger) == BooksOf(s.ledger).Plus(BooksOfStep(w, s, e))
  {
    hide Inv, L.Inv, L.Fund;
    InvParts(w, s);
    var payment := w.addresses.paymentOf(e.channel);
    if e.channel !in s.gateway.customers {
      assert G.Connect(s.gateway, e.channel, payment).customers != s.gateway.customers;
      if L.Fund(w.addresses, s.ledger, payment, s.gateway.config.paymentInitialFunds).Ok? {
        L.FundInv(w.addresses, s.ledger, payment, s.gateway.config.paymentInitialFunds);
      }
    }
  }

  lemma SubmittedBooks(w: World, s: State, env: Env, bot: Addr, fundsSent: bool, round: nat, signature: Bytes)
    requires Inv(w, s)
    ensures
      var e := SubmitRound(env, bot, fundsSent, round, signature);
      BooksOf(Submitted(w, s, env, bot, fundsSent, round, signature).ledger)
      == BooksOf(s.ledger).Plus(Books([], [], PayoutsOfStep(w, s, e)))
  {
    hide Inv, L.Inv, D.AddRound, L.PayBot, G.AddVerifiedRound, SendAll, Drain, DrainedOwners, Gone;
    InvParts(w, s);
    var balance := L.At(s.ledger.bank.balance, (w.addresses.drand, s.drand.config.incentiveDenom));
    var r := D.AddRound(w.crypto, s.drand, env, bot, fundsSent, round, signature, balance);
    if r.Ok? {
      DR.RewardOfSubmission(w.crypto, s.drand, env, bot, fundsSent, round, signature, balance);
      DR.AddRoundSubmits(w.crypto, s.drand, env, bot, fundsSent, round, signature, balance);
      assert |D.Arrivals(r.value.state, round)| == |D.Arrivals(s.drand, round)| + 1;
      if L.PayBot(w.addresses, s.ledger, bot, r.value.payout).Ok? {
        L.PayBotInv(w.addresses, s.ledger, bot, r.value.payout);
      }
    }
  }

  lemma OtherEventsKeepBooks(w: World, s: State, e: Event)
    requires !e.RelayRequest? && !e.Connect? && !e.SubmitRound? && L.Inv(w.addresses, s.ledger)
    ensures BooksOf(Step(w, s, e).ledger) == BooksOf(s.ledger)
  {
    hide L.Inv, L.IsContract, G.AddVerifiedRound, SendAll, Drain, DrainedOwners, Gone, L.BurnFrom;
    if e.BurnAtSink? && !L.IsContract(w.addresses, e.burner) && L.BurnFrom(w.addresses, s.ledger, e.burner, e.funds, e.time).Ok? {
      L.BurnFromInv(w.addresses, s.ledger, e.burner, e.funds, e.time);
    }
  }

  lemma StepBooks(w: World, s: State, e: Event)
    requires Inv(w, s)
    ensures BooksOf(Step(w, s, e).ledger) == BooksOf(s.ledger).Plus(BooksOfStep(w, s, e))
  {
    hide Inv, L.Inv;
    if e.RelayRequest? {
      RelayedBooks(w, s, e);
    } else if e.Connect? {
      ConnectedBooks(w, s, e);
    } else if e.SubmitRound? {
      hide Submitted;
      SubmittedBooks(w, s, e.env, e.bot, e.fundsSent, e.round, e.signature);
    } else {
      InvParts(w, s);
      hide Step;
      OtherEventsKeepBooks(w, s, e);
    }
  }

  lemma {:induction false} RunBooks(w: World, s: State, es: seq<Event>)
    requires Inv(w, s) && P.Faithful(w.codec)
    ensures BooksOf(Run(w, s, es).ledger) == BooksOf(s.ledger).Plus(BooksOfRun(w, s, es))
    decreases |es|
  {
    hide Inv, Step, P.Faithful, BooksOfStep;
    if es != [] {
      StepBooks(w, s, es[0]);
      StepInv(w, s, es[0]);
      RunBooks(w, Step(w, s, es[0]), es[1..]);
    }
  }
}
