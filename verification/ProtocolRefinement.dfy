/** Seen from the gateway or from the drand contract, every protocol run is a run of that contract alone. */
module ProtocolRefinement {
  import opened Base
  import opened Crypto
  import opened Traces
  import opened JobStore
  import opened Protocol
  import G = GatewayModel
  import GR = GatewayRuns
  import D = DrandModel
  import DR = DrandRuns
  import L = Ledger

  // ---- Runs of the protocol ----

  lemma {:induction false} RunSplit(w: World, s: State, a: seq<Event>, b: seq<Event>)
    ensures Run(w, s, a + b) == Run(w, Run(w, s, a), b)
    decreases |a|
  {
    hide Step;
    if a == [] {
      assert a + b == b;
    } else {
      RunSplit(w, Step(w, s, a[0]), a[1..], b);
      assert (a + b)[1..] == a[1..] + b;
    }
  }

  lemma RunOne(w: World, s: State, e: Event)
    ensures Run(w, s, [e]) == Step(w, s, e)
  {
    hide Step;
    assert Run(w, Step(w, s, e), [e][1..]) == Step(w, s, e);
  }

  // ---- The gateway ----

  lemma RelayedGateway(w: World, s: State, n: nat, relayer: Addr, env: Env) returns (ges: seq<GR.Event>)
    ensures Relayed(w, s, n, relayer, env).gateway == GR.Run(s.gateway, ges)
  {
    ges := [];
    if n in s.net.requestsInFlight && n < |s.net.packets| && s.net.packets[n].channel in s.gateway.customers {
      var packet := s.net.packets[n];
      var r := G.ReceiveRequest(s.gateway, env, packet.channel, relayer, packet.after, packet.origin);
      if r.Ok? {
        ReplyMessagesDispatchable(s.gateway, env, packet.channel, relayer, packet.after, packet.origin);
        var s0 := s.(gateway := r.value.state);
        var dispatched := Dispatch(w, s0, r.value.msgs, env.time);
        if dispatched.Ok? {
          DispatchKeepsGateway(w, s0, r.value.msgs, env.time);
          ges := [GR.Received(env, packet.channel, relayer, packet.after, packet.origin)];
          OneStep(s.gateway, ges[0]);
        }
      }
    }
  }

  lemma OneStep(g: G.State, e: GR.Event)
    ensures GR.Run(g, [e]) == GR.Step(g, e)
  {
    hide GR.Step;
    assert GR.Run(GR.Step(g, e), [e][1..]) == GR.Step(g, e);
  }

  lemma {:induction false} DispatchKeepsGateway(w: World, s: State, msgs: seq<G.Msg>, time: Timestamp)
    requires forall i :: 0 <= i < |msgs| ==> Dispatchable(msgs[i])
    requires Dispatch(w, s, msgs, time).Ok?
    ensures Dispatch(w, s, msgs, time).value.gateway == s.gateway
    decreases |msgs|
  {
    if msgs != [] {
      DispatchKeepsGateway(w, DispatchOne(w, s, msgs[0], time).value, msgs[1..], time);
    }
  }

  lemma SubmittedGateway(w: World, s: State, env: Env, bot: Addr, fundsSent: bool, round: nat, signature: Bytes)
    returns (ges: seq<GR.Event>)
    ensures Submitted(w, s, env, bot, fundsSent, round, signature).gateway == GR.Run(s.gateway, ges)
  {
    hide D.AddRound, L.PayBot, G.AddVerifiedRound, SendAll, Drain, DrainedOwners, Gone;
    ges := [];
    var s' := Submitted(w, s, env, bot, fundsSent, round, signature);
    if s'.gateway != s.gateway {
      var balance := L.At(s.ledger.bank.balance, (w.addresses.drand, s.drand.config.incentiveDenom));
      var f := D.AddRound(w.crypto, s.drand, env, bot, fundsSent, round, signature, balance).value.forward.value;
      ges := [GR.VerifiedRound(env, w.addresses.drand, f.round, f.randomness, f.isVerifyingTx)];
      OneStep(s.gateway, ges[0]);
    }
  }

  lemma StepGateway(w: World, s: State, e: Event) returns (ges: seq<GR.Event>)
    ensures Step(w, s, e).gateway == GR.Run(s.gateway, ges)
  {
    hide Relayed, Submitted, Asked, Delivered, RequestTimedOut, DeliveryTimedOut, GR.Run, L.Send, L.BurnFrom, L.BurnSinkBalance;
    ges := [];
    assert GR.Run(s.gateway, []) == s.gateway by { NoStep(s.gateway); }
    match e {
      case RelayRequest(n, relayer, env) => ges := RelayedGateway(w, s, n, relayer, env);
      case SubmitRound(env, bot, fundsSent, round, signature) =>
        ges := SubmittedGateway(w, s, env, bot, fundsSent, round, signature);
      case Connect(channel, time, proxy) =>
        if Connected(w, s, channel, time, proxy) != s {
          ges := [GR.Connected(channel, w.addresses.paymentOf(channel))];
          OneStep(s.gateway, ges[0]);
        }
      case ForeignVerifiedRound(env, sender, round, randomness, isVerifyingTx) =>
        if sender != w.addresses.drand {
          ges := [GR.VerifiedRound(env, sender, round, randomness, isVerifyingTx)];
          OneStep(s.gateway, ges[0]);
        }
      case SetGatewayParameters(price, paymentInitialFunds) =>
        ges := [GR.Configured(s.gateway.config.(price := price, paymentInitialFunds := paymentInitialFunds))];
        OneStep(s.gateway, ges[0]);
      case _ => OtherEventsKeepGateway(w, s, e);
    }
  }

  lemma NoStep(g: G.State)
    ensures GR.Run(g, []) == g
  {
  }

  lemma OtherEventsKeepGateway(w: World, s: State, e: Event)
    requires !e.RelayRequest? && !e.SubmitRound? && !e.Connect? && !e.ForeignVerifiedRound? && !e.SetGatewayParameters?
    ensures Step(w, s, e).gateway == s.gateway
  {
  }

  lemma {:induction false} RunAppend(g: G.State, a: seq<GR.Event>, b: seq<GR.Event>)
    ensures GR.Run(g, a + b) == GR.Run(GR.Run(g, a), b)
    decreases |a|
  {
    if a == [] {
      assert a + b == b;
    } else {
      RunAppend(GR.Step(g, a[0]), a[1..], b);
      assert (a + b)[1..] == a[1..] + b;
    }
  }

  /**
   * Seen from the gateway, a protocol run is a run of the gateway alone; everything proved for all gateway
   * runs holds inside the protocol.
   */
  lemma {:induction false} ProtocolRefinesGateway(w: World, s: State, es: seq<Event>) returns (ges: seq<GR.Event>)
    ensures Run(w, s, es).gateway == GR.Run(s.gateway, ges)
    decreases |es|
  {
    hide Step, GR.Step;
    if es == [] {
      ges := [];
    } else {
      var first := StepGateway(w, s, es[0]);
      var rest := ProtocolRefinesGateway(w, Step(w, s, es[0]), es[1..]);
      RunAppend(s.gateway, first, rest);
      ges := first + rest;
    }
  }

  // ---- The drand contract ----

  lemma {:induction false} DispatchDrand(w: World, s: State, msgs: seq<G.Msg>, time: Timestamp) returns (des: seq<DR.Event>)
    requires forall i :: 0 <= i < |msgs| ==> Dispatchable(msgs[i])
    requires Dispatch(w, s, msgs, time).Ok?
    ensures Dispatch(w, s, msgs, time).value.drand == DR.Run(w.crypto, s.drand, des)
    decreases |msgs|
  {
    if msgs == [] {
      des := [];
    } else {
      var rest := DispatchDrand(w, DispatchOne(w, s, msgs[0], time).value, msgs[1..], time);
      if msgs[0].SetIncentivized? {
        des := [DR.Marked(w.addresses.gateway, msgs[0].round)] + rest;
        assert des[1..] == rest;
      } else {
        des := rest;
      }
    }
  }

  lemma RelayedDrand(w: World, s: State, n: nat, relayer: Addr, env: Env) returns (des: seq<DR.Event>)
    ensures Relayed(w, s, n, relayer, env).drand == DR.Run(w.crypto, s.drand, des)
  {
    hide G.ReceiveRequest;
    des := [];
    if n in s.net.requestsInFlight && n < |s.net.packets| && s.net.packets[n].channel in s.gateway.customers {
      var packet := s.net.packets[n];
      var r := G.ReceiveRequest(s.gateway, env, packet.channel, relayer, packet.after, packet.origin);
      if r.Ok? {
        ReplyMessagesDispatchable(s.gateway, env, packet.channel, relayer, packet.after, packet.origin);
        var s0 := s.(gateway := r.value.state);
        if Dispatch(w, s0, r.value.msgs, env.time).Ok? {
          des := DispatchDrand(w, s0, r.value.msgs, env.time);
        }
      }
    }
  }

  lemma SubmittedDrand(w: World, s: State, env: Env, bot: Addr, fundsSent: bool, round: nat, signature: Bytes)
    returns (des: seq<DR.Event>)
    ensures Submitted(w, s, env, bot, fundsSent, round, signature).drand == DR.Run(w.crypto, s.drand, des)
  {
    hide D.AddRound, L.PayBot, G.AddVerifiedRound, SendAll, Drain, DrainedOwners, Gone;
    des := [];
    var balance := L.At(s.ledger.bank.balance, (w.addresses.drand, s.drand.config.incentiveDenom));
    if Submitted(w, s, env, bot, fundsSent, round, signature).drand != s.drand {
      des := [DR.Submitted(env, bot, fundsSent, round, signature, balance)];
      OneDrandStep(w.crypto, s.drand, des[0]);
    }
  }

  lemma OneDrandStep(c: Scheme, d: D.State, e: DR.Event)
    ensures DR.Run(c, d, [e]) == DR.Step(c, d, e)
    ensures DR.Run(c, d, []) == d
  {
    hide DR.Step;
    assert DR.Run(c, DR.Step(c, d, e), [e][1..]) == DR.Step(c, d, e);
  }

  lemma StepDrand(w: World, s: State, e: Event) returns (des: seq<DR.Event>)
    ensures Step(w, s, e).drand == DR.Run(w.crypto, s.drand, des)
  {
    hide Relayed, Submitted, Asked, RequestTimedOut, DeliveryTimedOut, DR.Run, L.Send, L.BurnFrom, L.BurnSinkBalance, G.AddVerifiedRound;
    des := [];
    OneDrandStep(w.crypto, s.drand, DR.Allowlisted({}));
    match e {
      case RelayRequest(n, relayer, env) => des := RelayedDrand(w, s, n, relayer, env);
      case SubmitRound(env, bot, fundsSent, round, signature) =>
        des := SubmittedDrand(w, s, env, bot, fundsSent, round, signature);
      case ForeignMark(sender, round) =>
        if sender != w.addresses.gateway {
          des := [DR.Marked(sender, round)];
          OneDrandStep(w.crypto, s.drand, des[0]);
        }
      case SetDrandParameters(minRound, incentivePointPrice, incentiveDenom) =>
        des := [DR.Configured(D.Config(s.drand.config.gateway, minRound, incentivePointPrice, incentiveDenom))];
        OneDrandStep(w.crypto, s.drand, des[0]);
      case RegisterBot(bot, moniker) =>
        des := [DR.Registered(bot, moniker)];
        OneDrandStep(w.crypto, s.drand, des[0]);
      case SetAllowlist(bots) =>
        des := [DR.Allowlisted(bots)];
        OneDrandStep(w.crypto, s.drand, des[0]);
      case _ => OtherEventsKeepDrand(w, s, e);
    }
  }

  lemma OtherEventsKeepDrand(w: World, s: State, e: Event)
    requires !e.RelayRequest? && !e.SubmitRound? && !e.ForeignMark?
    requires !e.SetDrandParameters? && !e.RegisterBot? && !e.SetAllowlist?
    ensures Step(w, s, e).drand == s.drand
  {
    hide G.AddVerifiedRound;
  }

  lemma {:induction false} DrandRunAppend(c: Scheme, d: D.State, a: seq<DR.Event>, b: seq<DR.Event>)
    ensures DR.Run(c, d, a + b) == DR.Run(c, DR.Run(c, d, a), b)
    decreases |a|
  {
    hide DR.Step;
    if a == [] {
      assert a + b == b;
    } else {
      DrandRunAppend(c, DR.Step(c, d, a[0]), a[1..], b);
      assert (a + b)[1..] == a[1..] + b;
    }
  }

  /** The same for the drand contract. */
  lemma {:induction false} ProtocolRefinesDrand(w: World, s: State, es: seq<Event>) returns (des: seq<DR.Event>)
    ensures Run(w, s, es).drand == DR.Run(w.crypto, s.drand, des)
    decreases |es|
  {
    hide Step, DR.Step;
    if es == [] {
      des := [];
    } else {
      var first := StepDrand(w, s, es[0]);
      var rest := ProtocolRefinesDrand(w, Step(w, s, es[0]), es[1..]);
      DrandRunAppend(w.crypto, s.drand, first, rest);
      des := first + rest;
    }
  }

  /** Whatever happens later, a verified beacon never changes and submissions are never removed or reordered. */
  lemma VerifiedBeaconNeverChanges(w: World, s: State, es: seq<Event>, round: nat)
    ensures D.Arrivals(s.drand, round) <= D.Arrivals(Run(w, s, es).drand, round)
    ensures round in s.drand.beacons ==>
      round in Run(w, s, es).drand.beacons && Run(w, s, es).drand.beacons[round] == s.drand.beacons[round]
  {
    hide Run, DR.Run;
    var des := ProtocolRefinesDrand(w, s, es);
    DR.BeaconsAreWriteOnce(w.crypto, s.drand, des, round);
  }
}
