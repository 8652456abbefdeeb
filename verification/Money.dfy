/** nois-payment: how one Pay message turns into at most three outflows. */
module PaymentModel {
  import opened Base

  datatype Outflow =
    | BurnAtSink(coin: Coin)
    | SendToRelayer(relayer: Addr, coin: Coin)
    | FundCommunityPool(coin: Coin)

  function Total(flows: seq<Outflow>): nat {
    if flows == [] then 0 else Total(flows[..|flows| - 1]) + flows[|flows| - 1].coin.amount
  }

  function Skip(flow: Outflow): seq<Outflow> {
    if flow.coin.amount == 0 then [] else [flow]
  }

  /** The outflows of a Pay message, in the order in which they are dispatched; zero shares are skipped. */
  function Outflows(burn: Coin, relayer: Addr, relayerShare: Coin, communityPool: Coin): seq<Outflow> {
    Skip(BurnAtSink(burn)) + Skip(SendToRelayer(relayer, relayerShare)) + Skip(FundCommunityPool(communityPool))
  }

  lemma {:induction false} TotalAppend(a: seq<Outflow>, b: seq<Outflow>)
    ensures Total(a + b) == Total(a) + Total(b)
    decreases |b|
  {
    if b == [] {
      assert a + b == a;
    } else {
      TotalAppend(a, b[..|b| - 1]);
      assert (a + b)[..|a + b| - 1] == a + b[..|b| - 1];
    }
  }

  /** Non-zero shares leave in the order burn, relayer, community pool. */
  lemma OutflowsInOrder(burn: Coin, relayer: Addr, relayerShare: Coin, communityPool: Coin)
    requires burn.amount > 0 && relayerShare.amount > 0 && communityPool.amount > 0
    ensures Outflows(burn, relayer, relayerShare, communityPool)
            == [BurnAtSink(burn), SendToRelayer(relayer, relayerShare), FundCommunityPool(communityPool)]
  {
  }

  /** Exactly the three shares leave the contract, and none of the messages carries a zero amount. */
  lemma OutflowsTotal(burn: Coin, relayer: Addr, relayerShare: Coin, communityPool: Coin)
    ensures Total(Outflows(burn, relayer, relayerShare, communityPool))
            == burn.amount + relayerShare.amount + communityPool.amount
    ensures forall f <- Outflows(burn, relayer, relayerShare, communityPool) :: f.coin.amount > 0
  {
    TotalAppend(Skip(BurnAtSink(burn)), Skip(SendToRelayer(relayer, relayerShare)));
    TotalAppend(Skip(BurnAtSink(burn)) + Skip(SendToRelayer(relayer, relayerShare)),
      Skip(FundCommunityPool(communityPool)));
  }

  lemma OutflowsDenom(burn: Coin, relayer: Addr, relayerShare: Coin, communityPool: Coin)
    requires burn.denom == relayerShare.denom == communityPool.denom
    ensures forall f <- Outflows(burn, relayer, relayerShare, communityPool) :: f.coin.denom == burn.denom
  {
  }

  /** `execute_pay`; only the gateway that created the contract may call it. */
  method ExecutePay(gateway: Addr, sender: Addr, funds: seq<Coin>, relayerIsValid: bool, burn: Coin, communityPool: Coin,
                    relayer: (Addr, Coin)) returns (r: Res<seq<Outflow>>)
    ensures r.Ok? <==> sender == gateway && funds == [] && relayerIsValid
    ensures !r.Ok? ==> r == Err(if sender != gateway then Unauthorized else if funds != [] then FundsSent else InvalidAddress)
    ensures r.Ok? ==> r.value == Outflows(burn, relayer.0, relayer.1, communityPool)
    ensures r.Ok? ==> Total(r.value) == burn.amount + relayer.1.amount + communityPool.amount
  {
    if sender != gateway {
      return Err(Unauthorized);
    }
    if funds != [] {
      return Err(FundsSent);
    }
    if !relayerIsValid {
      return Err(InvalidAddress);
    }
    var outMsgs: seq<Outflow> := [];
    if burn.amount != 0 {
      outMsgs := outMsgs + [BurnAtSink(burn)];
    }
    if relayer.1.amount != 0 {
      outMsgs := outMsgs + [SendToRelayer(relayer.0, relayer.1)];
    }
    if communityPool.amount != 0 {
      outMsgs := outMsgs + [FundCommunityPool(communityPool)];
    }
    OutflowsTotal(burn, relayer.0, relayer.1, communityPool);
    return Ok(outMsgs);
  }
}

/** The bank accounts behind the contracts: payment contracts, the drand contract's incentives and the sink. */
module Ledger {
  import opened Base
  import opened PaymentModel
  import SinkModel

  /** An account holds one denom of one address. */
  type Account = (Addr, string)

  datatype Bank = Bank(balance: map<Account, nat>, received: map<Account, nat>, spent: map<Account, nat>)

  datatype Charge = Charge(payment: Addr, price: Coin)

  /** Coins a contract gave to somebody. */
  datatype Payout = Payout(to: Addr, coin: Coin)

  /**
   * `paymentOf` is the address at which the payment contract of a channel is instantiated; it depends on the
   * channel id alone. `isValid` is the address check of the chain.
   */
  datatype Addresses = Addresses(
    gateway: Addr, drand: Addr, sink: Addr, pool: Addr, paymentOf: string -> Addr, isValid: Addr -> bool)

  /** The addresses whose coins nobody holds a key for. */
  ghost predicate IsContract(w: Addresses, a: Addr) {
    a == w.gateway || a == w.drand || a == w.sink || exists channel: string :: a == w.paymentOf(channel)
  }

  /**
   * `charges`, `payouts` and `fundings` are histories: every price charged to a payment contract, every bot
   * payout, and what the gateway gave to the payment contracts it created.
   */
  datatype Ledger = Ledger(
    bank: Bank, ashes: seq<SinkModel.Ash>, charges: seq<Charge>, payouts: seq<Payout>, fundings: seq<Payout>)

  function At(m: map<Account, nat>, a: Account): nat {
    if a in m then m[a] else 0
  }

  function Credit(b: Bank, a: Account, amount: nat): Bank {
    b.(balance := b.balance[a := At(b.balance, a) + amount], received := b.received[a := At(b.received, a) + amount])
  }

  predicate Covers(b: Bank, a: Account, amount: nat) {
    amount <= At(b.balance, a)
  }

  function Debit(b: Bank, a: Account, amount: nat): Bank
    requires Covers(b, a, amount)
  {
    b.(balance := b.balance[a := At(b.balance, a) - amount], spent := b.spent[a := At(b.spent, a) + amount])
  }

  // ---- Transactions ----

  /** A burn at the sink: the coin arrives, is recorded as ash and destroyed. */
  function BurnAt(w: Addresses, l: Ledger, burner: Addr, funds: seq<Coin>, time: Timestamp): Res<Ledger> {
    var ashes :- SinkModel.Burn(l.ashes, burner, funds, time);
    var sink := (w.sink, funds[0].denom);
    var bank := Credit(l.bank, sink, funds[0].amount);
    Ok(l.(bank := Debit(bank, sink, funds[0].amount), ashes := ashes))
  }

  function BurnSinkBalance(w: Addresses, l: Ledger, funds: seq<Coin>, time: Timestamp): Res<Ledger> {
    var sink := (w.sink, SinkModel.BURN_DENOM);
    var balance := At(l.bank.balance, sink);
    var ashes :- SinkModel.BurnBalance(l.ashes, funds, balance, time);
    Ok(l.(bank := Debit(l.bank, sink, balance), ashes := ashes))
  }

  function Execute(w: Addresses, l: Ledger, payment: Addr, flow: Outflow, time: Timestamp): Res<Ledger> {
    var account := (payment, flow.coin.denom);
    if !Covers(l.bank, account, flow.coin.amount) then Err(InsufficientPayment)
    else
      var l1 := l.(bank := Debit(l.bank, account, flow.coin.amount));
      match flow
      case BurnAtSink(coin) => BurnAt(w, l1, payment, [coin], time)
      case SendToRelayer(relayer, coin) => Ok(l1.(bank := Credit(l1.bank, (relayer, coin.denom), coin.amount)))
      case FundCommunityPool(coin) => Ok(l1.(bank := Credit(l1.bank, (w.pool, coin.denom), coin.amount)))
  }

  function ExecuteAll(w: Addresses, l: Ledger, payment: Addr, flows: seq<Outflow>, time: Timestamp): Res<Ledger> {
    if flows == [] then Ok(l)
    else
      var l1 :- ExecuteAll(w, l, payment, flows[..|flows| - 1], time);
      Execute(w, l1, payment, flows[|flows| - 1], time)
  }

  /** A Pay message from the gateway, with everything it dispatches; any failure reverts all of it. */
  function Pay(w: Addresses, l: Ledger, payment: Addr, burn: Coin, relayer: Addr, relayerShare: Coin, communityPool: Coin,
               time: Timestamp): Res<Ledger>
    requires burn.denom == relayerShare.denom == communityPool.denom
  {
    if !w.isValid(relayer) then Err(InvalidAddress)
    else
      var paid :- ExecuteAll(w, l, payment, Outflows(burn, relayer, relayerShare, communityPool), time);
      var price := Coin(burn.amount + relayerShare.amount + communityPool.amount, burn.denom);
      Ok(paid.(charges := paid.charges + [Charge(payment, price)]))
  }

  /** A bot payout by the drand contract; a zero payout sends nothing. */
  function PayBot(w: Addresses, l: Ledger, bot: Addr, payout: Coin): Res<Ledger> {
    if payout.amount == 0 then Ok(l)
    else if !Covers(l.bank, (w.drand, payout.denom), payout.amount) then Err(InsufficientPayment)
    else
      Ok(l.(bank := Credit(Debit(l.bank, (w.drand, payout.denom), payout.amount), (bot, payout.denom), payout.amount),
            payouts := l.payouts + [Payout(bot, payout)]))
  }

  /** The gateway gives its new payment contract the configured funds. */
  function Fund(w: Addresses, l: Ledger, payment: Addr, funds: Option<Coin>): Res<Ledger> {
    match funds
    case None => Ok(l)
    case Some(coin) =>
      var account := (w.gateway, coin.denom);
      if !Covers(l.bank, account, coin.amount) then Err(InsufficientPayment)
      else
        Ok(l.(bank := Credit(Debit(l.bank, account, coin.amount), (payment, coin.denom), coin.amount),
              fundings := l.fundings + [Payout(payment, coin)]))
  }

  /** Coins arrive from other chains or are minted. */
  function Deposit(l: Ledger, a: Account, amount: nat): Ledger {
    l.(bank := Credit(l.bank, a, amount))
  }

  /** The owner of an account sends coins to somebody, or off the chain. */
  function Send(l: Ledger, from: Addr, to: Option<Addr>, coin: Coin): Res<Ledger> {
    if !Covers(l.bank, (from, coin.denom), coin.amount) then Err(InsufficientPayment)
    else
      var debited := Debit(l.bank, (from, coin.denom), coin.amount);
      Ok(l.(bank := match to
                    case Some(receiver) => Credit(debited, (receiver, coin.denom), coin.amount)
                    case None => debited))
  }

  /** A burn by the owner of an account, who pays the coin sent along. */
  function BurnFrom(w: Addresses, l: Ledger, burner: Addr, funds: seq<Coin>, time: Timestamp): Res<Ledger> {
    if funds == [] then Err(NoCoins)
    else
      var sent :- Send(l, burner, None, funds[0]);
      BurnAt(w, sent, burner, funds, time)
  }

  // ---- Conservation ----

  function Charged(charges: seq<Charge>, payment: Addr, denom: string): nat {
    if charges == [] then 0
    else
      var last := charges[|charges| - 1];
      Charged(charges[..|charges| - 1], payment, denom)
      + (if last.payment == payment && last.price.denom == denom then last.price.amount else 0)
  }

  function PaidOut(payouts: seq<Payout>, denom: string): nat {
    if payouts == [] then 0
    else
      var last := payouts[|payouts| - 1];
      PaidOut(payouts[..|payouts| - 1], denom) + (if last.coin.denom == denom then last.coin.amount else 0)
  }

  /** Everything the contracts' own records say an account has spent. */
  function Recorded(w: Addresses, l: Ledger, a: Account): nat {
    Charged(l.charges, a.0, a.1)
    + (if a.0 == w.drand then PaidOut(l.payouts, a.1) else 0)
    + (if a.0 == w.gateway then PaidOut(l.fundings, a.1) else 0)
    + (if a == (w.sink, SinkModel.BURN_DENOM) then SinkModel.TotalBurnt(l.ashes) else 0)
  }

  ghost predicate Balanced(b: Bank) {
    forall a: Account :: At(b.received, a) == At(b.balance, a) + At(b.spent, a)
  }

  ghost predicate Inv(w: Addresses, l: Ledger) {
    && Balanced(l.bank)
    && forall a: Account :: IsContract(w, a.0) ==> At(l.bank.spent, a) == Recorded(w, l, a)
  }

  /** Spending by `account` that the charge history does not show yet. */
  ghost predicate InvWhilePaying(w: Addresses, l: Ledger, account: Account, unrecorded: nat) {
    && Balanced(l.bank)
    && forall a: Account :: IsContract(w, a.0) ==>
         At(l.bank.spent, a) == Recorded(w, l, a) + (if a == account then unrecorded else 0)
  }

  lemma CreditEffect(b: Bank, account: Account, amount: nat)
    requires Balanced(b)
    ensures Balanced(Credit(b, account, amount))
    ensures Credit(b, account, amount).spent == b.spent
    ensures Covers(Credit(b, account, amount), account, amount)
  {
    var b' := Credit(b, account, amount);
    forall a: Account
      ensures At(b'.received, a) == At(b'.balance, a) + At(b'.spent, a)
    {
      assert At(b.received, a) == At(b.balance, a) + At(b.spent, a);
    }
  }

  lemma DebitEffect(b: Bank, account: Account, amount: nat)
    requires Balanced(b) && Covers(b, account, amount)
    ensures Balanced(Debit(b, account, amount))
    ensures forall a: Account :: At(Debit(b, account, amount).spent, a) == At(b.spent, a) + (if a == account then amount else 0)
  {
    var b' := Debit(b, account, amount);
    forall a: Account
      ensures At(b'.received, a) == At(b'.balance, a) + At(b'.spent, a)
    {
      assert At(b.received, a) == At(b.balance, a) + At(b.spent, a);
    }
  }

  /** An ash recorded together with the debit of the sink keeps the books. */
  lemma AshPays(w: Addresses, l: Ledger, ash: SinkModel.Ash, bank: Bank, account: Account, unrecorded: nat)
    requires InvWhilePaying(w, l, account, unrecorded) && Balanced(bank)
    requires forall a: Account ::
      At(bank.spent, a)
      == At(l.bank.spent, a) + (if a == (w.sink, SinkModel.BURN_DENOM) then ash.amount.amount else 0)
    ensures InvWhilePaying(w, l.(bank := bank, ashes := l.ashes + [ash]), account, unrecorded)
  {
    hide Balanced, IsContract;
    SinkModel.AppendedAsh(l.ashes, ash);
    hide SinkModel.TotalBurnt;
    var l' := l.(bank := bank, ashes := l.ashes + [ash]);
    forall a: Account | IsContract(w, a.0)
      ensures At(l'.bank.spent, a) == Recorded(w, l', a) + (if a == account then unrecorded else 0)
    {
      assert At(l.bank.spent, a) == Recorded(w, l, a) + (if a == account then unrecorded else 0);
    }
  }

  lemma BurnAtPays(w: Addresses, l: Ledger, burner: Addr, funds: seq<Coin>, time: Timestamp, account: Account,
                   unrecorded: nat)
    requires InvWhilePaying(w, l, account, unrecorded) && BurnAt(w, l, burner, funds, time).Ok?
    ensures InvWhilePaying(w, BurnAt(w, l, burner, funds, time).value, account, unrecorded)
    ensures BurnAt(w, l, burner, funds, time).value.charges == l.charges
    ensures BurnAt(w, l, burner, funds, time).value.payouts == l.payouts
    ensures BurnAt(w, l, burner, funds, time).value.fundings == l.fundings
  {
    var sink := (w.sink, SinkModel.BURN_DENOM);
    CreditEffect(l.bank, sink, funds[0].amount);
    var credited := Credit(l.bank, sink, funds[0].amount);
    DebitEffect(credited, sink, funds[0].amount);
    hide Balanced, IsContract, Credit, Debit, Recorded;
    AshPays(w, l, SinkModel.Ash(Some(burner), funds[0], time), Debit(credited, sink, funds[0].amount), account, unrecorded);
  }

  lemma DebitPays(w: Addresses, l: Ledger, account: Account, amount: nat, unrecorded: nat)
    requires InvWhilePaying(w, l, account, unrecorded) && Covers(l.bank, account, amount)
    ensures InvWhilePaying(w, l.(bank := Debit(l.bank, account, amount)), account, unrecorded + amount)
  {
    DebitEffect(l.bank, account, amount);
    hide Balanced, IsContract, Debit;
    var l' := l.(bank := Debit(l.bank, account, amount));
    forall a: Account | IsContract(w, a.0)
      ensures At(l'.bank.spent, a) == Recorded(w, l', a) + (if a == account then unrecorded + amount else 0)
    {
      assert At(l.bank.spent, a) == Recorded(w, l, a) + (if a == account then unrecorded else 0);
    }
  }

  lemma CreditPays(w: Addresses, l: Ledger, to: Account, amount: nat, account: Account, unrecorded: nat)
    requires InvWhilePaying(w, l, account, unrecorded)
    ensures InvWhilePaying(w, l.(bank := Credit(l.bank, to, amount)), account, unrecorded)
  {
    CreditEffect(l.bank, to, amount);
    hide Balanced, IsContract, Credit;
    var l' := l.(bank := Credit(l.bank, to, amount));
    forall a: Account | IsContract(w, a.0)
      ensures At(l'.bank.spent, a) == Recorded(w, l', a) + (if a == account then unrecorded else 0)
    {
      assert At(l.bank.spent, a) == Recorded(w, l, a) + (if a == account then unrecorded else 0);
    }
  }

  lemma ExecutePays(w: Addresses, l: Ledger, payment: Addr, flow: Outflow, time: Timestamp, unrecorded: nat)
    requires InvWhilePaying(w, l, (payment, flow.coin.denom), unrecorded)
    requires Execute(w, l, payment, flow, time).Ok?
    ensures InvWhilePaying(w, Execute(w, l, payment, flow, time).value, (payment, flow.coin.denom),
                           unrecorded + flow.coin.amount)
    ensures Execute(w, l, payment, flow, time).value.charges == l.charges
    ensures Execute(w, l, payment, flow, time).value.payouts == l.payouts
    ensures Execute(w, l, payment, flow, time).value.fundings == l.fundings
  {
    hide InvWhilePaying, IsContract, Credit, Debit;
    var account := (payment, flow.coin.denom);
    var l1 := l.(bank := Debit(l.bank, account, flow.coin.amount));
    DebitPays(w, l, account, flow.coin.amount, unrecorded);
    match flow
    case BurnAtSink(coin) =>
      BurnAtPays(w, l1, payment, [coin], time, account, unrecorded + coin.amount);
    case SendToRelayer(relayer, coin) =>
      CreditPays(w, l1, (relayer, coin.denom), coin.amount, account, unrecorded + coin.amount);
    case FundCommunityPool(coin) =>
      CreditPays(w, l1, (w.pool, coin.denom), coin.amount, account, unrecorded + coin.amount);
  }

  lemma {:induction false} ExecuteAllPays(w: Addresses, l: Ledger, payment: Addr, flows: seq<Outflow>, time: Timestamp,
                                          denom: string)
    requires Inv(w, l) && ExecuteAll(w, l, payment, flows, time).Ok?
    requires forall f <- flows :: f.coin.denom == denom
    ensures InvWhilePaying(w, ExecuteAll(w, l, payment, flows, time).value, (payment, denom), Total(flows))
    ensures ExecuteAll(w, l, payment, flows, time).value.charges == l.charges
    ensures ExecuteAll(w, l, payment, flows, time).value.payouts == l.payouts
    ensures ExecuteAll(w, l, payment, flows, time).value.fundings == l.fundings
    decreases |flows|
  {
    if flows != [] {
      var front, last := flows[..|flows| - 1], flows[|flows| - 1];
      ExecuteAllPays(w, l, payment, front, time, denom);
      assert last in flows;
      ExecutePays(w, ExecuteAll(w, l, payment, front, time).value, payment, last, time, Total(front));
    }
  }

  lemma AppendedCharge(charges: seq<Charge>, c: Charge, payment: Addr, denom: string)
    ensures Charged(charges + [c], payment, denom)
            == Charged(charges, payment, denom) + (if c.payment == payment && c.price.denom == denom then c.price.amount else 0)
  {
    assert (charges + [c])[..|charges|] == charges;
  }

  lemma AppendedPayout(payouts: seq<Payout>, p: Payout, denom: string)
    ensures PaidOut(payouts + [p], denom) == PaidOut(payouts, denom) + (if p.coin.denom == denom then p.coin.amount else 0)
  {
    assert (payouts + [p])[..|payouts|] == payouts;
  }

  /** Recording the price settles what was spent while paying. */
  lemma ChargePays(w: Addresses, l: Ledger, payment: Addr, price: Coin)
    requires InvWhilePaying(w, l, (payment, price.denom), price.amount)
    ensures Inv(w, l.(charges := l.charges + [Charge(payment, price)]))
  {
    hide Balanced, IsContract;
    var l' := l.(charges := l.charges + [Charge(payment, price)]);
    forall a: Account | IsContract(w, a.0)
      ensures At(l'.bank.spent, a) == Recorded(w, l', a)
    {
      AppendedCharge(l.charges, Charge(payment, price), a.0, a.1);
      hide Charged, PaidOut, SinkModel.TotalBurnt;
      assert At(l.bank.spent, a) == Recorded(w, l, a) + (if a == (payment, price.denom) then price.amount else 0);
    }
  }

  lemma PayExecutes(w: Addresses, l: Ledger, payment: Addr, burn: Coin, relayer: Addr, relayerShare: Coin,
                    communityPool: Coin, time: Timestamp)
    requires burn.denom == relayerShare.denom == communityPool.denom
    requires Pay(w, l, payment, burn, relayer, relayerShare, communityPool, time).Ok?
    ensures
      var paid := ExecuteAll(w, l, payment, Outflows(burn, relayer, relayerShare, communityPool), time);
      var price := Coin(burn.amount + relayerShare.amount + communityPool.amount, burn.denom);
      paid.Ok? && Pay(w, l, payment, burn, relayer, relayerShare, communityPool, time).value
                  == paid.value.(charges := paid.value.charges + [Charge(payment, price)])
  {
    hide ExecuteAll, Outflows;
  }

  /** A payment spends exactly the price it records, whatever share is zero and whoever the relayer is. */
  lemma PayInv(w: Addresses, l: Ledger, payment: Addr, burn: Coin, relayer: Addr, relayerShare: Coin,
               communityPool: Coin, time: Timestamp)
    requires Inv(w, l) && burn.denom == relayerShare.denom == communityPool.denom
    requires Pay(w, l, payment, burn, relayer, relayerShare, communityPool, time).Ok?
    ensures
      var l' := Pay(w, l, payment, burn, relayer, relayerShare, communityPool, time).value;
      && Inv(w, l')
      && l'.charges == l.charges
                       + [Charge(payment, Coin(burn.amount + relayerShare.amount + communityPool.amount, burn.denom))]
      && l'.payouts == l.payouts && l'.fundings == l.fundings
  {
    var flows := Outflows(burn, relayer, relayerShare, communityPool);
    hide Inv, InvWhilePaying, Total, Outflows, ExecuteAll, Pay;
    OutflowsDenom(burn, relayer, relayerShare, communityPool);
    PayExecutes(w, l, payment, burn, relayer, relayerShare, communityPool, time);
    ExecuteAllPays(w, l, payment, flows, time, burn.denom);
    OutflowsTotal(burn, relayer, relayerShare, communityPool);
    ChargePays(w, ExecuteAll(w, l, payment, flows, time).value, payment, Coin(Total(flows), burn.denom));
  }

  /** Where the coins of an outflow arrive. */
  function Recipient(w: Addresses, flow: Outflow): Account {
    match flow
    case BurnAtSink(coin) => (w.sink, coin.denom)
    case SendToRelayer(relayer, coin) => (relayer, coin.denom)
    case FundCommunityPool(coin) => (w.pool, coin.denom)
  }

  function Got(w: Addresses, flows: seq<Outflow>, a: Account): nat {
    if flows == [] then 0
    else
      var last := flows[|flows| - 1];
      Got(w, flows[..|flows| - 1], a) + (if a == Recipient(w, last) then last.coin.amount else 0)
  }

  function Ashes(flows: seq<Outflow>, payment: Addr, time: Timestamp): seq<SinkModel.Ash> {
    if flows == [] then []
    else
      var last := flows[|flows| - 1];
      Ashes(flows[..|flows| - 1], payment, time)
      + (if last.BurnAtSink? then [SinkModel.Ash(Some(payment), last.coin, time)] else [])
  }

  lemma {:induction false} ExecuteAllReceives(w: Addresses, l: Ledger, payment: Addr, flows: seq<Outflow>, time: Timestamp,
                                              a: Account)
    requires ExecuteAll(w, l, payment, flows, time).Ok?
    ensures
      var l' := ExecuteAll(w, l, payment, flows, time).value;
      && At(l'.bank.received, a) == At(l.bank.received, a) + Got(w, flows, a)
      && l'.ashes == l.ashes + Ashes(flows, payment, time)
    decreases |flows|
  {
    if flows != [] {
      ExecuteAllReceives(w, l, payment, flows[..|flows| - 1], time, a);
    }
  }

  lemma {:induction false} GotAppend(w: Addresses, x: seq<Outflow>, flow: Outflow, a: Account, payment: Addr, time: Timestamp)
    ensures Got(w, x + Skip(flow), a) == Got(w, x, a) + (if a == Recipient(w, flow) then flow.coin.amount else 0)
    ensures Ashes(x + Skip(flow), payment, time)
            == Ashes(x, payment, time)
               + (if flow.BurnAtSink? && flow.coin.amount > 0 then [SinkModel.Ash(Some(payment), flow.coin, time)] else [])
  {
    if flow.coin.amount == 0 {
      assert x + Skip(flow) == x;
    } else {
      assert (x + Skip(flow))[..|x|] == x;
    }
  }

  /**
   * Who gets what from a payment: the sink the burn share, recorded as one ash, the relayer and the community
   * pool theirs, and nobody else anything.
   */
  lemma PayDistributes(w: Addresses, l: Ledger, payment: Addr, burn: Coin, relayer: Addr, relayerShare: Coin,
                       communityPool: Coin, time: Timestamp, a: Account)
    requires burn.denom == relayerShare.denom == communityPool.denom
    requires Pay(w, l, payment, burn, relayer, relayerShare, communityPool, time).Ok?
    ensures
      var l' := Pay(w, l, payment, burn, relayer, relayerShare, communityPool, time).value;
      && At(l'.bank.received, a)
         == At(l.bank.received, a)
            + (if a == (w.sink, burn.denom) then burn.amount else 0)
            + (if a == (relayer, burn.denom) then relayerShare.amount else 0)
            + (if a == (w.pool, burn.denom) then communityPool.amount else 0)
      && l'.ashes == l.ashes + (if burn.amount > 0 then [SinkModel.Ash(Some(payment), burn, time)] else [])
  {
    var flows := Outflows(burn, relayer, relayerShare, communityPool);
    ExecuteAllReceives(w, l, payment, flows, time, a);
    var first := Skip(BurnAtSink(burn));
    var second := first + Skip(SendToRelayer(relayer, relayerShare));
    assert [] + first == first;
    GotAppend(w, [], BurnAtSink(burn), a, payment, time);
    GotAppend(w, first, SendToRelayer(relayer, relayerShare), a, payment, time);
    GotAppend(w, second, FundCommunityPool(communityPool), a, payment, time);
    assert flows == second + Skip(FundCommunityPool(communityPool));
    hide Got, Ashes, Outflows, Skip;
  }

  /** A payout arrives at the bot, and nowhere else. */
  lemma PayBotCredits(w: Addresses, l: Ledger, bot: Addr, payout: Coin, a: Account)
    requires PayBot(w, l, bot, payout).Ok?
    ensures At(PayBot(w, l, bot, payout).value.bank.received, a)
            == At(l.bank.received, a) + (if a == (bot, payout.denom) then payout.amount else 0)
  {
  }

  /** Initial funds arrive at the new payment contract, and nowhere else. */
  lemma FundCredits(w: Addresses, l: Ledger, payment: Addr, funds: Option<Coin>, a: Account)
    requires Fund(w, l, payment, funds).Ok?
    ensures At(Fund(w, l, payment, funds).value.bank.received, a)
            == At(l.bank.received, a)
               + (if funds.Some? && a == (payment, funds.value.denom) then funds.value.amount else 0)
  {
  }

  /** What an outsider sends arrives at the receiver, if there is one. */
  lemma SendCredits(l: Ledger, from: Addr, to: Option<Addr>, coin: Coin, a: Account)
    requires Send(l, from, to, coin).Ok?
    ensures At(Send(l, from, to, coin).value.bank.received, a)
            == At(l.bank.received, a) + (if to.Some? && a == (to.value, coin.denom) then coin.amount else 0)
    ensures At(Send(l, from, to, coin).value.bank.spent, (from, coin.denom)) == At(l.bank.spent, (from, coin.denom)) + coin.amount
  {
  }

  /** A burn passes through the sink, and the burner pays for it. */
  lemma BurnFromCredits(w: Addresses, l: Ledger, burner: Addr, funds: seq<Coin>, time: Timestamp, a: Account)
    requires BurnFrom(w, l, burner, funds, time).Ok?
    ensures |funds| == 1 && funds[0].denom == "unois"
    ensures
      var l' := BurnFrom(w, l, burner, funds, time).value;
      && At(l'.bank.received, a) == At(l.bank.received, a) + (if a == (w.sink, "unois") then funds[0].amount else 0)
      && l'.ashes == l.ashes + [SinkModel.Ash(Some(burner), funds[0], time)]
  {
  }

  lemma PayBotInv(w: Addresses, l: Ledger, bot: Addr, payout: Coin)
    requires Inv(w, l) && PayBot(w, l, bot, payout).Ok?
    ensures Inv(w, PayBot(w, l, bot, payout).value)
    ensures PayBot(w, l, bot, payout).value.charges == l.charges
    ensures PayBot(w, l, bot, payout).value.fundings == l.fundings
    ensures PayBot(w, l, bot, payout).value.payouts == l.payouts + (if payout.amount > 0 then [Payout(bot, payout)] else [])
  {
    if payout.amount > 0 {
      var account := (w.drand, payout.denom);
      DebitEffect(l.bank, account, payout.amount);
      CreditEffect(Debit(l.bank, account, payout.amount), (bot, payout.denom), payout.amount);
      hide Balanced, IsContract, Credit, Debit;
      var l' := PayBot(w, l, bot, payout).value;
      forall a: Account | IsContract(w, a.0)
        ensures At(l'.bank.spent, a) == Recorded(w, l', a)
      {
        AppendedPayout(l.payouts, Payout(bot, payout), a.1);
        hide PaidOut;
        assert At(l.bank.spent, a) == Recorded(w, l, a);
      }
    }
  }

  lemma BurnAtInv(w: Addresses, l: Ledger, burner: Addr, funds: seq<Coin>, time: Timestamp)
    requires Inv(w, l) && BurnAt(w, l, burner, funds, time).Ok?
    ensures Inv(w, BurnAt(w, l, burner, funds, time).value)
    ensures BurnAt(w, l, burner, funds, time).value.charges == l.charges
    ensures BurnAt(w, l, burner, funds, time).value.payouts == l.payouts
    ensures BurnAt(w, l, burner, funds, time).value.fundings == l.fundings
  {
    BurnAtPays(w, l, burner, funds, time, (w.sink, ""), 0);
  }

  lemma BurnSinkBalanceInv(w: Addresses, l: Ledger, funds: seq<Coin>, time: Timestamp)
    requires Inv(w, l) && BurnSinkBalance(w, l, funds, time).Ok?
    ensures Inv(w, BurnSinkBalance(w, l, funds, time).value)
    ensures BurnSinkBalance(w, l, funds, time).value.charges == l.charges
    ensures BurnSinkBalance(w, l, funds, time).value.payouts == l.payouts
    ensures BurnSinkBalance(w, l, funds, time).value.fundings == l.fundings
    ensures At(BurnSinkBalance(w, l, funds, time).value.bank.balance, (w.sink, SinkModel.BURN_DENOM)) == 0
  {
    hide Balanced, IsContract, Recorded;
    var sink := (w.sink, SinkModel.BURN_DENOM);
    var balance := At(l.bank.balance, sink);
    DebitEffect(l.bank, sink, balance);
    AshPays(w, l, SinkModel.Ash(None, Coin(balance, SinkModel.BURN_DENOM), time), Debit(l.bank, sink, balance), (w.sink, ""), 0);
  }

  lemma DepositInv(w: Addresses, l: Ledger, a: Account, amount: nat)
    requires Inv(w, l)
    ensures Inv(w, Deposit(l, a, amount))
  {
  }

  lemma FundInv(w: Addresses, l: Ledger, payment: Addr, funds: Option<Coin>)
    requires Inv(w, l) && Fund(w, l, payment, funds).Ok?
    ensures
      var l' := Fund(w, l, payment, funds).value;
      && Inv(w, l') && l'.charges == l.charges && l'.payouts == l.payouts
      && l'.fundings == l.fundings + (if funds.Some? then [Payout(payment, funds.value)] else [])
  {
    hide Inv, InvWhilePaying, Credit, Debit;
    if funds.Some? {
      var coin := funds.value;
      var account := (w.gateway, coin.denom);
      NothingUnrecorded(w, l, account);
      DebitPays(w, l, account, coin.amount, 0);
      var debited := l.(bank := Debit(l.bank, account, coin.amount));
      CreditPays(w, debited, (payment, coin.denom), coin.amount, account, coin.amount);
      FundingPays(w, debited.(bank := Credit(debited.bank, (payment, coin.denom), coin.amount)), Payout(payment, coin));
    }
  }

  lemma NothingUnrecorded(w: Addresses, l: Ledger, account: Account)
    requires Inv(w, l)
    ensures InvWhilePaying(w, l, account, 0)
  {
    hide Balanced, IsContract, Recorded;
  }

  lemma FundingPays(w: Addresses, l: Ledger, p: Payout)
    requires InvWhilePaying(w, l, (w.gateway, p.coin.denom), p.coin.amount)
    ensures Inv(w, l.(fundings := l.fundings + [p]))
  {
    hide Balanced, IsContract;
    var l' := l.(fundings := l.fundings + [p]);
    var coin := p.coin;
    forall a: Account | IsContract(w, a.0)
      ensures At(l'.bank.spent, a) == Recorded(w, l', a)
    {
      AppendedPayout(l.fundings, p, a.1);
      hide Charged, PaidOut, SinkModel.TotalBurnt;
      assert At(l.bank.spent, a) == Recorded(w, l, a) + (if a == (w.gateway, coin.denom) then coin.amount else 0);
    }
  }

  /** Spending by outsiders touches no contract's books. */
  lemma SendInv(w: Addresses, l: Ledger, from: Addr, to: Option<Addr>, coin: Coin)
    requires Inv(w, l) && !IsContract(w, from) && Send(l, from, to, coin).Ok?
    ensures
      var l' := Send(l, from, to, coin).value;
      && Inv(w, l') && l'.charges == l.charges && l'.payouts == l.payouts && l'.fundings == l.fundings
  {
    var account := (from, coin.denom);
    DebitEffect(l.bank, account, coin.amount);
    if to.Some? {
      CreditEffect(Debit(l.bank, account, coin.amount), (to.value, coin.denom), coin.amount);
    }
    hide Balanced, IsContract, Credit, Debit;
    var l' := Send(l, from, to, coin).value;
    forall a: Account | IsContract(w, a.0)
      ensures At(l'.bank.spent, a) == Recorded(w, l', a)
    {
      assert At(l.bank.spent, a) == Recorded(w, l, a);
    }
  }

  lemma BurnFromInv(w: Addresses, l: Ledger, burner: Addr, funds: seq<Coin>, time: Timestamp)
    requires Inv(w, l) && !IsContract(w, burner) && BurnFrom(w, l, burner, funds, time).Ok?
    ensures
      var l' := BurnFrom(w, l, burner, funds, time).value;
      && Inv(w, l') && l'.charges == l.charges && l'.payouts == l.payouts && l'.fundings == l.fundings
  {
    hide Inv, IsContract, Send, BurnAt;
    SendInv(w, l, burner, None, funds[0]);
    BurnAtInv(w, Send(l, burner, None, funds[0]).value, burner, funds, time);
  }

  const EMPTY := Ledger(Bank(map[], map[], map[]), [], [], [], [])

  // ---- Runs ----

  datatype Event =
    | Deposited(account: Account, amount: nat)
    | Paid(payment: Addr, burn: nat, relayer: Addr, relayerShare: nat, communityPool: nat, denom: string, time: Timestamp)
    | BotPaid(bot: Addr, payout: Coin)
    | Funded(payment: Addr, initialFunds: Option<Coin>)
    | Sent(from: Addr, to: Option<Addr>, coin: Coin)
    | Burnt(burner: Addr, funds: seq<Coin>, time: Timestamp)
    | BalanceBurnt(funds: seq<Coin>, time: Timestamp)

  function OrSame(r: Res<Ledger>, l: Ledger): Ledger {
    if r.Ok? then r.value else l
  }

  /** Only outsiders send and burn coins of their own will. */
  ghost function Step(w: Addresses, l: Ledger, e: Event): Ledger {
    match e
    case Deposited(account, amount) => Deposit(l, account, amount)
    case Paid(payment, burn, relayer, relayerShare, communityPool, denom, time) =>
      OrSame(Pay(w, l, payment, Coin(burn, denom), relayer, Coin(relayerShare, denom), Coin(communityPool, denom), time), l)
    case BotPaid(bot, payout) => OrSame(PayBot(w, l, bot, payout), l)
    case Funded(payment, funds) => OrSame(Fund(w, l, payment, funds), l)
    case Sent(from, to, coin) => if IsContract(w, from) then l else OrSame(Send(l, from, to, coin), l)
    case Burnt(burner, funds, time) =>
      if IsContract(w, burner) then l else OrSame(BurnFrom(w, l, burner, funds, time), l)
    case BalanceBurnt(funds, time) => OrSame(BurnSinkBalance(w, l, funds, time), l)
  }

  ghost function Run(w: Addresses, l: Ledger, es: seq<Event>): Ledger
    decreases |es|
  {
    if es == [] then l else Run(w, Step(w, l, es[0]), es[1..])
  }

  lemma StepInv(w: Addresses, l: Ledger, e: Event)
    requires Inv(w, l)
    ensures Inv(w, Step(w, l, e))
  {
    hide Inv, IsContract, Pay, PayBot, Fund, Send, BurnFrom, BurnSinkBalance, Deposit;
    match e
    case Deposited(account, amount) => DepositInv(w, l, account, amount);
    case Paid(payment, burn, relayer, relayerShare, communityPool, denom, time) =>
      if Pay(w, l, payment, Coin(burn, denom), relayer, Coin(relayerShare, denom), Coin(communityPool, denom), time).Ok? {
        PayInv(w, l, payment, Coin(burn, denom), relayer, Coin(relayerShare, denom), Coin(communityPool, denom), time);
      }
    case BotPaid(bot, payout) =>
      if PayBot(w, l, bot, payout).Ok? {
        PayBotInv(w, l, bot, payout);
      }
    case Funded(payment, funds) =>
      if Fund(w, l, payment, funds).Ok? {
        FundInv(w, l, payment, funds);
      }
    case Sent(from, to, coin) =>
      if !IsContract(w, from) && Send(l, from, to, coin).Ok? {
        SendInv(w, l, from, to, coin);
      }
    case Burnt(burner, funds, time) =>
      if !IsContract(w, burner) && BurnFrom(w, l, burner, funds, time).Ok? {
        BurnFromInv(w, l, burner, funds, time);
      }
    case BalanceBurnt(funds, time) =>
      if BurnSinkBalance(w, l, funds, time).Ok? {
        BurnSinkBalanceInv(w, l, funds, time);
      }
  }

  lemma {:induction false} RunInv(w: Addresses, l: Ledger, es: seq<Event>)
    requires Inv(w, l)
    ensures Inv(w, Run(w, l, es))
    decreases |es|
  {
    if es != [] {
      StepInv(w, l, es[0]);
      RunInv(w, Step(w, l, es[0]), es[1..]);
    }
  }

  /**
   * Over every run of deposits, payments, bot payouts, fundings, transfers and burns, nobody can take a
   * contract's money outside the recorded paths: what a contract ever received is its balance plus exactly
   * what was recorded as spent. For a payment contract these are the prices charged, for the drand contract the
   * payouts (which therefore never exceed its funds), for the gateway the initial funds of payment contracts,
   * for the sink all ashes.
   */
  lemma MoneyConserved(w: Addresses, es: seq<Event>, a: Account)
    requires IsContract(w, a.0)
    ensures
      var l := Run(w, EMPTY, es);
      At(l.bank.received, a) == At(l.bank.balance, a) + Recorded(w, l, a)
  {
    RunInv(w, EMPTY, es);
    var l := Run(w, EMPTY, es);
    assert At(l.bank.spent, a) == Recorded(w, l, a);
  }
}
