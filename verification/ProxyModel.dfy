/** nois-proxy: turning a dapp call into a beacon request, and a delivered beacon into a callback. */
module ProxyModel {
  import opened Base
  import opened Rounds

  const MAX_JOB_ID_LEN := 64
  const SAFETY_MARGIN := 5 * NANOS
  const TEST_MODE_NEXT_AFTER_INIT := 1677687597000000000 - 1
  const TEST_MODE_NEXT_AFTER_INCREMENT_SECONDS := 30
  const REQUEST_BEACON_PACKET_LIFETIME := 100 * 24 * 3600
  const TRANSFER_PACKET_LIFETIME := 24 * 3600
  const TEN_YEARS_S := 10 * 3600 * 24 * 365
  const MIN_AFTER_FALLBACK := 1680015600 * NANOS
  const MAX_AFTER_FALLBACK := (1680015600 + TEN_YEARS_S) * NANOS

  /** `RequestBeaconOrigin`, opaque to the gateway. */
  datatype Origin = Origin(sender: Addr, jobId: string)

  /** JSON coding of origins is library code and appears as a parameter. */
  datatype Codec = Codec(encode: Origin -> Bytes, decode: Bytes -> Option<Origin>)

  ghost predicate Faithful(codec: Codec) {
    forall o: Origin :: codec.decode(codec.encode(o)) == Some(o)
  }

  /** Either somebody fills the payment contract, or the proxy sends IBCed coins with each request. */
  datatype Mode = Funded | IbcPay(ics20Channel: string, denom: string)

  datatype State = State(
    prices: seq<Coin>,
    mode: Mode,
    payment: Option<Addr>,
    noisBeaconPrice: nat,
    allowlistEnabled: Option<bool>,
    allowlist: set<Addr>,
    minAfter: Option<Timestamp>,
    maxAfter: Option<Timestamp>,
    testMode: bool,
    testModeNextAfter: Option<Timestamp>,
    gatewayChannel: Option<string>)

  datatype RequestPacket = RequestPacket(after: Timestamp, origin: Bytes, timeout: int)

  datatype Transfer = Transfer(channel: string, to: Addr, coin: Coin, timeout: int)

  /** What a request sends: the payment first, if any, then the packet. */
  datatype Emitted = Emitted(transfer: Option<Transfer>, packet: RequestPacket)

  datatype Requested = Requested(state: State, transfer: Option<Transfer>, packet: RequestPacket)

  datatype Callback = Callback(contract: Addr, jobId: string, published: int, randomness: Bytes)

  function OrElse<T>(o: Option<T>, d: T): T {
    if o.Some? then o.value else d
  }

  // ---- publish_time.rs ----

  /** The `after` of a request without explicit time, and the test-mode counter it leaves behind. */
  function CalculateAfter(s: State, time: Timestamp): Res<(Timestamp, Option<Timestamp>)> {
    if s.testMode then
      var after := OrElse(s.testModeNextAfter, TEST_MODE_NEXT_AFTER_INIT);
      var next :- PlusSeconds(after, TEST_MODE_NEXT_AFTER_INCREMENT_SECONDS);
      Ok((after, Some(next)))
    else
      var after :- PlusNanos(time, SAFETY_MARGIN);
      Ok((after, s.testModeNextAfter))
  }

  /** The counter after k requests in test mode. */
  ghost predicate TestModeAt(s: State, k: nat) {
    if k == 0 then s.testModeNextAfter == None
    else
      && s.testModeNextAfter.Some?
      && s.testModeNextAfter.value == TEST_MODE_NEXT_AFTER_INIT + k * TEST_MODE_NEXT_AFTER_INCREMENT_SECONDS * NANOS
  }

  /**
   * The k-th test-mode request (from 0) always commits to round 800 + 10k, and a request based on block time
   * is published more than five and at most eight seconds after it.
   */
  lemma CommittedRound(s: State, time: Timestamp, k: nat)
    requires TestModeAt(s, k)
    requires CalculateAfter(s, time).Ok?
    ensures
      var (after, next) := CalculateAfter(s, time).value;
      && (s.testMode ==> RoundAfter(after) == 800 + 10 * k && TestModeAt(s.(testModeNextAfter := next), k + 1))
      && (!s.testMode ==> next == s.testModeNextAfter && PublishTime(RoundAfter(after)) > time + 5_000_000_000)
      && (!s.testMode && DRAND_GENESIS <= time ==> PublishTime(RoundAfter(after)) <= time + 8_000_000_000)
  {
    var (after, next) := CalculateAfter(s, time).value;
    if s.testMode {
      assert after == TEST_MODE_NEXT_AFTER_INIT + k * 30 * NANOS;
      var round := 800 + 10 * k;
      assert PublishTime(round) == after + 1;
      RoundAfterIsLeast(after, round);
      RoundAfterIsLeast(after, round - 1);
    } else {
      PublishWindow(after);
    }
  }

  // ---- Requests ----

  /** Price lists become a map by denom, in which a later entry replaces an earlier one. */
  function PriceOf(prices: seq<Coin>, denom: string): Option<nat> {
    if prices == [] then None
    else if prices[|prices| - 1].denom == denom then Some(prices[|prices| - 1].amount)
    else PriceOf(prices[..|prices| - 1], denom)
  }

  predicate Pays(prices: seq<Coin>, fund: Coin) {
    var price := PriceOf(prices, fund.denom);
    price.Some? && fund.amount >= price.value
  }

  function ValidatePayment(prices: seq<Coin>, funds: seq<Coin>): Res<()> {
    if prices == [] then Err(NoPaymentOption)
    else if exists i :: 0 <= i < |funds| && Pays(prices, funds[i]) then Ok(())
    else Err(InsufficientPayment)
  }

  lemma {:induction false} PriceAt(prices: seq<Coin>, j: nat)
    requires j < |prices| && forall k :: j < k < |prices| ==> prices[k].denom != prices[j].denom
    ensures PriceOf(prices, prices[j].denom) == Some(prices[j].amount)
    decreases |prices|
  {
    if j < |prices| - 1 {
      PriceAt(prices[..|prices| - 1], j);
    }
  }

  lemma {:induction false} LastPrice(prices: seq<Coin>, denom: string) returns (j: nat)
    requires PriceOf(prices, denom).Some?
    ensures j < |prices| && prices[j].denom == denom && PriceOf(prices, denom) == Some(prices[j].amount)
    ensures forall k :: j < k < |prices| ==> prices[k].denom != denom
    decreases |prices|
  {
    if prices[|prices| - 1].denom == denom {
      j := |prices| - 1;
    } else {
      j := LastPrice(prices[..|prices| - 1], denom);
    }
  }

  /**
   * A payment is accepted exactly if one coin reaches the last listed price of its denom; without prices nobody can
   * pay. Several coins never add up.
   */
  lemma PaymentAcceptedIff(prices: seq<Coin>, funds: seq<Coin>)
    ensures
      ValidatePayment(prices, funds).Ok? <==>
        exists i, j ::
          && 0 <= i < |funds| && 0 <= j < |prices|
          && funds[i].denom == prices[j].denom && funds[i].amount >= prices[j].amount
          && forall k :: j < k < |prices| ==> prices[k].denom != prices[j].denom
    ensures !ValidatePayment(prices, funds).Ok? ==>
      ValidatePayment(prices, funds) == Err(if prices == [] then NoPaymentOption else InsufficientPayment)
  {
    if ValidatePayment(prices, funds).Ok? {
      var i :| 0 <= i < |funds| && Pays(prices, funds[i]);
      var j := LastPrice(prices, funds[i].denom);
      assert funds[i].denom == prices[j].denom && funds[i].amount >= prices[j].amount;
    }
    forall i, j | 0 <= i < |funds| && 0 <= j < |prices|
                  && funds[i].denom == prices[j].denom && funds[i].amount >= prices[j].amount
                  && (forall k :: j < k < |prices| ==> prices[k].denom != prices[j].denom)
      ensures ValidatePayment(prices, funds).Ok?
    {
      PriceAt(prices, j);
      assert Pays(prices, funds[i]);
    }
  }

  /** Paying more never hurts: a payment stays accepted when coins are added or amounts raised. */
  lemma MorePaysToo(prices: seq<Coin>, funds: seq<Coin>, more: seq<Coin>)
    requires ValidatePayment(prices, funds).Ok?
    requires forall i :: 0 <= i < |funds| ==>
      exists k :: 0 <= k < |more| && more[k].denom == funds[i].denom && more[k].amount >= funds[i].amount
    ensures ValidatePayment(prices, more).Ok?
  {
    var i :| 0 <= i < |funds| && Pays(prices, funds[i]);
    var k :| 0 <= k < |more| && more[k].denom == funds[i].denom && more[k].amount >= funds[i].amount;
    assert Pays(prices, more[k]);
  }

  /** In `IbcPay` mode the price goes to the payment contract, once both are known. */
  function PaymentTransfer(s: State, time: Timestamp): Res<Option<Transfer>> {
    if s.mode.Funded? || s.payment.None? || s.noisBeaconPrice == 0 then Ok(None)
    else
      var timeout :- PlusSeconds(time, TRANSFER_PACKET_LIFETIME);
      Ok(Some(Transfer(s.mode.ics20Channel, s.payment.value, Coin(s.noisBeaconPrice, s.mode.denom), timeout)))
  }

  function RequestImpl(codec: Codec, s: State, time: Timestamp, sender: Addr, funds: seq<Coin>, after: Timestamp,
                       jobId: string): Res<Emitted>
  {
    if Utf8Length(jobId) > MAX_JOB_ID_LEN then Err(JobIdTooLong)
    else
      var _ :- ValidatePayment(s.prices, funds);
      if OrElse(s.allowlistEnabled, false) && sender !in s.allowlist then Err(SenderNotAllowed)
      else if after < OrElse(s.minAfter, MIN_AFTER_FALLBACK) then Err(AfterTooLow)
      else if after > OrElse(s.maxAfter, MAX_AFTER_FALLBACK) then Err(AfterTooHigh)
      else if s.gatewayChannel.None? then Err(NotFound)
      else
        var transfer :- PaymentTransfer(s, time);
        var timeout :- PlusSeconds(time, REQUEST_BEACON_PACKET_LIFETIME);
        Ok(Emitted(transfer, RequestPacket(after, codec.encode(Origin(sender, jobId)), timeout)))
  }

  /** `GetRandomnessAfter` with an explicit time, `GetNextRandomness` without. */
  function GetRandomness(codec: Codec, s: State, time: Timestamp, sender: Addr, funds: seq<Coin>,
                         requestedAfter: Option<Timestamp>, jobId: string): Res<Requested>
  {
    match requestedAfter
    case Some(after) =>
      var emitted :- RequestImpl(codec, s, time, sender, funds, after, jobId);
      Ok(Requested(s, emitted.transfer, emitted.packet))
    case None =>
      var calculated :- CalculateAfter(s, time);
      var s' := s.(testModeNextAfter := calculated.1);
      var emitted :- RequestImpl(codec, s', time, sender, funds, calculated.0, jobId);
      Ok(Requested(s', emitted.transfer, emitted.packet))
  }

  datatype Call = Call(time: Timestamp, sender: Addr, funds: seq<Coin>, requestedAfter: Option<Timestamp>, jobId: string)

  /** The times of all accepted requests without explicit time, over a sequence of calls; failing calls revert. */
  function NextRequests(codec: Codec, s: State, calls: seq<Call>): seq<Timestamp>
    decreases |calls|
  {
    if calls == [] then []
    else
      var call := calls[0];
      var r := GetRandomness(codec, s, call.time, call.sender, call.funds, call.requestedAfter, call.jobId);
      if !r.Ok? then NextRequests(codec, s, calls[1..])
      else
        (if call.requestedAfter.None? then [r.value.packet.after] else [])
        + NextRequests(codec, r.value.state, calls[1..])
  }

  /**
   * In test mode the accepted requests without explicit time commit to the rounds 800, 810, 820, ..
   * whatever other requests come between them.
   */
  lemma {:induction false} TestModeRounds(codec: Codec, s: State, calls: seq<Call>, k: nat, i: nat)
    requires s.testMode && TestModeAt(s, k)
    requires i < |NextRequests(codec, s, calls)|
    ensures RoundAfter(NextRequests(codec, s, calls)[i]) == 800 + 10 * (k + i)
    decreases |calls|
  {
    var call := calls[0];
    var r := GetRandomness(codec, s, call.time, call.sender, call.funds, call.requestedAfter, call.jobId);
    if !r.Ok? {
      TestModeRounds(codec, s, calls[1..], k, i);
    } else if call.requestedAfter.Some? {
      TestModeRounds(codec, s, calls[1..], k, i);
    } else {
      CommittedRound(s, call.time, k);
      if i > 0 {
        TestModeRounds(codec, r.value.state, calls[1..], k + 1, i - 1);
      }
    }
  }

  /** `receive_deliver_beacon` */
  function ReceiveBeacon(codec: Codec, published: int, randomness: Bytes, origin: Bytes): Option<Callback> {
    match codec.decode(origin)
    case Some(o) => Some(Callback(o.sender, o.jobId, published, randomness))
    case None => None
  }

  /**
   * The time a request asks for: the explicit one, the next of the test-mode series, or five seconds from now. Only
   * test mode moves the series, by thirty seconds.
   */
  function AskedTime(s: State, time: Timestamp, requestedAfter: Option<Timestamp>): int {
    if requestedAfter.Some? then requestedAfter.value
    else if !s.testMode then time + 5_000_000_000
    else if s.testModeNextAfter.Some? then s.testModeNextAfter.value
    else 1_677_687_596_999_999_999
  }

  /** No timestamp of the request leaves u64. */
  predicate TimesFit(s: State, time: Timestamp, requestedAfter: Option<Timestamp>) {
    && time + 8_640_000_000_000_000 <= U64_MAX
    && (requestedAfter.None? && s.testMode ==> AskedTime(s, time, requestedAfter) + 30_000_000_000 <= U64_MAX)
  }

  /**
   * A request is emitted exactly if the job id has at most 64 bytes, one coin reaches the last listed price of its
   * denom, the sender is allowed and the asked time lies in the window. It asks for that time, pays the known beacon
   * price in `IbcPay` mode only, and a beacon delivered for it is passed to the requesting contract with its job id.
   */
  lemma EmittedIffPermitted(codec: Codec, s: State, time: Timestamp, sender: Addr, funds: seq<Coin>,
                            requestedAfter: Option<Timestamp>, jobId: string)
    requires Faithful(codec)
    ensures
      var r := GetRandomness(codec, s, time, sender, funds, requestedAfter, jobId);
      var after := AskedTime(s, time, requestedAfter);
      r.Ok? <==>
        && Utf8Length(jobId) <= 64
        && (exists i, j ::
              && 0 <= i < |funds| && 0 <= j < |s.prices|
              && funds[i].denom == s.prices[j].denom && funds[i].amount >= s.prices[j].amount
              && forall k :: j < k < |s.prices| ==> s.prices[k].denom != s.prices[j].denom)
        && (s.allowlistEnabled == Some(true) ==> sender in s.allowlist)
        && (if s.minAfter.Some? then s.minAfter.value else 1_680_015_600_000_000_000) <= after
        && after <= (if s.maxAfter.Some? then s.maxAfter.value else 1_995_375_600_000_000_000)
        && s.gatewayChannel.Some? && TimesFit(s, time, requestedAfter)
    ensures
      var r := GetRandomness(codec, s, time, sender, funds, requestedAfter, jobId);
      r.Ok? ==> Emits(codec, s, time, sender, requestedAfter, jobId, r.value)
  {
    hide PriceOf, Faithful;
    PaymentAcceptedIff(s.prices, funds);
    hide ValidatePayment;
    EmittedOrigin(codec, sender, jobId);
  }

  /** What an emitted request looks like. */
  ghost predicate Emits(codec: Codec, s: State, time: Timestamp, sender: Addr, requestedAfter: Option<Timestamp>,
                        jobId: string, r: Requested)
  {
    var after := AskedTime(s, time, requestedAfter);
    && r.packet.after == after && r.packet.timeout == time + 8_640_000_000_000_000
    && r.state == (if requestedAfter.None? && s.testMode
                   then s.(testModeNextAfter := r.state.testModeNextAfter) else s)
    && (requestedAfter.None? && s.testMode ==>
          r.state.testModeNextAfter.Some? && r.state.testModeNextAfter.value == after + 30_000_000_000)
    && (r.transfer.Some? <==> s.mode.IbcPay? && s.payment.Some? && s.noisBeaconPrice > 0)
    && (r.transfer.Some? ==>
          r.transfer.value == Transfer(s.mode.ics20Channel, s.payment.value, Coin(s.noisBeaconPrice, s.mode.denom),
                                       time + 86_400_000_000_000))
    && forall published: int, randomness: Bytes ::
         ReceiveBeacon(codec, published, randomness, r.packet.origin) == Some(Callback(sender, jobId, published, randomness))
  }

  lemma EmittedOrigin(codec: Codec, sender: Addr, jobId: string)
    requires Faithful(codec)
    ensures codec.decode(codec.encode(Origin(sender, jobId))) == Some(Origin(sender, jobId))
  {
  }

  /** The reason a request is refused is the first check it fails. */
  lemma RefusedBecause(codec: Codec, s: State, time: Timestamp, sender: Addr, funds: seq<Coin>,
                       requestedAfter: Option<Timestamp>, jobId: string)
    requires GetRandomness(codec, s, time, sender, funds, requestedAfter, jobId).Err?
    ensures
      var error := GetRandomness(codec, s, time, sender, funds, requestedAfter, jobId).error;
      var after := AskedTime(s, time, requestedAfter);
      var long := Utf8Length(jobId) > 64;
      var unpaid := !ValidatePayment(s.prices, funds).Ok?;
      var stranger := s.allowlistEnabled == Some(true) && sender !in s.allowlist;
      var early := after < (if s.minAfter.Some? then s.minAfter.value else 1_680_015_600_000_000_000);
      && (error == JobIdTooLong <==> long)
      && (error == NoPaymentOption <==> !long && s.prices == [])
      && (error == InsufficientPayment <==> !long && s.prices != [] && unpaid)
      && (error == SenderNotAllowed <==> !long && !unpaid && stranger)
      && (error == AfterTooLow <==> !long && !unpaid && !stranger && early)
      && (error == NotFound ==> !long && !unpaid && !stranger && !early && s.gatewayChannel.None?)
      && error in {JobIdTooLong, NoPaymentOption, InsufficientPayment, SenderNotAllowed, AfterTooLow, AfterTooHigh, NotFound}
  {
    PaymentAcceptedIff(s.prices, funds);
    hide PriceOf;
  }

  /**
   * If `max_after` is below genesis + (2^32-2)·3s, every request the proxy emits commits to a round that the
   * gateway can queue (u32) and whose publish time it can compute (u64).
   */
  lemma EmittedRequestIsServable(codec: Codec, s: State, time: Timestamp, sender: Addr, funds: seq<Coin>,
                                 requestedAfter: Option<Timestamp>, jobId: string)
    requires OrElse(s.maxAfter, MAX_AFTER_FALLBACK) < 14562587082 * NANOS
    requires GetRandomness(codec, s, time, sender, funds, requestedAfter, jobId).Ok?
    ensures
      var after := GetRandomness(codec, s, time, sender, funds, requestedAfter, jobId).value.packet.after;
      1 <= RoundAfter(after) <= U32_MAX && TimeOfRound(RoundAfter(after)).Ok?
  {
    var after := GetRandomness(codec, s, time, sender, funds, requestedAfter, jobId).value.packet.after;
    RoundFitsU32(after);
    TimeOfRoundIsPublishTime(RoundAfter(after));
  }

  /** The bound is tight: at `after` = that very time the committed round no longer is a u32. */
  lemma ServableBoundIsTight(after: Timestamp)
    requires after == 14562587082 * NANOS
    ensures RoundAfter(after) == U32_MAX + 1
  {
    RoundAfterTimeOfRound(U32_MAX);
  }
}

/** The price register of the proxy, fed by pushed and pulled price infos in any order. */
module PriceRegister {
  import opened Base

  datatype PriceInfo = PriceInfo(timestamp: Timestamp, amount: nat, denom: string)

  datatype Record = Record(amount: nat, updated: Timestamp)

  /** `update_nois_beacon_price` */
  function Update(r: Record, i: PriceInfo): Record {
    if i.denom != "unois" || r.updated > i.timestamp then r else Record(i.amount, i.timestamp)
  }

  function UpdateAll(r: Record, infos: seq<PriceInfo>): Record {
    if infos == [] then r else Update(UpdateAll(r, infos[..|infos| - 1]), infos[|infos| - 1])
  }

  /** An info that is not older than what the register held initially. */
  predicate Counts(r: Record, i: PriceInfo) {
    i.denom == "unois" && r.updated <= i.timestamp
  }

  /** `latest` is the newest counting info of the list. */
  ghost predicate IsLatest(r: Record, infos: seq<PriceInfo>, latest: PriceInfo) {
    latest in infos && Counts(r, latest)
    && forall i <- infos :: Counts(r, i) ==> i.timestamp <= latest.timestamp
  }

  /** Counting infos with the newest timestamp agree on the amount. */
  ghost predicate NewestAgree(r: Record, infos: seq<PriceInfo>) {
    forall a, b :: IsLatest(r, infos, a) && IsLatest(r, infos, b) ==> a.amount == b.amount
  }

  /** The register ends with some newest counting info, or unchanged if there is none. */
  lemma {:induction false} NewestWins(r: Record, infos: seq<PriceInfo>) returns (latest: Option<PriceInfo>)
    ensures latest.None? ==> UpdateAll(r, infos) == r && forall i <- infos :: !Counts(r, i)
    ensures latest.Some? ==>
      && IsLatest(r, infos, latest.value)
      && UpdateAll(r, infos) == Record(latest.value.amount, latest.value.timestamp)
    decreases |infos|
  {
    if infos == [] {
      latest := None;
    } else {
      var front, last := infos[..|infos| - 1], infos[|infos| - 1];
      assert infos == front + [last];
      latest := NewestWins(r, front);
      if Counts(r, last) && (latest.None? || latest.value.timestamp <= last.timestamp) {
        latest := Some(last);
      }
    }
  }

  lemma SameElements(a: seq<PriceInfo>, b: seq<PriceInfo>)
    requires multiset(a) == multiset(b)
    ensures forall i :: i in a <==> i in b
  {
    assert forall i :: i in a <==> i in multiset(a);
    assert forall i :: i in b <==> i in multiset(b);
  }

  lemma PermutedUpdates(r: Record, a: seq<PriceInfo>, b: seq<PriceInfo>)
    requires (forall i :: i in a <==> i in b) && NewestAgree(r, a)
    ensures UpdateAll(r, a) == UpdateAll(r, b)
  {
    var x := NewestWins(r, a);
    var y := NewestWins(r, b);
    if x.Some? && y.Some? {
      assert IsLatest(r, a, y.value);
    }
  }

  /** The same infos with the one at index k moved to the end. */
  function MovedToEnd(infos: seq<PriceInfo>, k: nat): seq<PriceInfo>
    requires k < |infos|
  {
    infos[..k] + infos[k + 1..] + [infos[k]]
  }

  lemma NewestLastWins(r: Record, infos: seq<PriceInfo>, k: nat)
    requires k < |infos| && IsLatest(r, infos, infos[k])
    ensures multiset(MovedToEnd(infos, k)) == multiset(infos)
    ensures UpdateAll(r, MovedToEnd(infos, k)) == Record(infos[k].amount, infos[k].timestamp)
  {
    var front := infos[..k] + infos[k + 1..];
    assert infos == infos[..k] + [infos[k]] + infos[k + 1..];
    assert MovedToEnd(infos, k)[..|front|] == front;
    assert forall i <- front :: i in infos;
    var x := NewestWins(r, front);
  }

  ghost predicate OrderIndependent(r: Record, infos: seq<PriceInfo>) {
    forall p: seq<PriceInfo> :: multiset(p) == multiset(infos) ==> UpdateAll(r, p) == UpdateAll(r, infos)
  }

  /**
   * The unordered channel delivers price infos in any order. The final price is the same for every order
   * exactly if the newest counting infos agree on the amount.
   */
  lemma OrderIndependentIffNewestAgree(r: Record, infos: seq<PriceInfo>)
    ensures OrderIndependent(r, infos) <==> NewestAgree(r, infos)
  {
    if NewestAgree(r, infos) {
      forall p: seq<PriceInfo> | multiset(p) == multiset(infos)
        ensures UpdateAll(r, p) == UpdateAll(r, infos)
      {
        SameElements(p, infos);
        PermutedUpdates(r, infos, p);
      }
    }
    if OrderIndependent(r, infos) {
      forall a, b | IsLatest(r, infos, a) && IsLatest(r, infos, b)
        ensures a.amount == b.amount
      {
        var i :| 0 <= i < |infos| && infos[i] == a;
        var j :| 0 <= j < |infos| && infos[j] == b;
        NewestLastWins(r, infos, i);
        NewestLastWins(r, infos, j);
        assert UpdateAll(r, MovedToEnd(infos, i)) == UpdateAll(r, MovedToEnd(infos, j));
      }
    }
  }

  /** Whatever was received before may arrive again without effect. */
  ghost predicate DuplicatesHarmless(r: Record, infos: seq<PriceInfo>) {
    forall again: seq<PriceInfo> ::
      (forall i :: i in again ==> i in infos) ==> UpdateAll(r, infos + again) == UpdateAll(r, infos)
  }

  lemma NewestAgain(r: Record, infos: seq<PriceInfo>, a: PriceInfo)
    requires IsLatest(r, infos, a)
    ensures UpdateAll(r, infos + [a]) == Record(a.amount, a.timestamp)
  {
    assert (infos + [a])[..|infos|] == infos;
    var latest := NewestWins(r, infos);
  }

  /** Duplicates change nothing exactly if the newest counting infos agree on the amount. */
  lemma DuplicatesHarmlessIffNewestAgree(r: Record, infos: seq<PriceInfo>)
    ensures DuplicatesHarmless(r, infos) <==> NewestAgree(r, infos)
  {
    if NewestAgree(r, infos) {
      forall again: seq<PriceInfo> | forall i :: i in again ==> i in infos
        ensures UpdateAll(r, infos + again) == UpdateAll(r, infos)
      {
        PermutedUpdates(r, infos, infos + again);
      }
    }
    if DuplicatesHarmless(r, infos) {
      forall a, b | IsLatest(r, infos, a) && IsLatest(r, infos, b)
        ensures a.amount == b.amount
      {
        NewestAgain(r, infos, a);
        NewestAgain(r, infos, b);
        assert UpdateAll(r, infos + [a]) == UpdateAll(r, infos + [b]);
      }
    }
  }

  /** Two infos of the same time with different amounts: the first one, arriving again, takes the price back. */
  lemma DuplicateTakesPriceBack()
    ensures
      var five, seven := PriceInfo(9, 5, "unois"), PriceInfo(9, 7, "unois");
      && UpdateAll(Record(0, 0), [five, seven]) == Record(7, 9)
      && UpdateAll(Record(0, 0), [five, seven] + [five]) == Record(5, 9)
  {
    var five, seven := PriceInfo(9, 5, "unois"), PriceInfo(9, 7, "unois");
    assert [five, seven][..1] == [five] && [five][..0] == [];
    assert ([five, seven] + [five])[..2] == [five, seven];
    assert UpdateAll(Record(0, 0), [five]) == Record(5, 9);
  }
}
