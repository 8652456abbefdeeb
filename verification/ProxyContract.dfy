/** The proxy's storage and the code that updates it in place. */
module ProxyContract {
  import opened Base
  import opened Rounds
  import opened PriceRegister
  import M = ProxyModel

  /** Builds the denom-indexed price map; a later entry replaces an earlier one. */
  method IndexPrices(prices: seq<Coin>) returns (index: map<string, nat>)
    ensures forall d :: M.PriceOf(prices, d) == if d in index then Some(index[d]) else None
  {
    index := map[];
    for i := 0 to |prices|
      invariant forall d :: M.PriceOf(prices[..i], d) == if d in index then Some(index[d]) else None
    {
      assert prices[..i + 1][..i] == prices[..i];
      index := index[prices[i].denom := prices[i].amount];
    }
    assert prices[..|prices|] == prices;
  }

  /** Accepts exactly the payments in which a single coin covers the price of its denom. */
  method ValidatePayment(prices: seq<Coin>, funds: seq<Coin>) returns (r: Res<()>)
    ensures r == M.ValidatePayment(prices, funds)
    ensures r.Ok? <==> exists i, j ::
      && 0 <= i < |funds| && 0 <= j < |prices|
      && funds[i].denom == prices[j].denom && funds[i].amount >= prices[j].amount
      && forall k :: j < k < |prices| ==> prices[k].denom != prices[j].denom
  {
    M.PaymentAcceptedIff(prices, funds);
    if prices == [] {
      return Err(NoPaymentOption);
    }
    var index := IndexPrices(prices);
    for i := 0 to |funds|
      invariant forall j :: 0 <= j < i ==> !M.Pays(prices, funds[j])
    {
      if funds[i].denom in index && funds[i].amount >= index[funds[i].denom] {
        assert M.Pays(prices, funds[i]);
        return Ok(());
      }
    }
    return Err(InsufficientPayment);
  }

  class Proxy {
    var prices: seq<Coin>
    var manager: Option<Addr>
    var callbackGasLimit: U64
    var mode: M.Mode
    var payment: Option<Addr>
    var allowlistEnabled: Option<bool>
    var allowlist: set<Addr>
    var minAfter: Option<Timestamp>
    var maxAfter: Option<Timestamp>
    var testMode: bool
    var testModeNextAfter: Option<Timestamp>
    var gatewayChannel: Option<string>
    var noisBeaconPrice: nat
    var noisBeaconPriceUpdated: Timestamp

    ghost function View(): M.State
      reads this
    {
      M.State(prices, mode, payment, noisBeaconPrice, allowlistEnabled, allowlist, minAfter, maxAfter, testMode, testModeNextAfter, gatewayChannel)
    }

    ghost function Price(): Record
      reads this
    {
      Record(noisBeaconPrice, noisBeaconPriceUpdated)
    }

    constructor ()
      ensures View() == M.State([], M.Funded, None, 0, None, {}, None, None, false, None, None) && Price() == Record(0, 0)
    {
      prices, allowlist, testMode := [], {}, false;
      mode, payment, manager, callbackGasLimit := M.Funded, None, None, 0;
      allowlistEnabled, minAfter, maxAfter := None, None, None;
      testModeNextAfter, gatewayChannel := None, None;
      noisBeaconPrice, noisBeaconPriceUpdated := 0, 0;
    }

    /** The addresses of the initial allowlist are checked and stored one by one. */
    method SaveAllowlist(isValid: Addr -> bool, addresses: seq<Addr>) returns (r: Res<()>)
      modifies this`allowlist
      ensures r == if forall a <- addresses :: isValid(a) then Ok(()) else Err(InvalidAddress)
      ensures r.Ok? ==> allowlist == old(allowlist) + (set a | a in addresses)
    {
      for i := 0 to |addresses|
        invariant forall j :: 0 <= j < i ==> isValid(addresses[j])
        invariant allowlist == old(allowlist) + (set a | a in addresses[..i])
      {
        if !isValid(addresses[i]) {
          return Err(InvalidAddress);
        }
        allowlist := allowlist + {addresses[i]};
      }
      assert addresses[..|addresses|] == addresses;
      return Ok(());
    }

    method SaveConfig(manager: Option<Addr>, prices: seq<Coin>, testMode: bool, callbackGasLimit: U64, mode: M.Mode,
                      allowlistEnabled: bool, minAfter: Timestamp, maxAfter: Timestamp)
      modifies this`manager, this`prices, this`testMode, this`callbackGasLimit, this`mode, this`payment
      modifies this`allowlistEnabled, this`minAfter, this`maxAfter, this`noisBeaconPrice, this`noisBeaconPriceUpdated
      ensures this.manager == manager && this.callbackGasLimit == callbackGasLimit
      ensures this.prices == prices && this.mode == mode && this.testMode == testMode
      ensures this.allowlistEnabled == Some(allowlistEnabled)
      ensures this.minAfter == Some(minAfter) && this.maxAfter == Some(maxAfter)
      ensures payment == None && noisBeaconPrice == 0 && noisBeaconPriceUpdated == 0
    {
      this.manager := manager;
      this.prices := prices;
      this.mode := mode;
      this.callbackGasLimit := callbackGasLimit;
      this.testMode := testMode;
      this.allowlistEnabled := Some(allowlistEnabled);
      payment := None;
      noisBeaconPrice := 0;
      noisBeaconPriceUpdated := 0;
      this.minAfter := Some(minAfter);
      this.maxAfter := Some(maxAfter);
    }

    /**
     * `instantiate`: requests may reach ten years ahead, nothing is paid until a price is known, and every given
     * address must be valid.
     */
    method Instantiate(isValid: Addr -> bool, manager: Option<Addr>, prices: seq<Coin>, testMode: Option<bool>,
                       callbackGasLimit: U64, mode: M.Mode, allowlistEnabled: Option<bool>, allowlist: Option<seq<Addr>>,
                       time: Timestamp) returns (r: Res<()>)
      requires this.allowlist == {} && testModeNextAfter == None && gatewayChannel == None
      modifies this
      ensures r.Ok? <==>
        && (manager.Some? ==> isValid(manager.value))
        && time + 315_360_000_000_000_000 <= U64_MAX
        && forall a <- M.OrElse(allowlist, []) :: isValid(a)
      ensures r.Ok? ==>
        && View() == M.State(prices, mode, None, 0, Some(M.OrElse(allowlistEnabled, false)),
                             (set a | a in M.OrElse(allowlist, [])), Some(time), Some(time + 315_360_000_000_000_000),
                             M.OrElse(testMode, false), None, None)
        && M.TestModeAt(View(), 0) && Price() == Record(0, 0)
        && this.manager == manager && this.callbackGasLimit == callbackGasLimit
    {
      if manager.Some? && !isValid(manager.value) {
        return Err(InvalidAddress);
      }
      var max :- PlusSeconds(time, M.TEN_YEARS_S);
      SaveConfig(manager, prices, M.OrElse(testMode, false), callbackGasLimit, mode, M.OrElse(allowlistEnabled, false), time, max);
      r := SaveAllowlist(isValid, M.OrElse(allowlist, []));
    }

    method CalculateAfter(time: Timestamp) returns (r: Res<Timestamp>)
      modifies this`testModeNextAfter
      ensures var spec := old(M.CalculateAfter(View(), time));
        && (r.Ok? <==> spec.Ok?) && (!r.Ok? ==> r == spec.PropagateFailure<Timestamp>() && View() == old(View()))
        && (r.Ok? ==> r.value == spec.value.0 && View() == old(View()).(testModeNextAfter := spec.value.1))
      ensures forall k: nat :: r.Ok? && testMode && old(M.TestModeAt(View(), k)) ==>
                RoundAfter(r.value) == 800 + 10 * k && M.TestModeAt(View(), k + 1)
      ensures r.Ok? && !testMode ==> PublishTime(RoundAfter(r.value)) > time + M.SAFETY_MARGIN
    {
      forall k: nat | M.TestModeAt(View(), k) && M.CalculateAfter(View(), time).Ok? {
        M.CommittedRound(View(), time, k);
      }
      if testMode {
        var after := if testModeNextAfter.Some? then testModeNextAfter.value else M.TEST_MODE_NEXT_AFTER_INIT;
        var next :- PlusSeconds(after, M.TEST_MODE_NEXT_AFTER_INCREMENT_SECONDS);
        testModeNextAfter := Some(next);
        return Ok(after);
      } else {
        r := PlusNanos(time, M.SAFETY_MARGIN);
        if r.Ok? {
          PublishWindow(r.value);
        }
      }
    }

    method GetRandomnessImpl(codec: M.Codec, time: Timestamp, sender: Addr, funds: seq<Coin>, after: Timestamp,
                             jobId: string) returns (r: Res<M.Emitted>)
      ensures r == M.RequestImpl(codec, View(), time, sender, funds, after, jobId)
    {
      if Utf8Length(jobId) > M.MAX_JOB_ID_LEN {
        return Err(JobIdTooLong);
      }
      var _ :- ValidatePayment(prices, funds);
      if M.OrElse(allowlistEnabled, false) && sender !in allowlist {
        return Err(SenderNotAllowed);
      }
      if after < M.OrElse(minAfter, M.MIN_AFTER_FALLBACK) {
        return Err(AfterTooLow);
      }
      if after > M.OrElse(maxAfter, M.MAX_AFTER_FALLBACK) {
        return Err(AfterTooHigh);
      }
      var origin := codec.encode(M.Origin(sender, jobId));
      if gatewayChannel.None? {
        return Err(NotFound);
      }
      var transfer := None;
      if mode.IbcPay? && payment.Some? && noisBeaconPrice != 0 {
        var timeout :- PlusSeconds(time, M.TRANSFER_PACKET_LIFETIME);
        transfer := Some(M.Transfer(mode.ics20Channel, payment.value, Coin(noisBeaconPrice, mode.denom), timeout));
      }
      var timeout :- PlusSeconds(time, M.REQUEST_BEACON_PACKET_LIFETIME);
      return Ok(M.Emitted(transfer, M.RequestPacket(after, origin, timeout)));
    }

    /** `execute_get_next_randomness` and `execute_get_randomness_after` */
    method GetRandomness(codec: M.Codec, time: Timestamp, sender: Addr, funds: seq<Coin>,
                         requestedAfter: Option<Timestamp>, jobId: string) returns (r: Res<M.Emitted>)
      modifies this`testModeNextAfter
      ensures var spec := old(M.GetRandomness(codec, View(), time, sender, funds, requestedAfter, jobId));
        && (r.Ok? <==> spec.Ok?)
        && (r.Ok? ==> View() == spec.value.state && r.value == M.Emitted(spec.value.transfer, spec.value.packet))
    {
      var after;
      if requestedAfter.Some? {
        after := requestedAfter.value;
      } else {
        after :- CalculateAfter(time);
      }
      r := GetRandomnessImpl(codec, time, sender, funds, after, jobId);
    }

    /** `receive_welcome`: from now on requests can be paid. */
    method ReceiveWelcome(address: Addr)
      modifies this`payment
      ensures View() == old(View()).(payment := Some(address))
    {
      payment := Some(address);
    }

    /** Price infos in other denoms and infos older than the stored one are ignored. */
    method UpdateNoisBeaconPrice(timestamp: Timestamp, newPrice: nat, denom: string)
      modifies this`noisBeaconPrice, this`noisBeaconPriceUpdated
      ensures View() == old(View()).(noisBeaconPrice := Price().amount)
      ensures Price() == Update(old(Price()), PriceInfo(timestamp, newPrice, denom))
    {
      if denom != "unois" {
        return;
      }
      if noisBeaconPriceUpdated > timestamp {
        return;
      }
      noisBeaconPrice := newPrice;
      noisBeaconPriceUpdated := timestamp;
    }
  }
}
