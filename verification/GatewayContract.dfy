/**
 * The gateway's storage and the code that updates it in place: id-keyed job maps, raw archive keys,
 * counters, logs and the capped drain loop. Every operation is proved against GatewayModel, in which
 * the job maps are FIFO queues and the loop is a closed form.
 *
 * A call that fails is reverted by the host, so contracts speak about the state after success only.
 */
module GatewayContract {
  import opened Base
  import opened Rounds
  import opened SourceIds
  import opened Paging
  import opened KeyOrder
  import opened ArchiveKey
  import opened JobStore
  import M = GatewayModel

  datatype RoutingReceipt = RoutingReceipt(queued: bool, sourceId: string, msgs: seq<M.Msg>)

  datatype NewDrandReceipt = NewDrandReceipt(msgs: seq<M.Delivery>, jobsProcessed: nat)

  lemma DrainedQueue(s: M.State, round: nat, n: nat)
    requires n <= |M.Queue(s, round)|
    ensures M.Queue(M.Drained(s, round, n), round) == M.Queue(s, round)[n..]
    ensures M.Processed(M.Drained(s, round, n), round) == M.Processed(s, round) + n
  {
  }

  /** Draining n jobs and then one more is draining n + 1. */
  lemma DrainOneMore(s: M.State, round: nat, n: nat)
    requires n < |M.Queue(s, round)|
    ensures n <= |M.Queue(s, round)| && 1 <= |M.Queue(M.Drained(s, round, n), round)|
    ensures M.Drained(M.Drained(s, round, n), round, 1) == M.Drained(s, round, n + 1)
  {
    var q := M.Queue(s, round);
    assert q[n..][1..] == q[n + 1..];
    DrainedQueue(s, round, n);
    if n > 0 {
      assert s.queues[round := q[n..]][round := q[n + 1..]] == s.queues[round := q[n + 1..]];
      var count := M.Processed(s, round);
      assert s.processed[round := count + n][round := count + n + 1] == s.processed[round := count + n + 1];
    }
  }

  lemma DeliverOneMore(s: M.State, env: Env, round: nat, randomness: Bytes, n: nat)
    requires n < |M.Queue(s, round)|
    ensures M.DrainedDeliveries(s, env, round, randomness, n)
            + [M.BeaconDelivery(M.Queue(s, round)[n..][0], round, randomness, env.time)]
            == M.DrainedDeliveries(s, env, round, randomness, n + 1)
  {
    hide M.BeaconDelivery, M.Queue;
  }

  lemma DrainStep(s: M.State, env: Env, round: nat, randomness: Bytes, n: nat)
    requires n <= |M.Queue(s, round)|
    ensures M.Queue(M.Drained(s, round, n), round) == M.Queue(s, round)[n..]
    ensures M.Processed(M.Drained(s, round, n), round) == M.Processed(s, round) + n
    ensures n < |M.Queue(s, round)| ==>
      && M.Drained(M.Drained(s, round, n), round, 1) == M.Drained(s, round, n + 1)
      && M.DrainedDeliveries(s, env, round, randomness, n)
         + [M.BeaconDelivery(M.Queue(s, round)[n..][0], round, randomness, env.time)]
         == M.DrainedDeliveries(s, env, round, randomness, n + 1)
  {
    DrainedQueue(s, round, n);
    if n < |M.Queue(s, round)| {
      DrainOneMore(s, round, n);
      DeliverOneMore(s, env, round, randomness, n);
      hide M.Drained, M.Queue, M.DrainedDeliveries, M.BeaconDelivery;
    }
  }

  /** Archiving a round first does not change what is drained. */
  lemma ArchivedFirst(s: M.State, env: Env, round: nat, randomness: Bytes, k: nat)
    requires k <= |M.Queue(s, round)|
    ensures
      var s' := s.(archive := s.archive[round := randomness]);
      && M.Drained(s', round, k) == M.Drained(s, round, k).(archive := s.archive[round := randomness])
      && M.DrainedDeliveries(s', env, round, randomness, k) == M.DrainedDeliveries(s, env, round, randomness, k)
  {
  }

  lemma LogPage(log: seq<M.LogEntry>, listing: seq<M.LogEntry>, offset: nat, limit: nat)
    requires listing == log || listing == Reverse(log)
    ensures
      var page := Page(listing, offset, limit);
      && |listing| == |log|
      && (listing == Reverse(log) ==> forall i :: 0 <= i < |log| ==> listing[i] == log[|log| - 1 - i])
      && |page| == (if offset >= |log| then 0 else Min(limit, |log| - offset))
      && (forall i :: 0 <= i < |page| ==> page[i] == listing[offset + i])
      && (limit > 0 && offset <= |log| ==> page + Walk(listing, offset + limit, limit) == listing[offset..])
  {
    hide Page, Reverse, Walk;
    PageEntries(listing, offset, limit);
    ReverseEntries(log);
    if limit > 0 && offset <= |log| {
      PagesTile(listing, offset, limit);
      WalkStep(listing, offset, limit);
    }
  }

  lemma WalkStep(listing: seq<M.LogEntry>, offset: nat, limit: nat)
    requires limit > 0 && offset <= |listing|
    ensures Walk(listing, offset, limit) == Page(listing, offset, limit) + Walk(listing, offset + limit, limit)
  {
  }

  class Gateway {
    var config: M.Config
    var jobs: map<Key, M.Job>
    var lastJobId: map<nat, nat>
    var rawArchive: map<Bytes, Bytes>
    var processed: map<nat, nat>
    var logs: map<string, seq<M.LogEntry>>
    var customers: map<string, M.Customer>

    /** The abstract contents of `jobs` and `rawArchive`. */
    ghost var queues: map<nat, seq<M.Job>>
    ghost var archive: map<nat, Bytes>

    ghost predicate ArchiveValid()
      reads this`rawArchive, this`archive
    {
      && (forall r <- archive :: r <= U64_MAX)
      && (forall r: U64 :: DrandKey(r) in rawArchive <==> r in archive)
      && (forall r: U64 :: r in archive ==> rawArchive[DrandKey(r)] == archive[r])
    }

    ghost predicate Valid()
      reads this
    {
      Represents(jobs, lastJobId, queues) && ArchiveValid()
    }

    ghost function View(): M.State
      reads this
    {
      M.State(config, queues, lastJobId, archive, processed, logs, customers)
    }

    constructor (config: M.Config)
      ensures Valid()
      ensures View() == M.InitState(config)
    {
      this.config := config;
      jobs, lastJobId, rawArchive, processed := map[], map[], map[], map[];
      logs, customers := map[], map[];
      queues, archive := map[], map[];
    }

    // ---- state/drand_jobs.rs ----

    /** A new id is LAST_JOB_ID + 1 in checked u16 arithmetic; the round must fit u32. */
    method Enqueue(round: U64, job: M.Job) returns (r: Res<()>)
      requires Valid()
      modifies this`jobs, this`lastJobId, this`queues
      ensures r.Ok? <==> round <= U32_MAX && old(M.LastJobId(View(), round)) < U16_MAX
      ensures r.Ok? ==> Valid()
      ensures r.Ok? ==> View() == old(View()).(
                queues := old(queues)[round := old(M.Queue(View(), round)) + [job]],
                lastJobId := old(lastJobId)[round := old(M.LastJobId(View(), round)) + 1])
      ensures !r.Ok? ==> r.Panic?
    {
      hide Represents, ArchiveValid;
      if round > U32_MAX {
        return Panic;
      }
      var last := if round in lastJobId then lastJobId[round] else 0;
      if last + 1 > U16_MAX {
        return Panic;
      }
      EnqueueRepresents(jobs, lastJobId, queues, round, job);
      jobs := jobs[(round, last + 1) := job];
      lastJobId := lastJobId[round := last + 1];
      queues := queues[round := M.QueueAt(queues, round) + [job]];
      return Ok(());
    }

    /** Removes the entry with the least id of the round, which is the oldest queued job. */
    method Dequeue(round: U64) returns (r: Res<Option<M.Job>>)
      requires Valid()
      modifies this`jobs, this`queues
      ensures r.Ok? <==> round <= U32_MAX
      ensures Valid()
      ensures r.Ok? ==>
        if old(M.Queue(View(), round)) == [] then r.value == None && View() == old(View())
        else
          && r.value == Some(old(M.Queue(View(), round))[0])
          && View() == old(View()).(queues := old(queues)[round := old(M.Queue(View(), round))[1..]])
      ensures !r.Ok? ==> r.Panic? && View() == old(View())
    {
      hide Represents, ArchiveValid;
      if round > U32_MAX {
        return Panic;
      }
      var ids := Ids(jobs, round);
      LeastIdIsOldest(jobs, lastJobId, queues, round);
      if ids == {} {
        return Ok(None);
      }
      ghost var oldest := Gone(lastJobId, queues, round) + 1;
      assert oldest in ids && forall j :: j in ids ==> oldest <= j;
      var id :| id in ids && forall j :: j in ids ==> id <= j;
      assert id == oldest;
      var job := jobs[(round, id)];
      DequeueRepresents(jobs, lastJobId, queues, round);
      jobs := jobs - {(round, id)};
      queues := queues[round := M.QueueAt(queues, round)[1..]];
      return Ok(Some(job));
    }

    method UnprocessedLen(round: U64) returns (r: Res<nat>)
      requires Valid()
      ensures r == if round > U32_MAX then Panic else Ok(|M.Queue(View(), round)|)
    {
      if round > U32_MAX {
        return Panic;
      }
      IdsSize(jobs, lastJobId, queues, round);
      return Ok(|Ids(jobs, round)|);
    }

    /** Pages over all jobs: ordered by round and then by enqueue order, or exactly reversed. */
    method AllUnprocessedJobs(order: Order, offset: nat, limit: nat) returns (page: seq<M.Job>)
      requires Valid()
      ensures page == Page(if order.Ascending? then AllQueued(queues) else Reverse(AllQueued(queues)), offset, limit)
    {
      var keys := Ordered(jobs.Keys);
      ListingIsAllQueues(jobs, lastJobId, queues);
      if order.Descending? {
        ghost var ascending := keys;
        keys := Reverse(keys);
        assert forall k <- keys :: k in ascending;
        assert Values(jobs, keys) == Reverse(Values(jobs, ascending));
      }
      page := Page(Values(jobs, keys), offset, limit);
    }

    // ---- state/stats.rs, drand_archive.rs, state/requests_log.rs ----

    method IncrementProcessed(round: nat) returns (r: Res<()>)
      modifies this`processed
      ensures r.Ok? <==> old(M.Processed(View(), round)) < U32_MAX
      ensures r.Ok? ==> processed == old(processed)[round := old(M.Processed(View(), round)) + 1]
      ensures !r.Ok? ==> r.Panic? && processed == old(processed)
    {
      var current := if round in processed then processed[round] else 0;
      if current + 1 > U32_MAX {
        return Panic;
      }
      processed := processed[round := current + 1];
      return Ok(());
    }

    method ArchiveLookup(round: U64) returns (r: Option<Bytes>)
      requires ArchiveValid()
      ensures r == if round in archive then Some(archive[round]) else None
    {
      var key := DrandKey(round);
      r := if key in rawArchive then Some(rawArchive[key]) else None;
    }

    method ArchiveStore(round: U64, randomness: Bytes)
      requires ArchiveValid()
      modifies this`rawArchive, this`archive
      ensures ArchiveValid()
      ensures archive == old(archive)[round := randomness]
    {
      forall r: U64 {
        DrandKeyInjective(r, round);
      }
      rawArchive := rawArchive[DrandKey(round) := randomness];
      archive := archive[round := randomness];
    }

    method RequestsLogAdd(channel: string, entry: M.LogEntry)
      modifies this`logs
      ensures logs == old(logs)[channel := old(M.Log(View(), channel)) + [entry]]
    {
      logs := logs[channel := (if channel in logs then logs[channel] else []) + [entry]];
    }

    /** Entry by entry, oldest or newest first; with the pages that follow, it is the rest of the log. */
    method RequestsLog(channel: string, order: Order, offset: nat, limit: nat) returns (page: seq<M.LogEntry>)
      ensures var n := |M.Log(View(), channel)|;
        && |page| == (if offset >= n then 0 else Min(limit, n - offset))
        && (forall i :: 0 <= i < |page| ==>
              page[i] == M.Log(View(), channel)[if order.Ascending? then offset + i else n - 1 - offset - i])
        && (limit > 0 && offset <= n ==>
              var listing := if order.Ascending? then M.Log(View(), channel) else Reverse(M.Log(View(), channel));
              page + Walk(listing, offset + limit, limit) == listing[offset..])
    {
      hide Page, Reverse, Walk;
      var log := if channel in logs then logs[channel] else [];
      var listing := if order.Ascending? then log else Reverse(log);
      page := Page(listing, offset, limit);
      LogPage(log, listing, offset, limit);
    }

    // ---- request_router.rs ----

    /** `create_deliver_beacon_ibc_message`, with the publish time computed by the caller. */
    method CreateDelivery(time: Timestamp, job: M.Job, published: Timestamp, randomness: Bytes)
      returns (r: Res<M.Delivery>)
      ensures r.Ok? <==> time + M.DELIVER_BEACON_PACKET_LIFETIME * NANOS <= U64_MAX
      ensures r.Ok? ==> r.value == M.Delivery(job.channel, job.sourceId, published, randomness, job.origin,
                                              time + 8_640_000_000_000_000)
      ensures !r.Ok? ==> r.Panic?
    {
      var timeout :- PlusSeconds(time, M.DELIVER_BEACON_PACKET_LIFETIME);
      return Ok(M.Delivery(job.channel, job.sourceId, published, randomness, job.origin, timeout));
    }

    method HandleDrandRequest(env: Env, channel: string, after: Timestamp, origin: Bytes)
      returns (r: Res<RoutingReceipt>)
      requires Valid()
      modifies this`jobs, this`lastJobId, this`queues, this`processed
      ensures var spec := old(M.Route(View(), env, channel, after, origin));
        && (r.Ok? <==> spec.Ok?)
        && (!r.Ok? ==> r.Panic?)
        && (r.Ok? ==>
              && Valid() && View() == spec.value.state && r.value.sourceId == SourceId(RoundAfter(after))
              && spec.value.ack == (if r.value.queued then M.RequestQueued(r.value.sourceId)
                                     else M.RequestProcessed(r.value.sourceId))
              && r.value.msgs == spec.value.msgs)
    {
      hide Represents, ArchiveValid;
      var round := RoundAfter(after);
      var sourceId := SourceId(round);
      var existing := ArchiveLookup(round);
      var job := M.Job(sourceId, channel, origin);
      var msgs: seq<M.Msg> := [];
      var queued;
      if existing.Some? {
        var _ :- IncrementProcessed(round);
        TimeOfRoundIsPublishTime(round);
        var published :- TimeOfRound(round);
        var delivery :- CreateDelivery(env.time, job, published, existing.value);
        msgs := msgs + [M.SendBeacon(delivery)];
        queued := false;
      } else {
        var _ :- Enqueue(round, job);
        if config.drand.Some? {
          msgs := msgs + [M.SetIncentivized(config.drand.value, round)];
        }
        queued := true;
      }
      return Ok(RoutingReceipt(queued, sourceId, msgs));
    }

    /** One turn of the drain loop: take the oldest job, count it as processed and build its delivery. */
    method ProcessNext(env: Env, round: U64, randomness: Bytes) returns (r: Res<Option<M.Delivery>>)
      requires Valid()
      modifies this`jobs, this`queues, this`processed
      ensures r.Ok? <==>
        && round <= U32_MAX
        && (old(M.Queue(View(), round)) != [] ==> M.CanSend(round, env.time) && old(M.Processed(View(), round)) < U32_MAX)
      ensures !r.Ok? ==> r.Panic?
      ensures r.Ok? && old(M.Queue(View(), round)) == [] ==> Valid() && r.value == None && View() == old(View())
      ensures r.Ok? && old(M.Queue(View(), round)) != [] ==>
        && Valid()
        && r.value == Some(M.BeaconDelivery(old(M.Queue(View(), round))[0], round, randomness, env.time))
        && View() == old(M.Drained(View(), round, 1))
    {
      hide Represents, ArchiveValid;
      TimeOfRoundIsPublishTime(round);
      var next :- Dequeue(round);
      if next.None? {
        return Ok(None);
      }
      var _ :- IncrementProcessed(round);
      var published :- TimeOfRound(round);
      var delivery :- CreateDelivery(env.time, next.value, published, randomness);
      return Ok(Some(delivery));
    }

    /**
     * The loop of `new_drand`: dequeue until the queue is empty or the cap is reached. It delivers exactly the first
     * min(length, cap) jobs, in order.
     */
    method DrainQueue(env: Env, round: U64, randomness: Bytes, cap: nat) returns (r: Res<NewDrandReceipt>)
      requires Valid() && cap > 0
      modifies this`jobs, this`queues, this`processed
      ensures var k := Min(old(|M.Queue(View(), round)|), cap);
        && (r.Ok? <==>
              && round <= U32_MAX
              && (k > 0 ==> M.CanSend(round, env.time) && old(M.Processed(View(), round)) + k <= U32_MAX))
        && (r.Ok? ==>
              && Valid() && View() == old(M.Drained(View(), round, k))
              && r.value == NewDrandReceipt(old(M.DrainedDeliveries(View(), env, round, randomness, k)), k))
      ensures !r.Ok? ==> r.Panic?
    {
      hide Represents, ArchiveValid, M.CanSend;
      ghost var s := View();
      var msgs: seq<M.Delivery> := [];
      var jobsProcessed := 0;
      while true
        invariant Valid()
        invariant jobsProcessed <= |M.Queue(s, round)| && jobsProcessed < cap
        invariant jobsProcessed > 0 ==>
          round <= U32_MAX && M.CanSend(round, env.time) && M.Processed(s, round) + jobsProcessed <= U32_MAX
        invariant View() == M.Drained(s, round, jobsProcessed)
        invariant msgs == M.DrainedDeliveries(s, env, round, randomness, jobsProcessed)
        decreases cap - jobsProcessed
      {
        DrainStep(s, env, round, randomness, jobsProcessed);
        hide M.Drained, M.DrainedDeliveries, M.BeaconDelivery;
        var next :- ProcessNext(env, round, randomness);
        if next.None? {
          break;
        }
        msgs := msgs + [next.value];
        jobsProcessed := jobsProcessed + 1;
        if jobsProcessed >= cap {
          break;
        }
      }
      return Ok(NewDrandReceipt(msgs, jobsProcessed));
    }

    /** `new_drand`: archive the round, then drain its queue under the cap of the transaction. */
    method NewDrand(env: Env, round: U64, randomness: Bytes, isVerifyingTx: bool)
      returns (r: Res<NewDrandReceipt>)
      requires Valid()
      modifies this`jobs, this`queues, this`processed, this`rawArchive, this`archive
      ensures r.Ok? <==> old(M.CanDrain(View(), env, round, isVerifyingTx))
      ensures !r.Ok? ==> r.Panic?
      ensures r.Ok? ==>
        var k := old(M.DrainCount(View(), round, isVerifyingTx));
        && Valid()
        && View() == old(M.Drained(View(), round, k)).(archive := old(archive)[round := randomness])
        && r.value == NewDrandReceipt(old(M.DrainedDeliveries(View(), env, round, randomness, k)), k)
    {
      hide Represents, ArchiveValid, M.CanSend, M.Drained, M.DrainedDeliveries;
      ghost var s := View();
      ArchiveStore(round, randomness);
      var cap := if isVerifyingTx then M.MAX_JOBS_WITH_VERIFICATION else M.MAX_JOBS_WITHOUT_VERIFICATION;
      ArchivedFirst(s, env, round, randomness, M.DrainCount(s, round, isVerifyingTx));
      r := DrainQueue(env, round, randomness, cap);
    }

    // ---- contract.rs ----

    /** `receive_request_beacon`. `Ok` is a committed transaction, with a success or an error acknowledgement. */
    method ReceiveRequest(env: Env, channel: string, relayer: Addr, after: Timestamp, origin: Bytes)
      returns (r: Res<(M.Ack, seq<M.Msg>)>)
      requires Valid()
      modifies this
      ensures var spec := old(M.ReceiveRequest(View(), env, channel, relayer, after, origin));
        && (r.Ok? <==> spec.Ok?)
        && (!r.Ok? ==> r.Panic?)
        && (r.Ok? ==> Valid() && View() == spec.value.state && r.value == (spec.value.ack, spec.value.msgs))
    {
      hide Represents, ArchiveValid, M.Route;
      if |origin| > M.MAX_ORIGIN_LEN {
        return Ok((M.ErrorAck, []));
      }
      var receipt :- HandleDrandRequest(env, channel, after, origin);
      var RoutingReceipt(queued, sourceId, msgs) := receipt;
      var ack := if queued then M.RequestQueued(sourceId) else M.RequestProcessed(sourceId);
      RequestsLogAdd(channel, M.LogEntry(origin, (env.height, env.txIndex), sourceId, queued));
      if channel !in customers {
        return Ok((M.ErrorAck, []));
      }
      var customer := customers[channel];
      if customer.requestedBeacons + 1 > U64_MAX {
        return Panic;
      }
      customer := customer.(requestedBeacons := customer.requestedBeacons + 1);
      customers := customers[channel := customer];
      var price := config.price;
      var amountBurn := price.amount * 40 / 100;
      var amountRelayer := price.amount * 20 / 100;
      var amountRest := price.amount - amountBurn - amountRelayer;
      msgs := msgs + [M.Pay(customer.payment, Coin(amountBurn, price.denom), relayer,
                            Coin(amountRelayer, price.denom), Coin(amountRest, price.denom))];
      return Ok((ack, msgs));
    }

    /** `ibc_packet_receive`, for packets of every kind. */
    method ReceivePacket(env: Env, channel: string, relayer: Addr, packet: M.InPacket)
      returns (r: Res<(M.PacketAck, seq<M.Msg>)>)
      requires Valid()
      modifies this
      ensures var spec := old(M.ReceivePacket(View(), env, channel, relayer, packet));
        && (r.Ok? <==> spec.Ok?)
        && (!r.Ok? ==> r.Panic?)
        && (r.Ok? ==> Valid() && View() == spec.value.state && r.value == (spec.value.ack, spec.value.msgs))
    {
      hide Represents, ArchiveValid, M.ReceiveRequest;
      match packet {
        case RequestBeacon(after, origin) =>
          var reply :- ReceiveRequest(env, channel, relayer, after, origin);
          return Ok((M.Answer(reply.0), reply.1));
        case PullBeaconPrice =>
          return Ok((M.BeaconPrice(env.time, config.price), []));
        case _ =>
          return Ok((M.Answer(M.ErrorAck), []));
      }
    }

    method AddVerifiedRound(env: Env, sender: Addr, round: U64, randomness: Bytes, isVerifyingTx: bool)
      returns (r: Res<seq<M.Delivery>>)
      requires Valid()
      modifies this
      ensures var spec := old(M.AddVerifiedRound(View(), env, sender, round, randomness, isVerifyingTx));
        && (r.Ok? <==> spec.Ok?)
        && (r.Ok? ==> Valid() && View() == spec.value.state && r.value == spec.value.deliveries)
        && (spec.Err? <==> r.Err?)
    {
      if sender !in config.trustedSources {
        return Err(Unauthorized);
      }
      var receipt :- NewDrand(env, round, randomness, isVerifyingTx);
      return Ok(receipt.msgs);
    }

    /** `ibc_channel_connect` creates the customer entry and its payment contract, and greets the proxy. */
    method ChannelConnect(time: Timestamp, channel: string, payment: Addr) returns (r: Res<seq<M.ConnectMsg>>)
      requires Valid()
      modifies this`customers
      ensures var spec := M.ChannelConnect(old(View()), time, channel, payment);
        && (r.Ok? <==> spec.Ok?) && (!r.Ok? ==> r.Panic?)
        && (r.Ok? ==> Valid() && View() == spec.value.state && r.value == spec.value.msgs)
    {
      customers := customers[channel := M.Customer(payment, 0)];
      var welcomeTimeout := PlusSeconds(time, M.WELCOME_PACKET_LIFETIME);
      var priceTimeout := PlusSeconds(time, M.BEACON_PRICE_PACKET_LIFETIME);
      if !welcomeTimeout.Ok? || !priceTimeout.Ok? {
        return Panic;
      }
      return Ok([M.InstantiatePayment(payment, config.paymentInitialFunds),
                 M.Welcome(channel, payment, welcomeTimeout.value),
                 M.PushBeaconPrice(channel, time, config.price, priceTimeout.value)]);
    }
  }
}
