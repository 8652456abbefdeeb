/** What every run of the gateway keeps, for any callers, prices and trusted sources. */
module GatewayRuns {
  import opened Base
  import opened Sums
  import opened Rounds
  import opened SourceIds
  import opened GatewayModel

  // ---- Invariants, each over the maps it is about ----

  /**
   * At most `LAST_JOB_ID` jobs are queued, all of them as long as the round is not archived, and rounds
   * beyond u32 are never used.
   */
  ghost predicate QueueInv(queues: map<nat, seq<Job>>, lastJobId: map<nat, nat>, archive: map<nat, Bytes>) {
    forall r: nat ::
      && |QueueAt(queues, r)| <= CountAt(lastJobId, r) <= U16_MAX
      && (r !in archive ==> |QueueAt(queues, r)| == CountAt(lastJobId, r))
      && (r > U32_MAX ==> CountAt(lastJobId, r) == 0 && r !in archive)
  }

  ghost predicate JobsOf(q: seq<Job>, round: nat, channels: set<string>) {
    forall i :: 0 <= i < |q| ==> q[i].sourceId == SourceId(round) && q[i].channel in channels
  }

  /** A queued job belongs to its queue's round and to a connected channel. */
  ghost predicate JobsInv(queues: map<nat, seq<Job>>, channels: set<string>) {
    forall r: nat :: JobsOf(QueueAt(queues, r), r, channels)
  }

  function Entries(log: seq<LogEntry>, round: nat): nat {
    if log == [] then 0
    else Entries(log[..|log| - 1], round) + (if log[|log| - 1].sourceId == SourceId(round) then 1 else 0)
  }

  function QueuedEntries(log: seq<LogEntry>, round: nat): nat {
    if log == [] then 0
    else QueuedEntries(log[..|log| - 1], round)
         + (if log[|log| - 1].sourceId == SourceId(round) && log[|log| - 1].queued then 1 else 0)
  }

  ghost function EntryCounts(logs: map<string, seq<LogEntry>>, round: nat): map<string, nat> {
    map c | c in logs :: Entries(logs[c], round)
  }

  ghost function QueuedEntryCounts(logs: map<string, seq<LogEntry>>, round: nat): map<string, nat> {
    map c | c in logs :: QueuedEntries(logs[c], round)
  }

  /** Log entries for one round, over all channels. */
  ghost function AllEntries(logs: map<string, seq<LogEntry>>, round: nat): nat {
    Sum<string>(EntryCounts(logs, round))
  }

  ghost function AllQueuedEntries(logs: map<string, seq<LogEntry>>, round: nat): nat {
    Sum<string>(QueuedEntryCounts(logs, round))
  }

  /** The log and the scheduler's two counters tell the same story, round by round. */
  ghost predicate CountInv(queues: map<nat, seq<Job>>, lastJobId: map<nat, nat>, processed: map<nat, nat>,
                           logs: map<string, seq<LogEntry>>)
  {
    forall r: nat ::
      && |QueueAt(queues, r)| + CountAt(processed, r) == AllEntries(logs, r)
      && CountAt(lastJobId, r) == AllQueuedEntries(logs, r)
  }

  ghost predicate CustomerInv(customers: map<string, Customer>, logs: map<string, seq<LogEntry>>) {
    && logs.Keys <= customers.Keys
    && forall c <- customers :: customers[c].requestedBeacons == |LogAt(logs, c)|
  }

  ghost function Requested(customers: map<string, Customer>): map<string, nat> {
    map c | c in customers :: customers[c].requestedBeacons
  }

  ghost function TotalRequested(customers: map<string, Customer>): nat {
    Sum<string>(Requested(customers))
  }

  ghost function Lengths(queues: map<nat, seq<Job>>): map<nat, nat> {
    map r | r in queues :: |queues[r]|
  }

  ghost function TotalQueued(queues: map<nat, seq<Job>>): nat {
    Sum<nat>(Lengths(queues))
  }

  ghost predicate TotalInv(s: State) {
    TotalRequested(s.customers) == TotalQueued(s.queues) + Sum<nat>(s.processed)
  }

  ghost predicate Inv(s: State) {
    && QueueInv(s.queues, s.lastJobId, s.archive)
    && JobsInv(s.queues, s.customers.Keys)
    && CountInv(s.queues, s.lastJobId, s.processed, s.logs)
    && CustomerInv(s.customers, s.logs)
    && TotalInv(s)
  }

  // ---- Sums under updates ----

  lemma TotalQueuedUpdate(queues: map<nat, seq<Job>>, r: nat, q: seq<Job>)
    ensures TotalQueued(queues[r := q]) == TotalQueued(queues) - |QueueAt(queues, r)| + |q|
  {
    assert Lengths(queues[r := q]) == Lengths(queues)[r := |q|];
    SumUpdate<nat>(Lengths(queues), r, |q|);
  }

  lemma TotalRequestedUpdate(customers: map<string, Customer>, c: string, customer: Customer)
    ensures TotalRequested(customers[c := customer])
            == TotalRequested(customers) - (if c in customers then customers[c].requestedBeacons else 0)
               + customer.requestedBeacons
  {
    assert Requested(customers[c := customer]) == Requested(customers)[c := customer.requestedBeacons];
    SumUpdate<string>(Requested(customers), c, customer.requestedBeacons);
  }

  lemma AppendedEntry(log: seq<LogEntry>, e: LogEntry, round: nat)
    ensures Entries(log + [e], round) == Entries(log, round) + (if e.sourceId == SourceId(round) then 1 else 0)
    ensures QueuedEntries(log + [e], round)
            == QueuedEntries(log, round) + (if e.sourceId == SourceId(round) && e.queued then 1 else 0)
  {
    assert (log + [e])[..|log|] == log;
  }

  lemma AllEntriesUpdate(logs: map<string, seq<LogEntry>>, c: string, log: seq<LogEntry>, round: nat)
    ensures AllEntries(logs[c := log], round)
            == AllEntries(logs, round) - Entries(LogAt(logs, c), round) + Entries(log, round)
  {
    assert EntryCounts(logs[c := log], round) == EntryCounts(logs, round)[c := Entries(log, round)];
    SumUpdate<string>(EntryCounts(logs, round), c, Entries(log, round));
  }

  lemma AllQueuedEntriesUpdate(logs: map<string, seq<LogEntry>>, c: string, log: seq<LogEntry>, round: nat)
    ensures AllQueuedEntries(logs[c := log], round)
            == AllQueuedEntries(logs, round) - QueuedEntries(LogAt(logs, c), round) + QueuedEntries(log, round)
  {
    assert QueuedEntryCounts(logs[c := log], round) == QueuedEntryCounts(logs, round)[c := QueuedEntries(log, round)];
    SumUpdate<string>(QueuedEntryCounts(logs, round), c, QueuedEntries(log, round));
  }

  lemma LoggedCounts(logs: map<string, seq<LogEntry>>, c: string, e: LogEntry, eRound: nat, round: nat)
    requires e.sourceId == SourceId(eRound)
    ensures
      var logs' := logs[c := LogAt(logs, c) + [e]];
      && AllEntries(logs', round) == AllEntries(logs, round) + (if eRound == round then 1 else 0)
      && AllQueuedEntries(logs', round) == AllQueuedEntries(logs, round) + (if eRound == round && e.queued then 1 else 0)
  {
    var log := LogAt(logs, c);
    AppendedEntry(log, e, round);
    if SourceId(eRound) == SourceId(round) {
      SourceIdInjective(eRound, round);
    }
    AllEntriesUpdate(logs, c, log + [e], round);
    AllQueuedEntriesUpdate(logs, c, log + [e], round);
  }

  // ---- Preservation ----

  lemma NoLogs(logs: map<string, seq<LogEntry>>, round: nat)
    requires logs == map[]
    ensures AllEntries(logs, round) == AllQueuedEntries(logs, round) == 0
  {
    assert EntryCounts(logs, round) == map[];
    assert QueuedEntryCounts(logs, round) == map[];
  }

  lemma InitInv(config: Config)
    ensures Inv(InitState(config))
  {
    var s := InitState(config);
    forall r: nat {
      NoLogs(s.logs, r);
    }
    assert Requested(s.customers) == map[];
    assert Lengths(s.queues) == map[];
  }

  lemma ConnectInv(s: State, channel: string, payment: Addr)
    requires Inv(s) && channel !in s.customers
    ensures Inv(Connect(s, channel, payment))
  {
    TotalRequestedUpdate(s.customers, channel, Customer(payment, 0));
  }

  /** An accepted request for `round`, written out as updates of the stored maps. */
  ghost predicate Accepted(s: State, s': State, channel: string, round: nat, e: LogEntry, job: Job) {
    && channel in s.customers
    && job.sourceId == SourceId(round) && job.channel == channel
    && e.sourceId == SourceId(round) && e.queued == (round !in s.archive)
    && s'.config == s.config && s'.archive == s.archive
    && s'.logs == s.logs[channel := LogAt(s.logs, channel) + [e]]
    && s'.customers == s.customers[channel :=
         Customer(s.customers[channel].payment, s.customers[channel].requestedBeacons + 1)]
    && (if e.queued then
          && round <= U32_MAX && CountAt(s.lastJobId, round) < U16_MAX
          && s'.queues == s.queues[round := QueueAt(s.queues, round) + [job]]
          && s'.lastJobId == s.lastJobId[round := CountAt(s.lastJobId, round) + 1]
          && s'.processed == s.processed
        else
          && s'.queues == s.queues && s'.lastJobId == s.lastJobId
          && s'.processed == s.processed[round := CountAt(s.processed, round) + 1])
  }

  function EntryFor(s: State, env: Env, after: Timestamp, origin: Bytes): LogEntry {
    LogEntry(origin, (env.height, env.txIndex), SourceId(RoundAfter(after)), RoundAfter(after) !in s.archive)
  }

  lemma ReceiveAccepts(s: State, env: Env, channel: string, relayer: Addr, after: Timestamp, origin: Bytes)
    requires ReceiveRequest(s, env, channel, relayer, after, origin).Ok?
    requires !ReceiveRequest(s, env, channel, relayer, after, origin).value.ack.ErrorAck?
    ensures Accepted(s, ReceiveRequest(s, env, channel, relayer, after, origin).value.state, channel,
                     RoundAfter(after), EntryFor(s, env, after, origin), RequestJob(channel, after, origin))
  {
  }

  lemma QueuedRequestCounts(queues: map<nat, seq<Job>>, lastJobId: map<nat, nat>, processed: map<nat, nat>,
                            logs: map<string, seq<LogEntry>>, c: string, e: LogEntry, round: nat, job: Job)
    requires CountInv(queues, lastJobId, processed, logs) && e.sourceId == SourceId(round) && e.queued
    ensures CountInv(queues[round := QueueAt(queues, round) + [job]], lastJobId[round := CountAt(lastJobId, round) + 1],
                     processed, logs[c := LogAt(logs, c) + [e]])
  {
    hide AllEntries, AllQueuedEntries, SourceId;
    var queues' := queues[round := QueueAt(queues, round) + [job]];
    var logs' := logs[c := LogAt(logs, c) + [e]];
    forall r: nat
      ensures |QueueAt(queues', r)| + CountAt(processed, r) == AllEntries(logs', r)
      ensures CountAt(lastJobId[round := CountAt(lastJobId, round) + 1], r) == AllQueuedEntries(logs', r)
    {
      LoggedCounts(logs, c, e, round, r);
      assert |QueueAt(queues, r)| + CountAt(processed, r) == AllEntries(logs, r);
    }
  }

  lemma AnsweredRequestCounts(queues: map<nat, seq<Job>>, lastJobId: map<nat, nat>, processed: map<nat, nat>,
                              logs: map<string, seq<LogEntry>>, c: string, e: LogEntry, round: nat)
    requires CountInv(queues, lastJobId, processed, logs) && e.sourceId == SourceId(round) && !e.queued
    ensures CountInv(queues, lastJobId, processed[round := CountAt(processed, round) + 1],
                     logs[c := LogAt(logs, c) + [e]])
  {
    hide AllEntries, AllQueuedEntries, SourceId;
    var logs' := logs[c := LogAt(logs, c) + [e]];
    forall r: nat
      ensures |QueueAt(queues, r)| + CountAt(processed[round := CountAt(processed, round) + 1], r) == AllEntries(logs', r)
      ensures CountAt(lastJobId, r) == AllQueuedEntries(logs', r)
    {
      LoggedCounts(logs, c, e, round, r);
      assert |QueueAt(queues, r)| + CountAt(processed, r) == AllEntries(logs, r);
    }
  }

  lemma AcceptedTotals(s: State, s': State, channel: string, round: nat, e: LogEntry, job: Job)
    requires Accepted(s, s', channel, round, e, job)
    ensures TotalRequested(s'.customers) == TotalRequested(s.customers) + 1
    ensures TotalQueued(s'.queues) == TotalQueued(s.queues) + (if e.queued then 1 else 0)
    ensures Sum<nat>(s'.processed) == Sum<nat>(s.processed) + (if e.queued then 0 else 1)
  {
    TotalRequestedUpdate(s.customers, channel,
      Customer(s.customers[channel].payment, s.customers[channel].requestedBeacons + 1));
    if e.queued {
      TotalQueuedUpdate(s.queues, round, QueueAt(s.queues, round) + [job]);
    } else {
      SumUpdate<nat>(s.processed, round, CountAt(s.processed, round) + 1);
    }
  }

  lemma EnqueuedJobs(queues: map<nat, seq<Job>>, channels: set<string>, round: nat, job: Job)
    requires JobsInv(queues, channels) && job.sourceId == SourceId(round) && job.channel in channels
    ensures JobsInv(queues[round := QueueAt(queues, round) + [job]], channels)
  {
    assert JobsOf(QueueAt(queues, round), round, channels);
    var queues' := queues[round := QueueAt(queues, round) + [job]];
    forall r: nat
      ensures JobsOf(QueueAt(queues', r), r, channels)
    {
      assert JobsOf(QueueAt(queues, r), r, channels);
    }
  }

  lemma EnqueuedQueues(queues: map<nat, seq<Job>>, lastJobId: map<nat, nat>, archive: map<nat, Bytes>, round: nat, job: Job)
    requires QueueInv(queues, lastJobId, archive)
    requires round !in archive && round <= U32_MAX && CountAt(lastJobId, round) < U16_MAX
    ensures QueueInv(queues[round := QueueAt(queues, round) + [job]], lastJobId[round := CountAt(lastJobId, round) + 1],
                     archive)
  {
  }

  lemma LoggedCustomers(customers: map<string, Customer>, logs: map<string, seq<LogEntry>>, c: string, e: LogEntry)
    requires CustomerInv(customers, logs) && c in customers
    ensures
      var customer := Customer(customers[c].payment, customers[c].requestedBeacons + 1);
      CustomerInv(customers[c := customer], logs[c := LogAt(logs, c) + [e]])
  {
  }

  lemma AcceptedQueueInv(s: State, s': State, channel: string, round: nat, e: LogEntry, job: Job)
    requires Accepted(s, s', channel, round, e, job)
    requires QueueInv(s.queues, s.lastJobId, s.archive) && JobsInv(s.queues, s.customers.Keys)
    ensures QueueInv(s'.queues, s'.lastJobId, s'.archive) && JobsInv(s'.queues, s'.customers.Keys)
  {
    assert s'.customers.Keys == s.customers.Keys;
    if e.queued {
      EnqueuedJobs(s.queues, s.customers.Keys, round, job);
      EnqueuedQueues(s.queues, s.lastJobId, s.archive, round, job);
    }
  }

  lemma AcceptedCountInv(s: State, s': State, channel: string, round: nat, e: LogEntry, job: Job)
    requires Accepted(s, s', channel, round, e, job)
    requires CountInv(s.queues, s.lastJobId, s.processed, s.logs)
    ensures CountInv(s'.queues, s'.lastJobId, s'.processed, s'.logs)
  {
    if e.queued {
      QueuedRequestCounts(s.queues, s.lastJobId, s.processed, s.logs, channel, e, round, job);
    } else {
      AnsweredRequestCounts(s.queues, s.lastJobId, s.processed, s.logs, channel, e, round);
    }
  }

  lemma AcceptedInv(s: State, s': State, channel: string, round: nat, e: LogEntry, job: Job)
    requires Accepted(s, s', channel, round, e, job) && Inv(s)
    ensures Inv(s')
  {
    hide QueueInv, JobsInv, CountInv;
    AcceptedQueueInv(s, s', channel, round, e, job);
    AcceptedCountInv(s, s', channel, round, e, job);
    LoggedCustomers(s.customers, s.logs, channel, e);
    AcceptedTotals(s, s', channel, round, e, job);
  }

  lemma ReceiveInv(s: State, env: Env, channel: string, relayer: Addr, after: Timestamp, origin: Bytes)
    requires Inv(s) && channel in s.customers
    requires ReceiveRequest(s, env, channel, relayer, after, origin).Ok?
    ensures Inv(ReceiveRequest(s, env, channel, relayer, after, origin).value.state)
  {
    var reply := ReceiveRequest(s, env, channel, relayer, after, origin).value;
    if reply.ack.ErrorAck? {
      RequestErrorAck(s, env, channel, relayer, after, origin);
    } else {
      ReceiveAccepts(s, env, channel, relayer, after, origin);
      AcceptedInv(s, reply.state, channel, RoundAfter(after), EntryFor(s, env, after, origin),
        RequestJob(channel, after, origin));
    }
  }

  /** Draining moves jobs from "queued" to "processed" one for one. */
  lemma DrainTotals(s: State, round: nat, k: nat)
    requires k <= |Queue(s, round)|
    ensures TotalQueued(Drained(s, round, k).queues) + k == TotalQueued(s.queues)
    ensures Sum<nat>(Drained(s, round, k).processed) == Sum<nat>(s.processed) + k
  {
    if k > 0 {
      TotalQueuedUpdate(s.queues, round, Queue(s, round)[k..]);
      SumUpdate<nat>(s.processed, round, Processed(s, round) + k);
    }
  }

  lemma DrainedJobs(queues: map<nat, seq<Job>>, channels: set<string>, round: nat, k: nat)
    requires JobsInv(queues, channels) && k <= |QueueAt(queues, round)|
    ensures JobsInv(queues[round := QueueAt(queues, round)[k..]], channels)
  {
    assert JobsOf(QueueAt(queues, round), round, channels);
    var queues' := queues[round := QueueAt(queues, round)[k..]];
    forall r: nat
      ensures JobsOf(QueueAt(queues', r), r, channels)
    {
      assert JobsOf(QueueAt(queues, r), r, channels);
    }
  }

  lemma DrainedCounts(queues: map<nat, seq<Job>>, lastJobId: map<nat, nat>, processed: map<nat, nat>,
                      logs: map<string, seq<LogEntry>>, round: nat, k: nat)
    requires CountInv(queues, lastJobId, processed, logs) && k <= |QueueAt(queues, round)|
    ensures CountInv(queues[round := QueueAt(queues, round)[k..]], lastJobId,
                     processed[round := CountAt(processed, round) + k], logs)
  {
  }

  lemma DrainedQueues(queues: map<nat, seq<Job>>, lastJobId: map<nat, nat>, archive: map<nat, Bytes>, round: nat, k: nat)
    requires QueueInv(queues, lastJobId, archive) && k <= |QueueAt(queues, round)| && round in archive
    ensures QueueInv(queues[round := QueueAt(queues, round)[k..]], lastJobId, archive)
  {
  }

  lemma ArchivedQueues(queues: map<nat, seq<Job>>, lastJobId: map<nat, nat>, archive: map<nat, Bytes>, round: nat,
                       randomness: Bytes)
    requires QueueInv(queues, lastJobId, archive) && round <= U32_MAX
    ensures QueueInv(queues, lastJobId, archive[round := randomness])
  {
  }

  lemma ArchivedInv(s: State, round: nat, randomness: Bytes)
    requires Inv(s) && round <= U32_MAX
    ensures Inv(s.(archive := s.archive[round := randomness]))
  {
    ArchivedQueues(s.queues, s.lastJobId, s.archive, round, randomness);
  }

  lemma DrainedInv(s: State, round: nat, k: nat)
    requires Inv(s) && round in s.archive && 0 < k <= |Queue(s, round)|
    ensures Inv(Drained(s, round, k))
  {
    hide QueueInv, JobsInv, CountInv, CustomerInv;
    DrainTotals(s, round, k);
    DrainedJobs(s.queues, s.customers.Keys, round, k);
    DrainedCounts(s.queues, s.lastJobId, s.processed, s.logs, round, k);
    DrainedQueues(s.queues, s.lastJobId, s.archive, round, k);
  }

  lemma AddVerifiedRoundInv(s: State, env: Env, sender: Addr, round: nat, randomness: Bytes, isVerifyingTx: bool)
    requires Inv(s) && AddVerifiedRound(s, env, sender, round, randomness, isVerifyingTx).Ok?
    ensures Inv(AddVerifiedRound(s, env, sender, round, randomness, isVerifyingTx).value.state)
  {
    hide QueueInv, JobsInv, CountInv;
    var k := DrainCount(s, round, isVerifyingTx);
    var s1 := s.(archive := s.archive[round := randomness]);
    ArchivedInv(s, round, randomness);
    if k > 0 {
      DrainedInv(s1, round, k);
    }
  }

  // ---- Runs ----

  datatype Event =
    | Connected(channel: string, payment: Addr)
    | Received(env: Env, channel: string, relayer: Addr, after: Timestamp, origin: Bytes)
    | VerifiedRound(env: Env, sender: Addr, round: nat, randomness: Bytes, isVerifyingTx: bool)
    | Configured(config: Config)

  /**
   * One transaction. A failing call reverts. IBC connects a channel id once and delivers packets only on
   * connected channels.
   */
  function Step(s: State, e: Event): State {
    match e
    case Connected(channel, payment) =>
      if channel in s.customers then s else Connect(s, channel, payment)
    case Received(env, channel, relayer, after, origin) =>
      if channel !in s.customers then s
      else
        var r := ReceiveRequest(s, env, channel, relayer, after, origin);
        if r.Ok? then r.value.state else s
    case VerifiedRound(env, sender, round, randomness, isVerifyingTx) =>
      var r := AddVerifiedRound(s, env, sender, round, randomness, isVerifyingTx);
      if r.Ok? then r.value.state else s
    case Configured(config) => s.(config := config)
  }

  function Run(s: State, es: seq<Event>): State
    decreases |es|
  {
    if es == [] then s else Run(Step(s, es[0]), es[1..])
  }

  lemma StepInv(s: State, e: Event)
    requires Inv(s)
    ensures Inv(Step(s, e))
  {
    match e
    case Connected(channel, payment) =>
      if channel !in s.customers {
        ConnectInv(s, channel, payment);
      }
    case Received(env, channel, relayer, after, origin) =>
      if channel in s.customers && ReceiveRequest(s, env, channel, relayer, after, origin).Ok? {
        ReceiveInv(s, env, channel, relayer, after, origin);
      }
    case VerifiedRound(env, sender, round, randomness, isVerifyingTx) =>
      if AddVerifiedRound(s, env, sender, round, randomness, isVerifyingTx).Ok? {
        AddVerifiedRoundInv(s, env, sender, round, randomness, isVerifyingTx);
      }
    case Configured(config) =>
  }

  lemma {:induction false} RunInv(s: State, es: seq<Event>)
    requires Inv(s)
    ensures Inv(Run(s, es))
    decreases |es|
  {
    if es != [] {
      StepInv(s, es[0]);
      RunInv(Step(s, es[0]), es[1..]);
    }
  }

  /**
   * Double-index conservation, over every run of a fresh gateway: the customer counters are the log
   * lengths; per round, queued plus processed jobs are the log entries and `LAST_JOB_ID` counts the
   * queued ones; and the two global totals agree.
   */
  lemma IndexesAgree(config: Config, es: seq<Event>)
    ensures
      var s := Run(InitState(config), es);
      && (forall c <- s.customers :: s.customers[c].requestedBeacons == |Log(s, c)|)
      && (forall r: nat :: |Queue(s, r)| + Processed(s, r) == AllEntries(s.logs, r))
      && (forall r: nat :: LastJobId(s, r) == AllQueuedEntries(s.logs, r))
      && TotalRequested(s.customers) == TotalQueued(s.queues) + Sum<nat>(s.processed)
  {
    InitInv(config);
    RunInv(InitState(config), es);
  }

  lemma StepIdsGrow(s: State, e: Event, round: nat)
    ensures LastJobId(s, round) <= LastJobId(Step(s, e), round)
  {
    if e.Received? {
      hide Route;
      var r := Route(s, e.env, e.channel, e.after, e.origin);
      if r.Ok? {
        RouteIdsGrow(s, e.env, e.channel, e.after, e.origin, round);
      }
    }
  }

  lemma RouteIdsGrow(s: State, env: Env, channel: string, after: Timestamp, origin: Bytes, round: nat)
    requires Route(s, env, channel, after, origin).Ok?
    ensures LastJobId(s, round) <= LastJobId(Route(s, env, channel, after, origin).value.state, round)
  {
  }

  /** Job ids are never taken back. */
  lemma {:induction false} IdsOnlyGrow(s: State, es: seq<Event>, round: nat)
    ensures LastJobId(s, round) <= LastJobId(Run(s, es), round)
    decreases |es|
  {
    hide Step;
    if es != [] {
      StepIdsGrow(s, es[0], round);
      IdsOnlyGrow(Step(s, es[0]), es[1..], round);
    }
  }

  // ---- Archived rounds ----

  /** How many jobs of a round an event may drain. */
  function Granted(s: State, e: Event, round: nat): nat {
    if e.VerifiedRound? && e.round == round
       && AddVerifiedRound(s, e.env, e.sender, round, e.randomness, e.isVerifyingTx).Ok?
    then Cap(e.isVerifyingTx) else 0
  }

  /** The drain budget the verified-round transactions of a run grant to one round. */
  function Budget(s: State, es: seq<Event>, round: nat): nat
    decreases |es|
  {
    if es == [] then 0 else Granted(s, es[0], round) + Budget(Step(s, es[0]), es[1..], round)
  }

  lemma ArchivedRoute(s: State, env: Env, channel: string, after: Timestamp, origin: Bytes, round: nat)
    requires round in s.archive && Route(s, env, channel, after, origin).Ok?
    ensures
      var s' := Route(s, env, channel, after, origin).value.state;
      s'.archive == s.archive && LastJobId(s', round) == LastJobId(s, round) && Queue(s', round) == Queue(s, round)
  {
  }

  lemma ArchivedRequest(s: State, env: Env, channel: string, relayer: Addr, after: Timestamp, origin: Bytes, round: nat)
    requires round in s.archive && ReceiveRequest(s, env, channel, relayer, after, origin).Ok?
    ensures
      var s' := ReceiveRequest(s, env, channel, relayer, after, origin).value.state;
      s'.archive == s.archive && LastJobId(s', round) == LastJobId(s, round) && Queue(s', round) == Queue(s, round)
  {
    hide Route;
    if |origin| <= MAX_ORIGIN_LEN {
      ArchivedRoute(s, env, channel, after, origin, round);
    }
  }

  lemma ArchivedStep(s: State, e: Event, round: nat)
    requires round in s.archive
    ensures round in Step(s, e).archive
    ensures LastJobId(Step(s, e), round) == LastJobId(s, round)
    ensures Queue(Step(s, e), round) == Queue(s, round)[Min(|Queue(s, round)|, Granted(s, e, round))..]
  {
    if e.Received? {
      hide ReceiveRequest;
      var r := ReceiveRequest(s, e.env, e.channel, e.relayer, e.after, e.origin);
      if e.channel in s.customers && r.Ok? {
        ArchivedRequest(s, e.env, e.channel, e.relayer, e.after, e.origin, round);
      }
    }
  }

  /**
   * Once a round is archived its job ids are frozen, its queue only loses jobs from the front, and after
   * any further run exactly min(length, granted budget) of them have left.
   */
  lemma {:induction false} ArchivedRoundOnlyDrains(s: State, es: seq<Event>, round: nat)
    requires round in s.archive
    ensures round in Run(s, es).archive
    ensures LastJobId(Run(s, es), round) == LastJobId(s, round)
    ensures Queue(Run(s, es), round) == Queue(s, round)[Min(|Queue(s, round)|, Budget(s, es, round))..]
    decreases |es|
  {
    hide Step, Granted;
    if es != [] {
      ArchivedStep(s, es[0], round);
      ArchivedRoundOnlyDrains(Step(s, es[0]), es[1..], round);
    }
  }

  /** Every later accepted request for an archived round is answered at once, with the archived randomness. */
  lemma ArchivedRequestAnsweredAtOnce(s: State, es: seq<Event>, env: Env, channel: string, relayer: Addr,
                                      after: Timestamp, origin: Bytes)
    requires RoundAfter(after) in s.archive
    ensures
      var s' := Run(s, es);
      var r := ReceiveRequest(s', env, channel, relayer, after, origin);
      r.Ok? && !r.value.ack.ErrorAck? ==>
        && r.value.ack == RequestProcessed(SourceId(RoundAfter(after)))
        && r.value.msgs[0] == SendBeacon(BeaconDelivery(RequestJob(channel, after, origin), RoundAfter(after),
                                                        s'.archive[RoundAfter(after)], env.time))
  {
    ArchivedRoundOnlyDrains(s, es, RoundAfter(after));
  }
}
