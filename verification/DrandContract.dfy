/**
 * The drand contract's storage and the code that updates it in place. Submissions are stored under
 * (round, bot) with a position and counted separately; both are proved to represent the arrival order
 * of DrandModel.
 */
module DrandContract {
  import opened Base
  import opened Crypto
  import opened IdOrder
  import M = DrandModel

  datatype StoredSubmission = StoredSubmission(pos: nat, time: Timestamp, height: U64, txIndex: Option<nat>)

  datatype QueriedSubmission = QueriedSubmission(bot: Addr, time: Timestamp, height: U64, txIndex: Option<nat>)

  datatype Response = Response(forward: Option<M.Forward>, points: nat, payout: Coin)

  type SubmissionKey = (nat, Addr)

  predicate Stores(stored: StoredSubmission, sub: M.Submission, pos: nat) {
    stored == StoredSubmission(pos, sub.env.time, sub.env.height, sub.env.txIndex)
  }

  /** The stored submissions of one round: each under its bot with its position, and nothing else. */
  ghost predicate RoundStored(submissions: map<SubmissionKey, StoredSubmission>, round: nat, subs: seq<M.Submission>) {
    && (forall i :: 0 <= i < |subs| ==>
          (round, subs[i].bot) in submissions && Stores(submissions[(round, subs[i].bot)], subs[i], i + 1))
    && (forall bot: Addr :: (round, bot) in submissions ==>
          1 <= submissions[(round, bot)].pos <= |subs| && subs[submissions[(round, bot)].pos - 1].bot == bot)
  }

  /**
   * The count of a round is its number of submissions, and the stored positions are a bijection between
   * its bots and 1..count, in arrival order.
   */
  ghost predicate Represents(submissions: map<SubmissionKey, StoredSubmission>, counts: map<nat, nat>,
                             arrivals: map<nat, seq<M.Submission>>)
  {
    forall r: nat ::
      CountAt(counts, r) == |M.ArrivalsAt(arrivals, r)| && RoundStored(submissions, r, M.ArrivalsAt(arrivals, r))
  }

  /** `SUBMISSIONS.has` answers whether the bot is among the round's arrivals. */
  lemma StoredIffSubmitted(submissions: map<SubmissionKey, StoredSubmission>, counts: map<nat, nat>,
                           arrivals: map<nat, seq<M.Submission>>, round: nat, bot: Addr)
    requires Represents(submissions, counts, arrivals)
    ensures CountAt(counts, round) == |M.ArrivalsAt(arrivals, round)|
    ensures (round, bot) in submissions <==> M.HasSubmitted(M.ArrivalsAt(arrivals, round), bot)
  {
    assert RoundStored(submissions, round, M.ArrivalsAt(arrivals, round));
  }

  lemma AppendStored(submissions: map<SubmissionKey, StoredSubmission>, round: nat, subs: seq<M.Submission>,
                     sub: M.Submission, stored: StoredSubmission)
    requires RoundStored(submissions, round, subs)
    requires (round, sub.bot) !in submissions && Stores(stored, sub, |subs| + 1)
    ensures RoundStored(submissions[(round, sub.bot) := stored], round, subs + [sub])
  {
  }

  lemma OtherRoundStored(submissions: map<SubmissionKey, StoredSubmission>, round: nat, subs: seq<M.Submission>,
                         key: SubmissionKey, stored: StoredSubmission)
    requires RoundStored(submissions, round, subs) && key.0 != round
    ensures RoundStored(submissions[key := stored], round, subs)
  {
    forall bot: Addr
      ensures (round, bot) in submissions[key := stored] <==> (round, bot) in submissions
    {
      assert (round, bot) != key;
    }
  }

  lemma SubmitRepresents(submissions: map<SubmissionKey, StoredSubmission>, counts: map<nat, nat>,
                         arrivals: map<nat, seq<M.Submission>>, round: nat, sub: M.Submission, stored: StoredSubmission)
    requires Represents(submissions, counts, arrivals)
    requires (round, sub.bot) !in submissions && Stores(stored, sub, CountAt(counts, round) + 1)
    ensures Represents(submissions[(round, sub.bot) := stored], counts[round := CountAt(counts, round) + 1],
                       arrivals[round := M.ArrivalsAt(arrivals, round) + [sub]])
  {
    hide RoundStored;
    var arrivals' := arrivals[round := M.ArrivalsAt(arrivals, round) + [sub]];
    var submissions' := submissions[(round, sub.bot) := stored];
    var counts' := counts[round := CountAt(counts, round) + 1];
    forall r: nat
      ensures CountAt(counts', r) == |M.ArrivalsAt(arrivals', r)|
      ensures RoundStored(submissions', r, M.ArrivalsAt(arrivals', r))
    {
      assert CountAt(counts, r) == |M.ArrivalsAt(arrivals, r)| && RoundStored(submissions, r, M.ArrivalsAt(arrivals, r));
      if r == round {
        AppendStored(submissions, round, M.ArrivalsAt(arrivals, round), sub, stored);
      } else {
        OtherRoundStored(submissions, r, M.ArrivalsAt(arrivals, r), (round, sub.bot), stored);
      }
    }
  }

  lemma CheckedSubmission(c: Scheme, s: M.State, sender: Addr, fundsSent: bool, round: nat, signature: Bytes)
    requires M.CheckSubmission(c, s, sender, fundsSent, round, signature).Ok?
    ensures !M.HasSubmitted(M.Arrivals(s, round), sender)
  {
    hide M.HasSubmitted, M.CheckSignature;
  }

  type Entry = (Addr, StoredSubmission)

  ghost predicate SortedByPos(entries: seq<Entry>) {
    forall i, j :: 0 <= i < j < |entries| ==> entries[i].1.pos < entries[j].1.pos
  }

  function InsertByPos(entries: seq<Entry>, e: Entry): (r: seq<Entry>)
    ensures forall x :: x in r <==> x in entries || x == e
  {
    if entries == [] then [e]
    else if e.1.pos < entries[0].1.pos then
      [e] + entries
    else
      assert entries == [entries[0]] + entries[1..];
      [entries[0]] + InsertByPos(entries[1..], e)
  }

  lemma {:induction false} InsertKeepsSorted(entries: seq<Entry>, e: Entry)
    requires SortedByPos(entries) && forall x :: x in entries ==> x.1.pos != e.1.pos
    ensures SortedByPos(InsertByPos(entries, e))
    decreases |entries|
  {
    if entries != [] && e.1.pos > entries[0].1.pos {
      var tail := entries[1..];
      forall x | x in tail
        ensures x in entries && x.1.pos > entries[0].1.pos
      {
        var i :| 0 <= i < |tail| && tail[i] == x;
        assert entries[i + 1] == x;
      }
      InsertKeepsSorted(tail, e);
      var rest := InsertByPos(tail, e);
      forall i | 0 <= i < |rest|
        ensures entries[0].1.pos < rest[i].1.pos
      {
        assert rest[i] in rest;
      }
    } else if entries != [] {
      assert entries[0] in entries;
    }
  }

  class Drand {
    const scheme: Scheme
    var config: M.Config
    var submissions: map<SubmissionKey, StoredSubmission>
    var counts: map<nat, nat>
    var beacons: map<nat, M.Beacon>
    var bots: map<Addr, M.Bot>
    var allowlist: set<Addr>
    var incentivizedByGateway: set<nat>

    ghost var arrivals: map<nat, seq<M.Submission>>
    /** The `min_round` in force when a round was last marked. */
    ghost var marks: map<nat, nat>

    ghost predicate Valid()
      reads this
    {
      Represents(submissions, counts, arrivals) && marks.Keys == incentivizedByGateway
    }

    ghost function View(): M.State
      reads this
    {
      M.State(config, arrivals, beacons, bots, allowlist, marks)
    }

    constructor (scheme: Scheme, config: M.Config)
      ensures Valid() && View() == M.InitState(config) && this.scheme == scheme
    {
      this.scheme := scheme;
      this.config := config;
      submissions, counts, beacons, bots := map[], map[], map[], map[];
      allowlist, incentivizedByGateway := {}, {};
      arrivals, marks := map[], map[];
    }

    /** Verifies the first submissions of a round and compares the later ones with the stored beacon. */
    method CheckSignature(count: nat, round: U64, signature: Bytes) returns (r: Res<bool>)
      requires Valid() && count == |M.Arrivals(View(), round)|
      ensures r == M.CheckSignature(scheme, View(), round, signature)
    {
      if count < M.NUMBER_OF_SUBMISSION_VERIFICATION_PER_ROUND {
        if !scheme.verify(round, signature) {
          return Err(InvalidSignature);
        }
        return Ok(true);
      }
      if round !in beacons {
        return Err(NotFound);
      }
      if scheme.derive(signature) != beacons[round].randomness {
        return Err(SignatureDoesNotMatchState);
      }
      return Ok(false);
    }

    method RewardBot(sender: Addr, points: nat) returns (r: Res<()>)
      modifies this`bots
      ensures var spec := old(M.UpdatedBots(bots, sender, points));
        && (r.Ok? <==> spec.Ok?) && (r.Panic? <==> spec.Panic?) && !r.Err?
        && (r.Ok? ==> bots == spec.value)
    {
      if sender in bots {
        var bot := bots[sender];
        if bot.roundsAdded + 1 > U64_MAX || bot.rewardPoints + points > U64_MAX {
          return Panic;
        }
        bots := bots[sender := bot.(roundsAdded := bot.roundsAdded + 1, rewardPoints := bot.rewardPoints + points)];
      }
      return Ok(());
    }

    /** Only eligible bots have points left at this stage. */
    method ComputePayout(points: nat, balance: nat) returns (r: Res<nat>)
      ensures r == M.Payout(config, points, balance)
    {
      if points > 0 {
        var desired := points * config.incentivePointPrice;
        if desired > U128_MAX {
          return Panic;
        }
        return Ok(if balance >= desired then desired else 0);
      }
      return Ok(0);
    }

    /** All checks of a submission; nothing is written yet. */
    method CheckSubmission(sender: Addr, funds: seq<Coin>, round: U64, signature: Bytes) returns (r: Res<bool>)
      requires Valid()
      ensures r == M.CheckSubmission(scheme, View(), sender, funds != [], round, signature)
    {
      hide Represents, M.CheckSignature, M.HasSubmitted;
      if funds != [] {
        return Err(FundsSent);
      }
      if round < config.minRound {
        return Err(RoundTooLow);
      }
      var count := CountAt(counts, round);
      StoredIffSubmitted(submissions, counts, arrivals, round, sender);
      var isVerifyingTx :- CheckSignature(count, round, signature);
      if (round, sender) in submissions {
        return Err(SubmissionExists);
      }
      if count + 1 > U16_MAX {
        return Panic;
      }
      return Ok(isVerifyingTx);
    }

    method EarnedPoints(count: nat, sender: Addr, round: U64) returns (rewardPoints: nat)
      requires Valid() && count == |M.Arrivals(View(), round)|
      ensures rewardPoints == M.EarnedPoints(scheme, View(), sender, round)
    {
      hide Represents;
      rewardPoints := 0;
      if count < M.NUMBER_OF_SUBMISSION_VERIFICATION_PER_ROUND {
        rewardPoints := rewardPoints + M.INCENTIVE_POINTS_FOR_VERIFICATION;
      }
      if count < M.NUMBER_OF_INCENTIVES_PER_ROUND {
        rewardPoints := rewardPoints + M.INCENTIVE_POINTS_FOR_FAST_BOT;
      }
      var isIncentivized := IsIncentivized(sender, round);
      var isEligible := isIncentivized && sender in bots && sender in allowlist && rewardPoints != 0;
      if !isEligible {
        rewardPoints := 0;
      }
    }

    /** Stores the submission under the next position of its round. */
    method Record(env: Env, sender: Addr, round: U64, ghost points: nat)
      requires Valid() && !M.HasSubmitted(M.Arrivals(View(), round), sender)
      modifies this`submissions, this`counts, this`arrivals
      ensures Valid()
      ensures arrivals == old(arrivals)[round := old(M.Arrivals(View(), round)) + [M.Submission(sender, env, points)]]
    {
      hide Represents, M.HasSubmitted;
      StoredIffSubmitted(submissions, counts, arrivals, round, sender);
      var count := CountAt(counts, round);
      var stored := StoredSubmission(count + 1, env.time, env.height, env.txIndex);
      ghost var sub := M.Submission(sender, env, points);
      SubmitRepresents(submissions, counts, arrivals, round, sub, stored);
      submissions := submissions[(round, sender) := stored];
      counts := counts[round := count + 1];
      arrivals := arrivals[round := M.ArrivalsAt(arrivals, round) + [sub]];
    }

    method AddRound(env: Env, sender: Addr, funds: seq<Coin>, round: U64, signature: Bytes, balance: nat)
      returns (r: Res<Response>)
      requires Valid()
      modifies this`submissions, this`counts, this`beacons, this`bots, this`arrivals
      ensures var spec := old(M.AddRound(scheme, View(), env, sender, funds != [], round, signature, balance));
        && (r.Ok? <==> spec.Ok?)
        && (r.Err? <==> spec.Err?)
        && (r.Err? ==> r.error == spec.error)
        && (r.Ok? ==>
              && Valid() && View() == spec.value.state
              && r.value == Response(spec.value.forward, spec.value.points, spec.value.payout))
    {
      hide Represents, M.EarnedPoints, M.UpdatedBots, M.Payout, M.CheckSubmission;
      var isVerifyingTx :- CheckSubmission(sender, funds, round, signature);
      CheckedSubmission(scheme, View(), sender, funds != [], round, signature);
      var count := CountAt(counts, round);
      StoredIffSubmitted(submissions, counts, arrivals, round, sender);
      hide M.HasSubmitted;
      var rewardPoints := EarnedPoints(count, sender, round);
      Record(env, sender, round, rewardPoints);
      var _ :- RewardBot(sender, rewardPoints);
      var payout :- ComputePayout(rewardPoints, balance);
      var randomness := scheme.derive(signature);
      if round !in beacons {
        beacons := beacons[round := M.Beacon(env.time, randomness)];
      }
      var forward := if config.gateway.Some?
                     then Some(M.Forward(config.gateway.value, round, randomness, isVerifyingTx)) else None;
      return Ok(Response(forward, rewardPoints, Coin(payout, config.incentiveDenom)));
    }

    method IsIncentivized(sender: Addr, round: nat) returns (b: bool)
      requires Valid()
      ensures b == M.IsIncentivized(scheme, View(), sender, round)
    {
      if round < config.minRound {
        return false;
      }
      if round in incentivizedByGateway || (round != 0 && round % 25 == 0) {
        return scheme.inGroupA(sender) == (round % 2 == 0);
      }
      return false;
    }

    method SetIncentivized(sender: Addr, round: nat) returns (r: Res<()>)
      requires Valid()
      modifies this`incentivizedByGateway, this`marks
      ensures Valid()
      ensures var spec := M.SetIncentivized(old(View()), sender, round);
        && (r.Ok? <==> spec.Ok?)
        && View() == (if spec.Ok? then spec.value else old(View()))
    {
      if config.gateway != Some(sender) {
        return Err(Unauthorized);
      }
      if round < config.minRound {
        return Err(RoundTooLow);
      }
      incentivizedByGateway := incentivizedByGateway + {round};
      marks := marks[round := config.minRound];
      return Ok(());
    }

    method RegisterBot(sender: Addr, moniker: string) returns (r: Res<()>)
      requires Valid()
      modifies this`bots
      ensures Valid()
      ensures var spec := M.RegisterBot(old(View()), sender, moniker);
        && (r.Ok? <==> spec.Ok?) && (r.Err? <==> spec.Err?) && (r.Err? ==> r.error == spec.error)
        && View() == (if spec.Ok? then spec.value else old(View()))
    {
      if moniker == "" {
        return Err(MonikerEmpty);
      }
      if Utf8Length(moniker) > M.MAX_MONIKER_LEN {
        return Err(MonikerTooLong);
      }
      var bot := if sender in bots then bots[sender].(moniker := moniker) else M.Bot(moniker, 0, 0);
      bots := bots[sender := bot];
      return Ok(());
    }

    /** The stored submissions of a round, sorted by position, are the arrivals in their exact order. */
    method QuerySubmissions(round: U64) returns (result: seq<QueriedSubmission>)
      requires Valid()
      ensures |result| == |M.Arrivals(View(), round)|
      ensures forall i :: 0 <= i < |result| ==>
        var sub := M.Arrivals(View(), round)[i];
        result[i] == QueriedSubmission(sub.bot, sub.env.time, sub.env.height, sub.env.txIndex)
    {
      var rest := set k | k in submissions && k.0 == round :: k.1;
      ghost var all := rest;
      var entries: seq<Entry> := [];
      while rest != {}
        invariant rest <= all
        invariant SortedByPos(entries)
        invariant forall e: Entry :: e in entries <==> e.0 in all - rest && e.1 == submissions[(round, e.0)]
        decreases rest
      {
        var bot :| bot in rest;
        var stored := submissions[(round, bot)];
        PositionsDiffer(submissions, counts, arrivals, round);
        InsertKeepsSorted(entries, (bot, stored));
        entries := InsertByPos(entries, (bot, stored));
        rest := rest - {bot};
      }
      SortedEntriesAreArrivals(submissions, counts, arrivals, round, entries);
      result := seq(|entries|, i requires 0 <= i < |entries| =>
        QueriedSubmission(entries[i].0, entries[i].1.time, entries[i].1.height, entries[i].1.txIndex));
    }
  }

  lemma PositionsDiffer(submissions: map<SubmissionKey, StoredSubmission>, counts: map<nat, nat>,
                        arrivals: map<nat, seq<M.Submission>>, round: nat)
    requires Represents(submissions, counts, arrivals)
    ensures forall a: Addr, b: Addr :: (round, a) in submissions && (round, b) in submissions && a != b ==>
              submissions[(round, a)].pos != submissions[(round, b)].pos
  {
    assert RoundStored(submissions, round, M.ArrivalsAt(arrivals, round));
  }

  lemma SortedEntriesAreArrivals(submissions: map<SubmissionKey, StoredSubmission>, counts: map<nat, nat>,
                                 arrivals: map<nat, seq<M.Submission>>, round: nat, entries: seq<Entry>)
    requires Represents(submissions, counts, arrivals) && SortedByPos(entries)
    requires forall e: Entry :: e in entries <==> (round, e.0) in submissions && e.1 == submissions[(round, e.0)]
    ensures |entries| == |M.ArrivalsAt(arrivals, round)|
    ensures forall i :: 0 <= i < |entries| ==>
      entries[i].0 == M.ArrivalsAt(arrivals, round)[i].bot && Stores(entries[i].1, M.ArrivalsAt(arrivals, round)[i], i + 1)
  {
    var subs := M.ArrivalsAt(arrivals, round);
    assert RoundStored(submissions, round, subs);
    var positions := seq(|entries|, i requires 0 <= i < |entries| => entries[i].1.pos);
    forall x: int
      ensures x in positions <==> 1 <= x <= |subs|
    {
      if x in positions {
        var i :| 0 <= i < |positions| && positions[i] == x;
        assert entries[i] in entries;
        assert (round, entries[i].0) in submissions;
      }
      if 1 <= x <= |subs| {
        var i: nat := x - 1;
        assert (round, subs[i].bot) in submissions;
        var e: Entry := (subs[i].bot, submissions[(round, subs[i].bot)]);
        assert e in entries;
        var j :| 0 <= j < |entries| && entries[j] == e;
        assert positions[j] == x;
      }
    }
    AscendingIsInterval(positions, 0, |subs|);
    forall i: nat | i < |entries|
      ensures entries[i].0 == subs[i].bot && Stores(entries[i].1, subs[i], i + 1)
    {
      assert positions[i] == i + 1;
      assert entries[i] in entries;
      assert (round, entries[i].0) in submissions;
      assert (round, subs[i].bot) in submissions;
    }
  }
}
