/** BLS verification, SHA-256 and the bot groups are foreign code and appear as functions of a parameter. */
module Crypto {
  import opened Base

  datatype Scheme = Scheme(
    /** Signature check of a round against the fixed drand public key. */
    verify: (nat, Bytes) -> bool,
    /** The randomness of a signature. */
    derive: Bytes -> Bytes,
    /** Whether the address hash puts a bot into group A. */
    inGroupA: Addr -> bool)

  ghost predicate IsRandomnessOf(c: Scheme, round: nat, randomness: Bytes) {
    exists signature: Bytes :: c.verify(round, signature) && c.derive(signature) == randomness
  }

  /**
   * The uniqueness of BLS signatures: all valid signatures of a round yield the same randomness. Rounds
   * beyond u32 never reach the gateway.
   */
  ghost predicate UniqueRandomness(c: Scheme) {
    forall round: nat, a: Bytes, b: Bytes ::
      round <= U32_MAX && c.verify(round, a) && c.verify(round, b) ==> c.derive(a) == c.derive(b)
  }

  lemma RandomnessUnique(c: Scheme, round: nat, a: Bytes, b: Bytes)
    requires UniqueRandomness(c) && round <= U32_MAX && IsRandomnessOf(c, round, a) && IsRandomnessOf(c, round, b)
    ensures a == b
  {
    var x: Bytes :| c.verify(round, x) && c.derive(x) == a;
    var y: Bytes :| c.verify(round, y) && c.derive(y) == b;
  }
}

/**
 * nois-drand as a state machine on values. Submissions are one sequence per round, in arrival order;
 * DrandContract.dfy proves that the stored positions and counts represent these sequences.
 */
module DrandModel {
  import opened Base
  import opened Crypto

  const NUMBER_OF_INCENTIVES_PER_ROUND := 6
  const NUMBER_OF_SUBMISSION_VERIFICATION_PER_ROUND := 3
  const INCENTIVE_POINTS_FOR_VERIFICATION := 35
  const INCENTIVE_POINTS_FOR_FAST_BOT := 15
  const MAX_MONIKER_LEN := 20

  datatype Config = Config(gateway: Option<Addr>, minRound: nat, incentivePointPrice: nat, incentiveDenom: string)

  datatype Beacon = Beacon(verified: Timestamp, randomness: Bytes)

  datatype Bot = Bot(moniker: string, roundsAdded: nat, rewardPoints: nat)

  /** A submission with the reward points it earned. */
  datatype Submission = Submission(bot: Addr, env: Env, points: nat)

  /** `incentivized` maps each round marked by the gateway to the `min_round` in force when it was last marked. */
  datatype State = State(
    config: Config,
    arrivals: map<nat, seq<Submission>>,
    beacons: map<nat, Beacon>,
    bots: map<Addr, Bot>,
    allowlist: set<Addr>,
    incentivized: map<nat, nat>)

  /** The `AddVerifiedRound` message sent to the gateway. */
  datatype Forward = Forward(gateway: Addr, round: nat, randomness: Bytes, isVerifyingTx: bool)

  datatype AddRoundResult = AddRoundResult(state: State, forward: Option<Forward>, points: nat, payout: Coin)

  function ArrivalsAt(arrivals: map<nat, seq<Submission>>, round: nat): seq<Submission> {
    if round in arrivals then arrivals[round] else []
  }

  function Arrivals(s: State, round: nat): seq<Submission> {
    ArrivalsAt(s.arrivals, round)
  }

  predicate HasSubmitted(subs: seq<Submission>, bot: Addr) {
    exists i :: 0 <= i < |subs| && subs[i].bot == bot
  }

  /** Points a submission can earn when `count` submissions of the round came before it. */
  function PointsFor(count: nat): nat {
    (if count < NUMBER_OF_SUBMISSION_VERIFICATION_PER_ROUND then INCENTIVE_POINTS_FOR_VERIFICATION else 0)
    + (if count < NUMBER_OF_INCENTIVES_PER_ROUND then INCENTIVE_POINTS_FOR_FAST_BOT else 0)
  }

  predicate IsIncentivized(c: Scheme, s: State, sender: Addr, round: nat) {
    && round >= s.config.minRound
    && (round in s.incentivized || (round != 0 && round % 25 == 0))
    && c.inGroupA(sender) == (round % 2 == 0)
  }

  predicate IsEligible(c: Scheme, s: State, sender: Addr, round: nat) {
    && IsIncentivized(c, s, sender, round)
    && sender in s.bots && sender in s.allowlist
    && PointsFor(|Arrivals(s, round)|) != 0
  }

  function EarnedPoints(c: Scheme, s: State, sender: Addr, round: nat): nat {
    if IsEligible(c, s, sender, round) then PointsFor(|Arrivals(s, round)|) else 0
  }

  /** The first three submissions are verified; later ones are compared with the stored beacon. */
  function CheckSignature(c: Scheme, s: State, round: nat, signature: Bytes): Res<bool> {
    if |Arrivals(s, round)| < NUMBER_OF_SUBMISSION_VERIFICATION_PER_ROUND then
      if c.verify(round, signature) then Ok(true) else Err(InvalidSignature)
    else if round !in s.beacons then Err(NotFound)
    else if c.derive(signature) != s.beacons[round].randomness then Err(SignatureDoesNotMatchState)
    else Ok(false)
  }

  function UpdatedBots(bots: map<Addr, Bot>, sender: Addr, points: nat): Res<map<Addr, Bot>> {
    if sender !in bots then Ok(bots)
    else
      var bot := bots[sender];
      if bot.roundsAdded >= U64_MAX || bot.rewardPoints + points > U64_MAX then Panic
      else Ok(bots[sender := bot.(roundsAdded := bot.roundsAdded + 1, rewardPoints := bot.rewardPoints + points)])
  }

  /** The payout is all or nothing against the contract's own balance. */
  function Payout(config: Config, points: nat, balance: nat): Res<nat> {
    var desired := points * config.incentivePointPrice;
    if points > 0 && desired > U128_MAX then Panic
    else if balance >= desired then Ok(desired)
    else Ok(0)
  }

  /** Everything that is checked before state is written. */
  function CheckSubmission(c: Scheme, s: State, sender: Addr, fundsSent: bool, round: nat, signature: Bytes): Res<bool> {
    if fundsSent then Err(FundsSent)
    else if round < s.config.minRound then Err(RoundTooLow)
    else
      var isVerifyingTx :- CheckSignature(c, s, round, signature);
      if HasSubmitted(Arrivals(s, round), sender) then Err(SubmissionExists)
      else if |Arrivals(s, round)| >= U16_MAX then Panic
      else Ok(isVerifyingTx)
  }

  function AddRound(c: Scheme, s: State, env: Env, sender: Addr, fundsSent: bool, round: nat, signature: Bytes,
                    balance: nat): Res<AddRoundResult>
  {
    var isVerifyingTx :- CheckSubmission(c, s, sender, fundsSent, round, signature);
    var points := EarnedPoints(c, s, sender, round);
    var bots :- UpdatedBots(s.bots, sender, points);
    var payout :- Payout(s.config, points, balance);
    var randomness := c.derive(signature);
    var beacons := if round in s.beacons then s.beacons else s.beacons[round := Beacon(env.time, randomness)];
    var subs := Arrivals(s, round) + [Submission(sender, env, points)];
    Ok(AddRoundResult(
         s.(arrivals := s.arrivals[round := subs], bots := bots, beacons := beacons),
         match s.config.gateway
         case Some(gateway) => Some(Forward(gateway, round, randomness, isVerifyingTx))
         case None => None,
         points,
         Coin(payout, s.config.incentiveDenom)))
  }

  function SetIncentivized(s: State, sender: Addr, round: nat): Res<State> {
    if s.config.gateway != Some(sender) then Err(Unauthorized)
    else if round < s.config.minRound then Err(RoundTooLow)
    else Ok(s.(incentivized := s.incentivized[round := s.config.minRound]))
  }

  /** Registering again renames the bot and keeps its record. */
  function RegisterBot(s: State, sender: Addr, moniker: string): Res<State> {
    if moniker == "" then Err(MonikerEmpty)
    else if Utf8Length(moniker) > MAX_MONIKER_LEN then Err(MonikerTooLong)
    else
      var bot := if sender in s.bots then s.bots[sender].(moniker := moniker) else Bot(moniker, 0, 0);
      Ok(s.(bots := s.bots[sender := bot]))
  }

  function InitState(config: Config): State {
    State(config, map[], map[], map[], {}, map[])
  }
}

/** What every run of the drand contract keeps. */
module DrandRuns {
  import opened Base
  import opened Sums
  import opened Crypto
  import opened DrandModel

  // ---- Invariants ----

  ghost predicate Distinct(subs: seq<Submission>) {
    forall i, j :: 0 <= i < j < |subs| ==> subs[i].bot != subs[j].bot
  }

  ghost predicate RoundInv(subs: seq<Submission>) {
    && |subs| <= U16_MAX
    && Distinct(subs)
    && forall i :: 0 <= i < |subs| ==> subs[i].points <= PointsFor(i)
  }

  /** Rounds have a beacon exactly if somebody submitted, one submission per bot, points by position. */
  ghost predicate SubmissionInv(arrivals: map<nat, seq<Submission>>, beacons: map<nat, Beacon>) {
    && arrivals.Keys == beacons.Keys
    && forall r <- arrivals :: arrivals[r] != [] && RoundInv(arrivals[r])
  }

  ghost predicate VerifiedInv(c: Scheme, beacons: map<nat, Beacon>) {
    forall r <- beacons :: IsRandomnessOf(c, r, beacons[r].randomness)
  }

  function TotalPoints(subs: seq<Submission>): nat {
    if subs == [] then 0 else TotalPoints(subs[..|subs| - 1]) + subs[|subs| - 1].points
  }

  ghost function RoundTotals(arrivals: map<nat, seq<Submission>>): map<nat, nat> {
    map r | r in arrivals :: TotalPoints(arrivals[r])
  }

  ghost function BotTotals(bots: map<Addr, Bot>): map<Addr, nat> {
    map b | b in bots :: bots[b].rewardPoints
  }

  ghost predicate RewardInv(arrivals: map<nat, seq<Submission>>, bots: map<Addr, Bot>) {
    Sum<Addr>(BotTotals(bots)) == Sum<nat>(RoundTotals(arrivals))
  }

  ghost predicate BotInv(bots: map<Addr, Bot>) {
    forall b <- bots :: bots[b].rewardPoints <= 50 * bots[b].roundsAdded
  }

  ghost predicate MarkInv(incentivized: map<nat, nat>) {
    forall r <- incentivized :: incentivized[r] <= r
  }

  ghost predicate Inv(c: Scheme, s: State) {
    && SubmissionInv(s.arrivals, s.beacons)
    && VerifiedInv(c, s.beacons)
    && RewardInv(s.arrivals, s.bots)
    && BotInv(s.bots)
    && MarkInv(s.incentivized)
  }

  // ---- Rewards of one round ----

  function MaxPoints(n: nat): nat {
    if n == 0 then 0 else MaxPoints(n - 1) + PointsFor(n - 1)
  }

  lemma {:induction false} MaxPointsBound(n: nat)
    ensures MaxPoints(n) == 50 * Min(n, 3) + 15 * (Min(n, 6) - Min(n, 3)) <= 195
  {
    if n > 0 {
      MaxPointsBound(n - 1);
    }
  }

  lemma {:induction false} TotalPointsBound(subs: seq<Submission>)
    requires forall i :: 0 <= i < |subs| ==> subs[i].points <= PointsFor(i)
    ensures TotalPoints(subs) <= MaxPoints(|subs|)
    decreases |subs|
  {
    if subs != [] {
      TotalPointsBound(subs[..|subs| - 1]);
    }
  }

  lemma RoundRewards(subs: seq<Submission>)
    requires RoundInv(subs)
    ensures TotalPoints(subs) <= 195
    ensures forall i :: 6 <= i < |subs| ==> subs[i].points == 0
  {
    hide Distinct;
    TotalPointsBound(subs);
    MaxPointsBound(|subs|);
  }

  // ---- Preservation by AddRound ----

  lemma AppendedDistinct(subs: seq<Submission>, sub: Submission)
    requires Distinct(subs) && !HasSubmitted(subs, sub.bot)
    ensures Distinct(subs + [sub])
  {
    var all := subs + [sub];
    forall i, j | 0 <= i < j < |all|
      ensures all[i].bot != all[j].bot
    {
      assert subs[i].bot != sub.bot;
    }
  }

  lemma AppendedRound(subs: seq<Submission>, sub: Submission)
    requires RoundInv(subs) && |subs| < U16_MAX && !HasSubmitted(subs, sub.bot) && sub.points <= PointsFor(|subs|)
    ensures RoundInv(subs + [sub])
    ensures TotalPoints(subs + [sub]) == TotalPoints(subs) + sub.points
  {
    assert (subs + [sub])[..|subs|] == subs;
    AppendedDistinct(subs, sub);
    hide Distinct, HasSubmitted;
  }

  lemma AppendedArrivals(arrivals: map<nat, seq<Submission>>, beacons: map<nat, Beacon>, round: nat, sub: Submission,
                         beacon: Beacon)
    requires SubmissionInv(arrivals, beacons)
    requires var subs := ArrivalsAt(arrivals, round);
      |subs| < U16_MAX && !HasSubmitted(subs, sub.bot) && sub.points <= PointsFor(|subs|)
    ensures SubmissionInv(arrivals[round := ArrivalsAt(arrivals, round) + [sub]],
                          if round in beacons then beacons else beacons[round := beacon])
  {
    AppendedRound(ArrivalsAt(arrivals, round), sub);
  }

  lemma RoundTotalsUpdate(arrivals: map<nat, seq<Submission>>, round: nat, sub: Submission)
    ensures Sum<nat>(RoundTotals(arrivals[round := ArrivalsAt(arrivals, round) + [sub]]))
            == Sum<nat>(RoundTotals(arrivals)) + sub.points
  {
    var subs := ArrivalsAt(arrivals, round) + [sub];
    assert subs[..|subs| - 1] == ArrivalsAt(arrivals, round);
    assert RoundTotals(arrivals[round := subs]) == RoundTotals(arrivals)[round := TotalPoints(subs)];
    SumUpdate<nat>(RoundTotals(arrivals), round, TotalPoints(subs));
  }

  lemma BotTotalsUpdate(bots: map<Addr, Bot>, b: Addr, bot: Bot)
    ensures Sum<Addr>(BotTotals(bots[b := bot]))
            == Sum<Addr>(BotTotals(bots)) - (if b in bots then bots[b].rewardPoints else 0) + bot.rewardPoints
  {
    assert BotTotals(bots[b := bot]) == BotTotals(bots)[b := bot.rewardPoints];
    SumUpdate<Addr>(BotTotals(bots), b, bot.rewardPoints);
  }

  /** An accepted submission, as updates of the state; the forwarded randomness is verified or equals the beacon. */
  ghost predicate Submits(c: Scheme, s: State, s': State, round: nat, sub: Submission, randomness: Bytes) {
    && |Arrivals(s, round)| < U16_MAX
    && !HasSubmitted(Arrivals(s, round), sub.bot)
    && sub.points <= PointsFor(|Arrivals(s, round)|)
    && (sub.points > 0 ==> sub.bot in s.bots)
    && (if |Arrivals(s, round)| < 3 then IsRandomnessOf(c, round, randomness)
        else round in s.beacons && s.beacons[round].randomness == randomness)
    && s'.config == s.config && s'.incentivized == s.incentivized && s'.allowlist == s.allowlist
    && s'.arrivals == s.arrivals[round := Arrivals(s, round) + [sub]]
    && s'.beacons == (if round in s.beacons then s.beacons else s.beacons[round := Beacon(sub.env.time, randomness)])
    && s'.bots == (if sub.bot !in s.bots then s.bots
                   else s.bots[sub.bot := Bot(s.bots[sub.bot].moniker, s.bots[sub.bot].roundsAdded + 1,
                                              s.bots[sub.bot].rewardPoints + sub.points)])
  }

  lemma AddRoundSubmits(c: Scheme, s: State, env: Env, sender: Addr, fundsSent: bool, round: nat, signature: Bytes,
                        balance: nat)
    requires AddRound(c, s, env, sender, fundsSent, round, signature, balance).Ok?
    ensures
      var r := AddRound(c, s, env, sender, fundsSent, round, signature, balance).value;
      && Submits(c, s, r.state, round, Submission(sender, env, r.points), c.derive(signature))
      && r.payout.amount <= balance
      && (r.forward.Some? <==> s.config.gateway.Some?)
      && (r.forward.Some? ==>
            r.forward.value == Forward(s.config.gateway.value, round, c.derive(signature), |Arrivals(s, round)| < 3))
  {
    if |Arrivals(s, round)| < 3 {
      assert c.verify(round, signature);
    }
  }

  lemma SubmitsRewards(c: Scheme, s: State, s': State, round: nat, sub: Submission, randomness: Bytes)
    requires Submits(c, s, s', round, sub, randomness) && RewardInv(s.arrivals, s.bots) && BotInv(s.bots)
    ensures RewardInv(s'.arrivals, s'.bots) && BotInv(s'.bots)
  {
    RoundTotalsUpdate(s.arrivals, round, sub);
    if sub.bot in s.bots {
      BotTotalsUpdate(s.bots, sub.bot, s'.bots[sub.bot]);
    }
  }

  lemma SubmitsInv(c: Scheme, s: State, s': State, round: nat, sub: Submission, randomness: Bytes)
    requires Submits(c, s, s', round, sub, randomness) && Inv(c, s)
    ensures Inv(c, s')
  {
    SubmitsRewards(c, s, s', round, sub, randomness);
    AppendedArrivals(s.arrivals, s.beacons, round, sub, Beacon(sub.env.time, randomness));
  }

  /** What an accepted submission forwards is verified randomness, also when it was compared only. */
  lemma ForwardedIsVerified(c: Scheme, s: State, s': State, round: nat, sub: Submission, randomness: Bytes)
    requires Submits(c, s, s', round, sub, randomness) && Inv(c, s)
    ensures round in s'.beacons && IsRandomnessOf(c, round, randomness)
  {
  }

  /**
   * With unique signatures, every randomness that an accepted submission forwards equals the stored beacon,
   * also for the second and third submission, which are verified but not compared.
   */
  lemma ForwardedIsBeacon(c: Scheme, s: State, s': State, round: nat, sub: Submission, randomness: Bytes)
    requires Submits(c, s, s', round, sub, randomness) && Inv(c, s) && UniqueRandomness(c) && round <= U32_MAX
    ensures round in s'.beacons && s'.beacons[round].randomness == randomness
  {
    if round in s.beacons && |Arrivals(s, round)| < 3 {
      RandomnessUnique(c, round, randomness, s.beacons[round].randomness);
    }
  }

  /** `BEACONS.load` in the comparing branch never fails. */
  lemma BeaconAlwaysFound(c: Scheme, s: State, env: Env, sender: Addr, fundsSent: bool, round: nat, signature: Bytes,
                          balance: nat)
    requires Inv(c, s)
    ensures AddRound(c, s, env, sender, fundsSent, round, signature, balance) != Err(NotFound)
  {
  }

  /**
   * A submission is accepted exactly if it carries no funds, is not below `min_round`, is the bot's first for the
   * round, and has a valid signature (first three) or the beacon's randomness (later), unless a counter or the
   * payout leaves its integer range.
   */
  lemma AcceptedIff(c: Scheme, s: State, env: Env, sender: Addr, fundsSent: bool, round: nat, signature: Bytes, balance: nat)
    requires Inv(c, s)
    ensures
      var n := |Arrivals(s, round)|;
      var points := EarnedPoints(c, s, sender, round);
      AddRound(c, s, env, sender, fundsSent, round, signature, balance).Ok? <==>
        && !fundsSent && round >= s.config.minRound
        && (forall i :: 0 <= i < n ==> Arrivals(s, round)[i].bot != sender)
        && (n < 3 ==> c.verify(round, signature))
        && (n >= 3 ==> round in s.beacons && c.derive(signature) == s.beacons[round].randomness)
        && n < 65_535
        && points * s.config.incentivePointPrice <= 340_282_366_920_938_463_463_374_607_431_768_211_455
        && (sender in s.bots ==>
              s.bots[sender].roundsAdded < U64_MAX && s.bots[sender].rewardPoints + points <= U64_MAX)
  {
    hide EarnedPoints;
  }

  /**
   * The reward of an accepted submission: 50 points for the first three, 15 for the next three, and none
   * otherwise. Eligible are registered and allowlisted bots of group A in even and group B in odd rounds, for rounds
   * that the gateway marked or that are a multiple of 25, from `min_round` on. The payout is made in full if the
   * balance covers it, else not at all.
   */
  lemma RewardOfSubmission(c: Scheme, s: State, env: Env, sender: Addr, fundsSent: bool, round: nat, signature: Bytes,
                           balance: nat)
    requires AddRound(c, s, env, sender, fundsSent, round, signature, balance).Ok?
    ensures
      var r := AddRound(c, s, env, sender, fundsSent, round, signature, balance).value;
      var n := |Arrivals(s, round)|;
      var eligible :=
        && round >= s.config.minRound
        && (round in s.incentivized || (round > 0 && round % 25 == 0))
        && (if round % 2 == 0 then c.inGroupA(sender) else !c.inGroupA(sender))
        && sender in s.bots && sender in s.allowlist;
      var earned := if !eligible then 0 else if n < 3 then 50 else if n < 6 then 15 else 0;
      && r.points == earned
      && r.payout.amount
         == (if earned * s.config.incentivePointPrice <= balance then earned * s.config.incentivePointPrice else 0)
      && r.payout.denom == s.config.incentiveDenom
  {
  }

  /** The reason a submission is refused is the first check it fails. */
  lemma RefusedBecause(c: Scheme, s: State, env: Env, sender: Addr, fundsSent: bool, round: nat, signature: Bytes, balance: nat)
    requires Inv(c, s) && AddRound(c, s, env, sender, fundsSent, round, signature, balance).Err?
    ensures
      var error := AddRound(c, s, env, sender, fundsSent, round, signature, balance).error;
      var n := |Arrivals(s, round)|;
      var low := round < s.config.minRound;
      && (error == FundsSent <==> fundsSent)
      && (error == RoundTooLow <==> !fundsSent && low)
      && (error == InvalidSignature <==> !fundsSent && !low && n < 3 && !c.verify(round, signature))
      && (error == SignatureDoesNotMatchState <==>
            !fundsSent && !low && n >= 3 && c.derive(signature) != s.beacons[round].randomness)
      && (error in {FundsSent, RoundTooLow, InvalidSignature, SignatureDoesNotMatchState, SubmissionExists})
      && (error == SubmissionExists ==> exists i :: 0 <= i < n && Arrivals(s, round)[i].bot == sender)
  {
  }

  /**
   * Registering is refused exactly for an empty moniker or one of more than 20 bytes. A new bot starts without
   * rounds and points, a known one keeps its record, and nobody else is touched.
   */
  lemma RegisterEffects(s: State, sender: Addr, moniker: string)
    ensures
      var r := RegisterBot(s, sender, moniker);
      && (r.Ok? <==> 1 <= Utf8Length(moniker) <= 20)
      && (!r.Ok? ==> r == Err(if moniker == "" then MonikerEmpty else MonikerTooLong))
      && (r.Ok? ==>
            && sender in r.value.bots && r.value.bots[sender].moniker == moniker
            && r.value.bots[sender].roundsAdded == (if sender in s.bots then s.bots[sender].roundsAdded else 0)
            && r.value.bots[sender].rewardPoints == (if sender in s.bots then s.bots[sender].rewardPoints else 0)
            && r.value.bots - {sender} == s.bots - {sender}
            && r.value == s.(bots := r.value.bots))
  {
  }

  // ---- Runs ----

  datatype Event =
    | Submitted(env: Env, sender: Addr, fundsSent: bool, round: nat, signature: Bytes, balance: nat)
    | Registered(sender: Addr, moniker: string)
    | Marked(sender: Addr, round: nat)
    | Allowlisted(bots: set<Addr>)
    | Configured(config: Config)

  function Step(c: Scheme, s: State, e: Event): State {
    match e
    case Submitted(env, sender, fundsSent, round, signature, balance) =>
      var r := AddRound(c, s, env, sender, fundsSent, round, signature, balance);
      if r.Ok? then r.value.state else s
    case Registered(sender, moniker) =>
      var r := RegisterBot(s, sender, moniker);
      if r.Ok? then r.value else s
    case Marked(sender, round) =>
      var r := SetIncentivized(s, sender, round);
      if r.Ok? then r.value else s
    case Allowlisted(bots) => s.(allowlist := bots)
    case Configured(config) => s.(config := config)
  }

  function Run(c: Scheme, s: State, es: seq<Event>): State
    decreases |es|
  {
    if es == [] then s else Run(c, Step(c, s, es[0]), es[1..])
  }

  lemma RegisterInv(c: Scheme, s: State, sender: Addr, moniker: string)
    requires Inv(c, s) && RegisterBot(s, sender, moniker).Ok?
    ensures Inv(c, RegisterBot(s, sender, moniker).value)
  {
    BotTotalsUpdate(s.bots, sender, RegisterBot(s, sender, moniker).value.bots[sender]);
  }

  lemma StepInv(c: Scheme, s: State, e: Event)
    requires Inv(c, s)
    ensures Inv(c, Step(c, s, e))
  {
    match e
    case Submitted(env, sender, fundsSent, round, signature, balance) =>
      var r := AddRound(c, s, env, sender, fundsSent, round, signature, balance);
      if r.Ok? {
        AddRoundSubmits(c, s, env, sender, fundsSent, round, signature, balance);
        SubmitsInv(c, s, r.value.state, round, Submission(sender, env, r.value.points), c.derive(signature));
      }
    case Registered(sender, moniker) =>
      if RegisterBot(s, sender, moniker).Ok? {
        RegisterInv(c, s, sender, moniker);
      }
    case Marked(sender, round) =>
    case Allowlisted(bots) =>
    case Configured(config) =>
  }

  lemma {:induction false} RunInv(c: Scheme, s: State, es: seq<Event>)
    requires Inv(c, s)
    ensures Inv(c, Run(c, s, es))
    decreases |es|
  {
    if es != [] {
      StepInv(c, s, es[0]);
      RunInv(c, Step(c, s, es[0]), es[1..]);
    }
  }

  lemma InitInv(c: Scheme, config: Config)
    ensures Inv(c, InitState(config))
  {
    var s := InitState(config);
    assert BotTotals(s.bots) == map[];
    assert RoundTotals(s.arrivals) == map[];
  }

  lemma StepKeepsHistory(c: Scheme, s: State, e: Event, round: nat)
    ensures Arrivals(s, round) <= Arrivals(Step(c, s, e), round)
    ensures round in s.beacons ==> round in Step(c, s, e).beacons && Step(c, s, e).beacons[round] == s.beacons[round]
    ensures round in s.incentivized ==> round in Step(c, s, e).incentivized
  {
  }

  /** Beacons are write-once and submissions append-only, over every run. */
  lemma {:induction false} BeaconsAreWriteOnce(c: Scheme, s: State, es: seq<Event>, round: nat)
    ensures Arrivals(s, round) <= Arrivals(Run(c, s, es), round)
    ensures round in s.beacons ==> round in Run(c, s, es).beacons && Run(c, s, es).beacons[round] == s.beacons[round]
    ensures round in s.incentivized ==> round in Run(c, s, es).incentivized
    decreases |es|
  {
    if es != [] {
      StepKeepsHistory(c, s, es[0], round);
      BeaconsAreWriteOnce(c, Step(c, s, es[0]), es[1..], round);
    }
  }

  lemma ArrivalRewards(arrivals: map<nat, seq<Submission>>, beacons: map<nat, Beacon>, r: nat)
    requires SubmissionInv(arrivals, beacons)
    ensures TotalPoints(ArrivalsAt(arrivals, r)) <= 195
    ensures forall i :: 6 <= i < |ArrivalsAt(arrivals, r)| ==> ArrivalsAt(arrivals, r)[i].points == 0
  {
    if r in arrivals {
      RoundRewards(arrivals[r]);
    }
  }

  lemma AllRewards(arrivals: map<nat, seq<Submission>>, beacons: map<nat, Beacon>)
    requires SubmissionInv(arrivals, beacons)
    ensures Sum<nat>(RoundTotals(arrivals)) <= 195 * |beacons|
  {
    assert arrivals.Keys == beacons.Keys;
    forall r | r in arrivals
      ensures RoundTotals(arrivals)[r] <= 195
    {
      ArrivalRewards(arrivals, beacons, r);
    }
    hide SubmissionInv, TotalPoints;
    SumBound<nat>(RoundTotals(arrivals), 195);
    assert RoundTotals(arrivals).Keys == beacons.Keys;
    assert |RoundTotals(arrivals)| == |RoundTotals(arrivals).Keys| == |beacons.Keys|;
  }

  /**
   * Rewards over every run of a fresh contract: only the first six submissions of a round earn points, a
   * round hands out at most 195, the bots' points add up to all points handed out, which is at most 195 per
   * beacon, and no bot has more than 50 points per round it added.
   */
  lemma RewardsBounded(c: Scheme, config: Config, es: seq<Event>)
    ensures
      var s := Run(c, InitState(config), es);
      && (forall r: nat, i :: 6 <= i < |Arrivals(s, r)| ==> Arrivals(s, r)[i].points == 0)
      && (forall r: nat :: TotalPoints(Arrivals(s, r)) <= 195)
      && Sum<Addr>(BotTotals(s.bots)) == Sum<nat>(RoundTotals(s.arrivals)) <= 195 * |s.beacons|
      && (forall b <- s.bots :: s.bots[b].rewardPoints <= 50 * s.bots[b].roundsAdded)
  {
    InitInv(c, config);
    RunInv(c, InitState(config), es);
    var s := Run(c, InitState(config), es);
    hide Run, VerifiedInv, MarkInv, SubmissionInv, TotalPoints;
    forall r: nat {
      ArrivalRewards(s.arrivals, s.beacons, r);
    }
    AllRewards(s.arrivals, s.beacons);
  }
}
