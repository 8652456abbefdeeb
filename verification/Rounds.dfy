/** packages/drand-common: the arithmetic between publish times and drand rounds. */
module Rounds {
  import opened Base

  const NANOS := 1_000_000_000
  const DRAND_GENESIS := 1677685200 * NANOS
  const DRAND_ROUND_LENGTH := 3 * NANOS

  function PlusNanos(t: Timestamp, nanos: nat): Res<Timestamp> {
    if t + nanos <= U64_MAX then Ok(t + nanos) else Panic
  }

  function PlusSeconds(t: Timestamp, seconds: nat): Res<Timestamp> {
    if seconds * NANOS <= U64_MAX then PlusNanos(t, seconds * NANOS) else Panic
  }

  /** `round - 1` and the multiplication are checked `u64` operations. */
  function TimeOfRound(round: U64): Res<Timestamp> {
    if round == 0 then Panic
    else if (round - 1) * DRAND_ROUND_LENGTH > U64_MAX then Panic
    else PlusNanos(DRAND_GENESIS, (round - 1) * DRAND_ROUND_LENGTH)
  }

  function RoundAfter(base: Timestamp): U64 {
    if base < DRAND_GENESIS then 1
    else
      var fromGenesis := base - DRAND_GENESIS;
      var periodsSinceGenesis := fromGenesis / DRAND_ROUND_LENGTH;
      var nextPeriodIndex := periodsSinceGenesis + 1;
      nextPeriodIndex + 1
  }

  /** The drand schedule on unbounded integers: round k is published at genesis + (k-1)·3s. */
  function PublishTime(round: int): int {
    DRAND_GENESIS + (round - 1) * DRAND_ROUND_LENGTH
  }

  /** The last round whose publish time still is a `u64` of nanoseconds. */
  const LAST_TIMED_ROUND := (U64_MAX - DRAND_GENESIS) / DRAND_ROUND_LENGTH + 1

  /** `time_of_round` fails exactly outside 1..LAST_TIMED_ROUND and is the schedule inside. */
  lemma TimeOfRoundIsPublishTime(round: U64)
    ensures TimeOfRound(round).Ok? <==> 1 <= round <= LAST_TIMED_ROUND
    ensures TimeOfRound(round).Ok? ==> TimeOfRound(round).value == PublishTime(round)
    ensures !TimeOfRound(round).Ok? ==> TimeOfRound(round).Panic?
    ensures U32_MAX < LAST_TIMED_ROUND
  {
    var q := (U64_MAX - DRAND_GENESIS) / DRAND_ROUND_LENGTH;
    assert U64_MAX - DRAND_GENESIS == q * DRAND_ROUND_LENGTH + (U64_MAX - DRAND_GENESIS) % DRAND_ROUND_LENGTH;
  }

  /** `round_after(t)` is the least round published strictly after t, before and after genesis. */
  lemma RoundAfterIsLeast(t: Timestamp, round: int)
    requires 1 <= round
    ensures 1 <= RoundAfter(t)
    ensures PublishTime(round) > t <==> RoundAfter(t) <= round
  {
    if t >= DRAND_GENESIS {
      var d := t - DRAND_GENESIS;
      assert d == (d / DRAND_ROUND_LENGTH) * DRAND_ROUND_LENGTH + d % DRAND_ROUND_LENGTH;
    }
  }

  /** The published time lies strictly after the requested time, and by at most one round once drand runs. */
  lemma PublishWindow(t: Timestamp)
    ensures PublishTime(RoundAfter(t)) > t
    ensures DRAND_GENESIS <= t ==> PublishTime(RoundAfter(t)) <= t + DRAND_ROUND_LENGTH
  {
    RoundAfterIsLeast(t, RoundAfter(t));
    if DRAND_GENESIS <= t {
      RoundAfterIsLeast(t, RoundAfter(t) - 1);
    }
  }

  /** The two functions are inverse to each other around every round that has a publish time. */
  lemma RoundAfterTimeOfRound(round: U64)
    requires TimeOfRound(round).Ok?
    ensures RoundAfter(TimeOfRound(round).value) == round + 1
    ensures RoundAfter(TimeOfRound(round).value - 1) == round
  {
    TimeOfRoundIsPublishTime(round);
    var t := TimeOfRound(round).value;
    RoundAfterIsLeast(t, round);
    RoundAfterIsLeast(t, round + 1);
    RoundAfterIsLeast(t - 1, round);
    if round > 1 {
      RoundAfterIsLeast(t - 1, round - 1);
    }
  }

  /** Exactly the times below genesis + (2^32-2)·3s commit to a round the gateway's u32 queue key can hold. */
  lemma RoundFitsU32(t: Timestamp)
    ensures RoundAfter(t) <= U32_MAX <==> t < 14562587082 * NANOS
  {
    RoundAfterIsLeast(t, U32_MAX);
    assert PublishTime(U32_MAX) == 14562587082 * NANOS;
  }
}
