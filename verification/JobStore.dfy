/**
 * contracts/nois-gateway/src/state/drand_jobs.rs: the stored maps JOBS and LAST_JOB_ID, and how they
 * represent one FIFO queue per round.
 */
module JobStore {
  import opened Base
  import opened KeyOrder
  import opened GatewayModel

  /** How many ids of the round have been handed out and already left the queue. */
  function Gone(lastJobId: map<nat, nat>, queues: map<nat, seq<Job>>, round: nat): nat {
    if |QueueAt(queues, round)| <= CountAt(lastJobId, round)
    then CountAt(lastJobId, round) - |QueueAt(queues, round)| else 0
  }

  /**
   * The live ids of a round are the contiguous interval that ends at LAST_JOB_ID, in queue order. Ids
   * therefore only grow and are never reused, not even after the queue ran empty.
   */
  ghost predicate RoundRepresented(jobs: map<Key, Job>, last: nat, q: seq<Job>, round: nat) {
    && |q| <= last <= U16_MAX && (round > U32_MAX ==> last == 0)
    && (forall id: nat :: (round, id) in jobs <==> last - |q| < id <= last)
    && (forall id: nat :: (round, id) in jobs ==> jobs[(round, id)] == q[id - 1 - (last - |q|)])
  }

  ghost predicate Represents(jobs: map<Key, Job>, lastJobId: map<nat, nat>, queues: map<nat, seq<Job>>) {
    forall r: nat :: RoundRepresented(jobs, CountAt(lastJobId, r), QueueAt(queues, r), r)
  }

  function Ids(jobs: map<Key, Job>, round: nat): set<nat> {
    set k | k in jobs && k.0 == round :: k.1
  }

  lemma EnqueueRound(jobs: map<Key, Job>, last: nat, q: seq<Job>, round: nat, job: Job)
    requires RoundRepresented(jobs, last, q, round) && round <= U32_MAX && last < U16_MAX
    ensures RoundRepresented(jobs[(round, last + 1) := job], last + 1, q + [job], round)
  {
  }

  lemma OtherRoundEnqueue(jobs: map<Key, Job>, last: nat, q: seq<Job>, round: nat, key: Key, job: Job)
    requires RoundRepresented(jobs, last, q, round) && key.0 != round
    ensures RoundRepresented(jobs[key := job], last, q, round)
  {
    forall id: nat
      ensures (round, id) in jobs[key := job] <==> (round, id) in jobs
    {
      assert (round, id) != key;
    }
  }

  lemma EnqueueRepresents(jobs: map<Key, Job>, lastJobId: map<nat, nat>, queues: map<nat, seq<Job>>, round: nat, job: Job)
    requires Represents(jobs, lastJobId, queues) && round <= U32_MAX && CountAt(lastJobId, round) < U16_MAX
    ensures
      var id := CountAt(lastJobId, round) + 1;
      Represents(jobs[(round, id) := job], lastJobId[round := id], queues[round := QueueAt(queues, round) + [job]])
  {
    hide RoundRepresented;
    var id := CountAt(lastJobId, round) + 1;
    var jobs', lastJobId' := jobs[(round, id) := job], lastJobId[round := id];
    var queues' := queues[round := QueueAt(queues, round) + [job]];
    forall r: nat
      ensures RoundRepresented(jobs', CountAt(lastJobId', r), QueueAt(queues', r), r)
    {
      assert RoundRepresented(jobs, CountAt(lastJobId, r), QueueAt(queues, r), r);
      if r == round {
        EnqueueRound(jobs, id - 1, QueueAt(queues, r), r, job);
      } else {
        OtherRoundEnqueue(jobs, CountAt(lastJobId, r), QueueAt(queues, r), r, (round, id), job);
      }
    }
  }

  /** The least live id is the oldest queued job, and there is one exactly if the queue is not empty. */
  lemma LeastIdIsOldest(jobs: map<Key, Job>, lastJobId: map<nat, nat>, queues: map<nat, seq<Job>>, round: nat)
    requires Represents(jobs, lastJobId, queues)
    ensures Ids(jobs, round) == {} <==> QueueAt(queues, round) == []
    ensures QueueAt(queues, round) != [] ==>
              var id := Gone(lastJobId, queues, round) + 1;
              && id in Ids(jobs, round)
              && (forall j <- Ids(jobs, round) :: id <= j)
              && (round, id) in jobs && jobs[(round, id)] == QueueAt(queues, round)[0]
  {
    var first := Gone(lastJobId, queues, round) + 1;
    assert RoundRepresented(jobs, CountAt(lastJobId, round), QueueAt(queues, round), round);
    forall j | j in Ids(jobs, round)
      ensures first <= j && QueueAt(queues, round) != []
    {
      assert (round, j) in jobs;
    }
    if QueueAt(queues, round) != [] {
      assert (round, first) in jobs;
      assert first in Ids(jobs, round);
    }
  }

  lemma DequeueRound(jobs: map<Key, Job>, last: nat, q: seq<Job>, round: nat)
    requires RoundRepresented(jobs, last, q, round) && q != []
    ensures RoundRepresented(jobs - {(round, last - |q| + 1)}, last, q[1..], round)
  {
  }

  lemma OtherRoundDequeue(jobs: map<Key, Job>, last: nat, q: seq<Job>, round: nat, key: Key)
    requires RoundRepresented(jobs, last, q, round) && key.0 != round
    ensures RoundRepresented(jobs - {key}, last, q, round)
  {
    forall id: nat
      ensures (round, id) in jobs - {key} <==> (round, id) in jobs
    {
      assert (round, id) != key;
    }
  }

  lemma DequeueRepresents(jobs: map<Key, Job>, lastJobId: map<nat, nat>, queues: map<nat, seq<Job>>, round: nat)
    requires Represents(jobs, lastJobId, queues) && QueueAt(queues, round) != []
    ensures Represents(jobs - {(round, Gone(lastJobId, queues, round) + 1)}, lastJobId,
                       queues[round := QueueAt(queues, round)[1..]])
  {
    assert RoundRepresented(jobs, CountAt(lastJobId, round), QueueAt(queues, round), round);
    var key := (round, Gone(lastJobId, queues, round) + 1);
    assert key == (round, CountAt(lastJobId, round) - |QueueAt(queues, round)| + 1);
    hide RoundRepresented, Gone;
    var queues' := queues[round := QueueAt(queues, round)[1..]];
    forall r: nat
      ensures RoundRepresented(jobs - {key}, CountAt(lastJobId, r), QueueAt(queues', r), r)
    {
      assert RoundRepresented(jobs, CountAt(lastJobId, r), QueueAt(queues, r), r);
      if r == round {
        DequeueRound(jobs, CountAt(lastJobId, r), QueueAt(queues, r), r);
      } else {
        OtherRoundDequeue(jobs, CountAt(lastJobId, r), QueueAt(queues, r), r, key);
      }
    }
  }

  lemma {:induction false} IntervalSize(s: set<nat>, lo: nat, hi: nat)
    requires lo <= hi && forall i: nat :: i in s <==> lo < i <= hi
    ensures |s| == hi - lo
    decreases hi
  {
    if lo == hi {
      assert s == {};
    } else {
      IntervalSize(s - {hi}, lo, hi - 1);
    }
  }

  lemma IdsSize(jobs: map<Key, Job>, lastJobId: map<nat, nat>, queues: map<nat, seq<Job>>, round: nat)
    requires Represents(jobs, lastJobId, queues)
    ensures |Ids(jobs, round)| == |QueueAt(queues, round)|
  {
    var ids := Ids(jobs, round);
    assert RoundRepresented(jobs, CountAt(lastJobId, round), QueueAt(queues, round), round);
    forall i: nat
      ensures i in ids <==> Gone(lastJobId, queues, round) < i <= CountAt(lastJobId, round)
    {
      assert i in ids <==> (round, i) in jobs;
    }
    IntervalSize(ids, Gone(lastJobId, queues, round), CountAt(lastJobId, round));
  }

  // ---- Listing all jobs ----

  /** All queued jobs of the rounds below n: the queues one after the other, in ascending round order. */
  function QueuesBelow(queues: map<nat, seq<Job>>, n: nat): seq<Job> {
    if n == 0 then [] else QueuesBelow(queues, n - 1) + QueueAt(queues, n - 1)
  }

  /** Every queued job; rounds are u32 keys. */
  function AllQueued(queues: map<nat, seq<Job>>): seq<Job> {
    QueuesBelow(queues, U32_MAX + 1)
  }

  function KeyAt(round: nat, id: nat): Key {
    (round, id)
  }

  ghost function RoundKeys(lastJobId: map<nat, nat>, queues: map<nat, seq<Job>>, round: nat): seq<Key> {
    seq(|QueueAt(queues, round)|, (i: nat) => KeyAt(round, Gone(lastJobId, queues, round) + 1 + i))
  }

  ghost function KeysBelow(lastJobId: map<nat, nat>, queues: map<nat, seq<Job>>, n: nat): seq<Key> {
    if n == 0 then [] else KeysBelow(lastJobId, queues, n - 1) + RoundKeys(lastJobId, queues, n - 1)
  }

  lemma RoundKeysSorted(jobs: map<Key, Job>, lastJobId: map<nat, nat>, queues: map<nat, seq<Job>>, round: nat)
    requires Represents(jobs, lastJobId, queues)
    ensures Sorted(RoundKeys(lastJobId, queues, round))
    ensures forall k: Key :: k in RoundKeys(lastJobId, queues, round) <==> k in jobs && k.0 == round
  {
    var keys := RoundKeys(lastJobId, queues, round);
    var gone := Gone(lastJobId, queues, round);
    assert RoundRepresented(jobs, CountAt(lastJobId, round), QueueAt(queues, round), round);
    assert forall i :: 0 <= i < |keys| ==> keys[i] == KeyAt(round, gone + 1 + i);
    forall k: Key | k in jobs && k.0 == round
      ensures k in keys
    {
      assert (k.0, k.1) in jobs;
      var i := k.1 - 1 - gone;
      assert 0 <= i < |keys| && keys[i] == k;
    }
    forall k: Key | k in keys
      ensures k in jobs && k.0 == round
    {
      var i :| 0 <= i < |keys| && keys[i] == k;
      assert (k.0, k.1) in jobs;
    }
  }

  lemma {:induction false} KeysBelowSorted(jobs: map<Key, Job>, lastJobId: map<nat, nat>, queues: map<nat, seq<Job>>, n: nat)
    requires Represents(jobs, lastJobId, queues)
    ensures Sorted(KeysBelow(lastJobId, queues, n))
    ensures forall k: Key :: k in KeysBelow(lastJobId, queues, n) <==> k in jobs && k.0 < n
    decreases n
  {
    if n > 0 {
      KeysBelowSorted(jobs, lastJobId, queues, n - 1);
      RoundKeysSorted(jobs, lastJobId, queues, n - 1);
      AppendSorted(KeysBelow(lastJobId, queues, n - 1), RoundKeys(lastJobId, queues, n - 1));
    }
  }

  lemma AppendSorted(a: seq<Key>, b: seq<Key>)
    requires Sorted(a) && Sorted(b)
    requires forall x, y :: x in a && y in b ==> Less(x, y)
    ensures Sorted(a + b)
  {
    var ab := a + b;
    forall i, j | 0 <= i < j < |ab|
      ensures Less(ab[i], ab[j])
    {
      if i < |a| <= j {
        assert a[i] in a && b[j - |a|] in b;
      }
    }
  }

  function Values(jobs: map<Key, Job>, keys: seq<Key>): seq<Job>
    requires forall k <- keys :: k in jobs
  {
    seq(|keys|, i requires 0 <= i < |keys| => jobs[keys[i]])
  }

  lemma {:induction false} ValuesBelow(jobs: map<Key, Job>, lastJobId: map<nat, nat>, queues: map<nat, seq<Job>>, n: nat)
    requires Represents(jobs, lastJobId, queues)
    requires forall k <- KeysBelow(lastJobId, queues, n) :: k in jobs
    ensures Values(jobs, KeysBelow(lastJobId, queues, n)) == QueuesBelow(queues, n)
    decreases n
  {
    if n > 0 {
      var below := KeysBelow(lastJobId, queues, n - 1);
      var keys := RoundKeys(lastJobId, queues, n - 1);
      ValuesAppend(jobs, below, keys);
      hide Represents, Values, RoundKeys;
      ValuesBelow(jobs, lastJobId, queues, n - 1);
      RoundValues(jobs, lastJobId, queues, n - 1);
    }
  }

  lemma ValuesAppend(jobs: map<Key, Job>, a: seq<Key>, b: seq<Key>)
    requires forall k <- a + b :: k in jobs
    ensures (forall k <- a :: k in jobs) && forall k <- b :: k in jobs
    ensures Values(jobs, a + b) == Values(jobs, a) + Values(jobs, b)
  {
    assert forall k <- a :: k in a + b;
    assert forall k <- b :: k in a + b;
  }

  lemma RoundValues(jobs: map<Key, Job>, lastJobId: map<nat, nat>, queues: map<nat, seq<Job>>, round: nat)
    requires Represents(jobs, lastJobId, queues)
    requires forall k <- RoundKeys(lastJobId, queues, round) :: k in jobs
    ensures Values(jobs, RoundKeys(lastJobId, queues, round)) == QueueAt(queues, round)
  {
    var keys := RoundKeys(lastJobId, queues, round);
    assert RoundRepresented(jobs, CountAt(lastJobId, round), QueueAt(queues, round), round);
    forall i | 0 <= i < |keys|
      ensures jobs[keys[i]] == QueueAt(queues, round)[i]
    {
      assert keys[i] in keys;
      assert keys[i] == (round, Gone(lastJobId, queues, round) + 1 + i);
    }
  }

  /** Iterating JOBS in key order yields the per-round FIFO queues, concatenated in ascending round order. */
  lemma ListingIsAllQueues(jobs: map<Key, Job>, lastJobId: map<nat, nat>, queues: map<nat, seq<Job>>)
    requires Represents(jobs, lastJobId, queues)
    ensures Values(jobs, Ordered(jobs.Keys)) == AllQueued(queues)
  {
    var n := U32_MAX + 1;
    var keys := KeysBelow(lastJobId, queues, n);
    KeysBelowSorted(jobs, lastJobId, queues, n);
    forall k: Key | k in jobs
      ensures k.0 < n
    {
      assert RoundRepresented(jobs, CountAt(lastJobId, k.0), QueueAt(queues, k.0), k.0);
      assert (k.0, k.1) in jobs;
    }
    SortedListingUnique(Ordered(jobs.Keys), keys, jobs.Keys);
    ValuesBelow(jobs, lastJobId, queues, n);
  }
}
