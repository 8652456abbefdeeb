/** Shared vocabulary: machine-integer bounds, results of contract calls, and lookups with a default. */
module Base {

  const U16_MAX := 0xFFFF
  const U32_MAX := 0xFFFF_FFFF
  const U64_MAX := 0xFFFF_FFFF_FFFF_FFFF
  const U128_MAX := 0xFFFF_FFFF_FFFF_FFFF_FFFF_FFFF_FFFF_FFFF

  type U64 = x: int | 0 <= x <= U64_MAX
  type Byte = x: int | 0 <= x < 256
  type Bytes = seq<Byte>
  type Addr = string

  /** A point in time, in nanoseconds since the UNIX epoch. */
  type Timestamp = U64

  /** The block and transaction a call runs in. */
  datatype Env = Env(time: Timestamp, height: U64, txIndex: Option<nat>)

  datatype Coin = Coin(amount: nat, denom: string)

  datatype Order = Ascending | Descending

  datatype Option<+T> = None | Some(value: T)

  datatype Error =
    | Unauthorized
    | NotFound
    | OriginTooLong
    | FundsSent
    | RoundTooLow
    | InvalidSignature
    | SignatureDoesNotMatchState
    | SubmissionExists
    | JobIdTooLong
    | NoPaymentOption
    | InsufficientPayment
    | SenderNotAllowed
    | AfterTooLow
    | AfterTooHigh
    | InvalidAddress
    | TooManyCoins
    | NoCoins
    | WrongDenom
    | NonPayable
    | NoFundsToBurn
    | MonikerEmpty
    | MonikerTooLong

  /**
   * The result of a contract call. `Err` is a returned error. `Panic` is an arithmetic overflow or a
   * failed `expect`; the workspace compiles with `overflow-checks = true` and `panic = 'abort'`.
   */
  datatype Res<+T> = Ok(value: T) | Err(error: Error) | Panic {
    predicate IsFailure() {
      !Ok?
    }

    function PropagateFailure<U>(): Res<U>
      requires !Ok?
    {
      if Err? then Res<U>.Err(error) else Res<U>.Panic
    }

    function Extract(): T
      requires Ok?
    {
      value
    }
  }

  /** The stored count of a round, 0 when absent (`may_load(..).unwrap_or_default()`). */
  function CountAt(counts: map<nat, nat>, round: nat): nat {
    if round in counts then counts[round] else 0
  }

  /** `str::len`: the number of bytes of the UTF-8 encoding. */
  function Utf8Length(s: string): (n: nat)
    ensures |s| <= n <= 4 * |s|
  {
    if s == [] then 0
    else
      var c := s[|s| - 1] as int;
      Utf8Length(s[..|s| - 1]) + (if c < 0x80 then 1 else if c < 0x800 then 2 else if c < 0x10000 then 3 else 4)
  }

  /** One to four bytes hold 7, 11, 16 and 21 bits of a character. */
  lemma Utf8LengthOfChar(s: string, c: char)
    ensures Utf8Length(s + [c]) == Utf8Length(s) + Utf8Length([c])
    ensures Utf8Length([c]) == 1 <==> c as int < 128
    ensures Utf8Length([c]) == 2 <==> 128 <= c as int < 2048
    ensures Utf8Length([c]) == 3 <==> 2048 <= c as int < 65536
    ensures Utf8Length([c]) == 4 <==> 65536 <= c as int
  {
    assert (s + [c])[..|s|] == s;
    assert [c][..0] == [];
  }

  function Min(a: int, b: int): int {
    if a <= b then a else b
  }
}

/** Sums over the values of a finite map, independent of any enumeration order. */
module Sums {
  ghost function AnyKey<K, V>(m: map<K, V>): (k: K)
    requires m != map[]
    ensures k in m
  {
    assert m.Keys != {};
    var k :| k in m;
    k
  }

  ghost function Sum<K>(m: map<K, nat>): nat
    decreases |m|
  {
    if m == map[] then 0 else
      var k := AnyKey(m);
      m[k] + Sum(m - {k})
  }

  lemma {:induction false} SumRemove<K>(m: map<K, nat>, k: K)
    requires k in m
    ensures Sum(m) == m[k] + Sum(m - {k})
    decreases |m|
  {
    var c := AnyKey(m);
    if c != k {
      SumRemove(m - {c}, k);
      SumRemove(m - {k}, c);
      assert m - {c} - {k} == m - {k} - {c};
    }
  }

  lemma SumUpdate<K>(m: map<K, nat>, k: K, v: nat)
    ensures Sum(m[k := v]) == Sum(m) - (if k in m then m[k] else 0) + v
  {
    SumRemove(m[k := v], k);
    assert m[k := v] - {k} == m - {k};
    if k in m {
      SumRemove(m, k);
    } else {
      assert m - {k} == m;
    }
  }

  lemma {:induction false} SumBound<K>(m: map<K, nat>, bound: nat)
    requires forall k <- m :: m[k] <= bound
    ensures Sum(m) <= bound * |m|
    decreases |m|
  {
    if m != map[] {
      var k := AnyKey(m);
      SumBound(m - {k}, bound);
      assert |m - {k}| == |m| - 1;
      assert bound * |m| == bound * (|m| - 1) + bound;
    }
  }
}
