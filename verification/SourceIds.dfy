/** The `drand:<network id>:<round>` identifiers the gateway stores in jobs and log entries. */
module SourceIds {
  /** The chain hash between the colons identifies the drand network. */
  const PREFIX := "drand:dbd506d6ef76e5f386f41c651dcb808c5bcbd75471cc4eafa3f4df7ad4e4c493:"

  function Digit(d: nat): char
    requires d < 10
  {
    (d + 48) as char
  }

  function Decimal(n: nat): string {
    if n < 10 then [Digit(n)] else Decimal(n / 10) + [Digit(n % 10)]
  }

  function ParseDecimal(s: string): int {
    if s == [] then 0 else ParseDecimal(s[..|s| - 1]) * 10 + (s[|s| - 1] as int - 48)
  }

  function SourceId(round: nat): string {
    PREFIX + Decimal(round)
  }

  lemma {:induction false} ParseInvertsDecimal(n: nat)
    ensures ParseDecimal(Decimal(n)) == n
  {
    if n < 10 {
      assert Decimal(n)[..0] == [];
      assert ParseDecimal([]) == 0;
    } else {
      ParseInvertsDecimal(n / 10);
      var s := Decimal(n);
      assert s[..|s| - 1] == Decimal(n / 10);
    }
  }

  /** The id is the fixed prefix followed by the digits of the round. */
  lemma SourceIdReadsBack(round: nat)
    ensures
      var prefix := "drand:dbd506d6ef76e5f386f41c651dcb808c5bcbd75471cc4eafa3f4df7ad4e4c493:";
      && |prefix| < |SourceId(round)| && SourceId(round)[..|prefix|] == prefix
      && ParseDecimal(SourceId(round)[|prefix|..]) == round
      && forall i :: |prefix| <= i < |SourceId(round)| ==> '0' <= SourceId(round)[i] <= '9'
  {
    assert SourceId(round)[|PREFIX|..] == Decimal(round);
    ParseInvertsDecimal(round);
    DecimalDigits(round);
  }

  lemma {:induction false} DecimalDigits(n: nat)
    ensures |Decimal(n)| > 0 && forall i :: 0 <= i < |Decimal(n)| ==> '0' <= Decimal(n)[i] <= '9'
  {
    if n >= 10 {
      DecimalDigits(n / 10);
    }
  }

  /** A source id names one round, so log entries and jobs of different rounds cannot be confused. */
  lemma SourceIdInjective(a: nat, b: nat)
    requires SourceId(a) == SourceId(b)
    ensures a == b
  {
    assert SourceId(a)[|PREFIX|..] == Decimal(a);
    assert SourceId(b)[|PREFIX|..] == Decimal(b);
    ParseInvertsDecimal(a);
    ParseInvertsDecimal(b);
  }
}
