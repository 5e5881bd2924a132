/**
 * Identifier supplies. The use case receives its generator as a closure; the
 * model represents it as a function from the number of earlier calls to the
 * string that call returns. A supply is fresh when it never repeats itself.
 * The counter-based supply of the test suite ("uniqueId_1", "uniqueId_2", ...)
 * is defined here and proved fresh.
 */
module IdSupply {

  /** A supply that never returns the same string twice. */
  ghost predicate Fresh(supply: nat -> string)
  {
    forall a: nat, b: nat :: supply(a) == supply(b) ==> a == b
  }

  function DigitChar(d: nat): (c: char)
    requires d < 10
    ensures '0' <= c <= '9'
  {
    "0123456789"[d]
  }

  /** The decimal numeral of `n`, without leading zeros. */
  function Decimal(n: nat): (s: string)
    ensures |s| >= 1
    ensures n >= 10 ==> |s| >= 2
    ensures forall i :: 0 <= i < |s| ==> '0' <= s[i] <= '9'
  {
    if n < 10 then [DigitChar(n)] else Decimal(n / 10) + [DigitChar(n % 10)]
  }

  lemma DigitCharInjective(a: nat, b: nat)
    requires a < 10 && b < 10
    ensures DigitChar(a) == DigitChar(b) ==> a == b
  {
  }

  /** Distinct numbers have distinct numerals. */
  lemma {:induction false} DecimalInjective(a: nat, b: nat)
    ensures Decimal(a) == Decimal(b) ==> a == b
  {
    if Decimal(a) == Decimal(b) {
      var s := Decimal(a);
      if a < 10 && b < 10 {
        DigitCharInjective(a, b);
      } else if a >= 10 && b >= 10 {
        assert s[|s| - 1] == DigitChar(a % 10) == DigitChar(b % 10);
        DigitCharInjective(a % 10, b % 10);
        assert Decimal(a / 10) == s[..|s| - 1] == Decimal(b / 10);
        DecimalInjective(a / 10, b / 10);
      }
    }
  }

  /** The supply of the test suite: call number k returns "uniqueId_<k + 1>". */
  function CountingSupply(k: nat): (id: string)
    ensures |id| > 9 && id[..9] == "uniqueId_"
  {
    "uniqueId_" + Decimal(k + 1)
  }

  lemma CountingSupplyIsFresh()
    ensures Fresh(CountingSupply)
  {
    forall a: nat, b: nat | CountingSupply(a) == CountingSupply(b) ensures a == b {
      assert Decimal(a + 1) == CountingSupply(a)[9..] == CountingSupply(b)[9..] == Decimal(b + 1);
      DecimalInjective(a + 1, b + 1);
    }
  }

  /** The first four ids of the counting supply, as the test cases expect them. */
  lemma CountingSupplyStart()
    ensures CountingSupply(0) == "uniqueId_1" && CountingSupply(1) == "uniqueId_2"
    ensures CountingSupply(2) == "uniqueId_3" && CountingSupply(3) == "uniqueId_4"
  {
    assert Decimal(1) == "1" && Decimal(2) == "2" && Decimal(3) == "3" && Decimal(4) == "4";
  }
}
