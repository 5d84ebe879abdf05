/** Record identifiers of the form `${kind}-${Date.now()}`: a kind word, a
    hyphen and the creation timestamp written in decimal. */
module Ids {

  predicate IsDigit(c: char)
  {
    '0' <= c <= '9'
  }

  predicate IsDigits(s: string)
  {
    forall i :: 0 <= i < |s| ==> IsDigit(s[i])
  }

  function DigitChar(d: nat): (c: char)
    requires d < 10
    ensures IsDigit(c)
  {
    (('0' as int) + d) as char
  }

  function DigitValue(c: char): (d: nat)
    requires IsDigit(c)
    ensures d < 10
  {
    (c as int) - ('0' as int)
  }

  /** How a template literal renders a non-negative integer: decimal digits,
      no sign, no leading zero. */
  function Decimal(n: nat): (s: string)
    ensures |s| >= 1 && IsDigits(s)
    ensures |s| > 1 ==> s[0] != '0'
  {
    if n < 10 then [DigitChar(n)] else Decimal(n / 10) + [DigitChar(n % 10)]
  }

  /** Reads back a string of decimal digits. */
  function ParseDecimal(s: string): nat
    requires IsDigits(s)
  {
    if s == [] then 0 else 10 * ParseDecimal(s[..|s| - 1]) + DigitValue(s[|s| - 1])
  }

  lemma {:induction false} ParseDecimalOfDecimal(n: nat)
    ensures ParseDecimal(Decimal(n)) == n
  {
    var s := Decimal(n);
    if n >= 10 {
      assert s[..|s| - 1] == Decimal(n / 10);
      ParseDecimalOfDecimal(n / 10);
    }
  }

  /** Distinct timestamps render differently. */
  lemma DecimalInjective(a: nat, b: nat)
    requires Decimal(a) == Decimal(b)
    ensures a == b
  {
    ParseDecimalOfDecimal(a);
    ParseDecimalOfDecimal(b);
  }

  /** The id `add*` gives a new record created at time `now`. */
  function RecordId(kind: string, now: nat): (id: string)
    ensures |id| == |kind| + 1 + |Decimal(now)|
    ensures id[..|kind|] == kind && id[|kind|] == '-'
    ensures id[|kind| + 1..] == Decimal(now) && IsDigits(id[|kind| + 1..])
  {
    kind + "-" + Decimal(now)
  }

  /** No hyphen follows the one after the kind word. */
  lemma RecordIdLayout(kind: string, now: nat)
    ensures var id := RecordId(kind, now);
      forall i :: |kind| < i < |id| ==> id[i] != '-'
  {
    var id := RecordId(kind, now);
    forall i | |kind| < i < |id|
      ensures id[i] != '-'
    {
      assert id[i] == id[|kind| + 1..][i - |kind| - 1];
    }
  }

  /** An id determines both its kind and its timestamp, as long as the kind
      words contain no hyphen: two records get the same id only when they are
      of the same kind and were created at the same timestamp. */
  lemma RecordIdInjective(k1: string, t1: nat, k2: string, t2: nat)
    requires '-' !in k1 && '-' !in k2
    requires RecordId(k1, t1) == RecordId(k2, t2)
    ensures k1 == k2 && t1 == t2
  {
    var s := RecordId(k1, t1);
    RecordIdLayout(k1, t1);
    RecordIdLayout(k2, t2);
    assert |k1| == |k2|;
    assert k1 == s[..|k1|] == k2;
    assert Decimal(t1) == s[|k1| + 1..] == Decimal(t2);
    DecimalInjective(t1, t2);
  }
}
