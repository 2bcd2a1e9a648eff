/**
 * The text one turn's budget reservation is recorded as
 * (packages/assistant-runtime/src/assistant-budget-guard.ts).  Amounts are whole
 * millionths of a dollar.
 */
module BudgetHold {
  import opened Wrappers

  datatype Amounts = Amounts(company: nat, global: nat)

  function DigitOf(d: nat): char
    requires d < 10
  {
    '0' + d as char
  }

  /** The decimal text of a whole number. */
  function Decimal(n: nat): string {
    if n < 10 then [DigitOf(n)] else Decimal(n / 10) + [DigitOf(n % 10)]
  }

  predicate IsDigits(s: string) {
    s != [] && forall i :: 0 <= i < |s| ==> '0' <= s[i] <= '9'
  }

  function DigitsValue(s: string): nat
    requires forall i :: 0 <= i < |s| ==> '0' <= s[i] <= '9'
  {
    if s == [] then 0 else 10 * DigitsValue(s[..|s| - 1]) + (s[|s| - 1] as int - '0' as int)
  }

  /** How a text that is not plain digits reads as a number; None for NaN and infinities. */
  type OtherNumbers = string -> Option<int>

  function NumberOf(s: string, other: OtherNumbers): Option<int> {
    if IsDigits(s) then Some(DigitsValue(s)) else other(s)
  }

  function Split(s: string, at: char): (parts: seq<string>)
    ensures |parts| >= 1
  {
    if s == [] then [[]]
    else
      var rest := Split(s[1..], at);
      if s[0] == at then [[]] + rest else [[s[0]] + rest[0]] + rest[1..]
  }

  function EncodeHold(hold: Amounts): string {
    Decimal(hold.company) + ":" + Decimal(hold.global)
  }

  function DecodeHold(value: string, other: OtherNumbers): Option<Amounts> {
    var parts := Split(value, ':');
    if |parts| != 2 then None
    else
      var company, global := NumberOf(parts[0], other), NumberOf(parts[1], other);
      if company.None? || global.None? || company.value < 0 || global.value < 0 then None
      else Some(Amounts(company.value, global.value))
  }

  lemma {:induction false} DecimalReads(n: nat)
    ensures IsDigits(Decimal(n)) && DigitsValue(Decimal(n)) == n
  {
    if n < 10 {
      assert [DigitOf(n)][..0] == [];
    } else {
      DecimalReads(n / 10);
      var s := Decimal(n);
      assert s[..|s| - 1] == Decimal(n / 10);
    }
  }

  lemma {:induction false} SplitOnce(a: string, b: string, at: char)
    requires at !in a && at !in b
    ensures Split(a + [at] + b, at) == [a, b]
  {
    if a == [] {
      assert (a + [at] + b)[1..] == b;
      SplitNone(b, at);
    } else {
      assert (a + [at] + b)[1..] == a[1..] + [at] + b;
      SplitOnce(a[1..], b, at);
      assert [a[0]] + a[1..] == a;
    }
  }

  lemma {:induction false} SplitNone(b: string, at: char)
    requires at !in b
    ensures Split(b, at) == [b]
  {
    if b != [] {
      SplitNone(b[1..], at);
      assert [b[0]] + b[1..] == b;
    }
  }

  /** A retry adopts exactly what the first attempt recorded. */
  lemma HoldRoundTrip(hold: Amounts, other: OtherNumbers)
    ensures DecodeHold(EncodeHold(hold), other) == Some(hold)
  {
    DecimalReads(hold.company);
    DecimalReads(hold.global);
    SplitOnce(Decimal(hold.company), Decimal(hold.global), ':');
    assert EncodeHold(hold) == Decimal(hold.company) + [':'] + Decimal(hold.global);
  }

  function CountOf(s: string, c: char): nat {
    if s == [] then 0 else (if s[0] == c then 1 else 0) + CountOf(s[1..], c)
  }

  lemma {:induction false} SplitCounts(s: string, at: char)
    ensures |Split(s, at)| == 1 + CountOf(s, at)
  {
    if s != [] {
      SplitCounts(s[1..], at);
    }
  }

  /** A text without exactly one colon records no hold this build can read. */
  lemma OneColonOnly(value: string, other: OtherNumbers)
    requires CountOf(value, ':') != 1
    ensures DecodeHold(value, other).None?
  {
    SplitCounts(value, ':');
  }

  /** Different holds are recorded as different texts. */
  lemma HoldTextsDiffer(a: Amounts, b: Amounts, other: OtherNumbers)
    ensures EncodeHold(a) == EncodeHold(b) <==> a == b
  {
    HoldRoundTrip(a, other);
    HoldRoundTrip(b, other);
  }
}
