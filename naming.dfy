/** The file name proposed for the pull request: `test-case-<ms>.js`, where
    `<ms>` is the clock reading (milliseconds since the epoch) written in
    decimal. The clock is an input. */
module Naming {

  function Digit(d: nat): (c: char)
    requires d < 10
  {
    ('0' as int + d) as char
  }

  /** A non-negative integer written in decimal, as JavaScript prints it. */
  function Decimal(n: nat): (r: string)
    ensures |r| >= 1
    ensures forall i | 0 <= i < |r| :: '0' <= r[i] <= '9'
    ensures (|r| == 1) == (n < 10)
    ensures |r| > 1 ==> r[0] != '0'
    decreases n
  {
    if n < 10 then [Digit(n)] else Decimal(n / 10) + [Digit(n % 10)]
  }

  /** Reads a string of decimal digits back as a number. */
  function ParseDecimal(s: string): nat
    requires forall i | 0 <= i < |s| :: '0' <= s[i] <= '9'
  {
    if s == [] then 0
    else ParseDecimal(s[..|s| - 1]) * 10 + (s[|s| - 1] as int - '0' as int)
  }

  /** Reading back the decimal text gives the number. */
  lemma {:induction false} ParseDecimalRoundTrip(n: nat)
    ensures ParseDecimal(Decimal(n)) == n
    decreases n
  {
    var r := Decimal(n);
    if n >= 10 {
      ParseDecimalRoundTrip(n / 10);
      assert r[..|r| - 1] == Decimal(n / 10);
    }
  }

  function PrFileName(now: nat): (name: string)
    ensures |name| >= 14 && name[..10] == "test-case-" && name[|name| - 3..] == ".js"
    ensures name[10..|name| - 3] == Decimal(now)
    ensures ParseDecimal(name[10..|name| - 3]) == now
  {
    var name := "test-case-" + Decimal(now) + ".js";
    assert name[10..|name| - 3] == Decimal(now);
    ParseDecimalRoundTrip(now);
    name
  }

  /** Two submissions get the same proposed file name only when the clock read
      the same millisecond. */
  lemma PrFileNameInjective(a: nat, b: nat)
    requires PrFileName(a) == PrFileName(b)
    ensures a == b
  {
    var da, db := Decimal(a), Decimal(b);
    assert |da| == |db|;
    assert da == PrFileName(a)[10..10 + |da|];
    assert db == PrFileName(b)[10..10 + |db|];
    ParseDecimalRoundTrip(a);
    ParseDecimalRoundTrip(b);
  }
}
