/** Message ids: "{channel}-{number}", printed in decimal and parsed back from the part after
    the last dash. */
module MessageIds {

  import opened Prelude

  const DIGITS := "0123456789"

  /** The decimal representation without leading zeros. */
  function Decimal(n: nat): (s: string)
    ensures |s| > 0
    ensures forall i :: 0 <= i < |s| ==> s[i] in DIGITS
  {
    if n < 10 then [DIGITS[n]] else Decimal(n / 10) + [DIGITS[n % 10]]
  }

  function DigitValue(d: char): nat
    requires d in DIGITS
  {
    d as int - '0' as int
  }

  /** The value of a possibly empty run of digits, None as soon as another character appears. */
  function ParseDigits(s: string): Option<nat>
  {
    if s == [] then Some(0)
    else if s[|s| - 1] !in DIGITS then None
    else match ParseDigits(s[..|s| - 1])
      case None => None
      case Some(v) => Some(10 * v + DigitValue(s[|s| - 1]))
  }

  /** Parsing of an unsigned number: at least one digit, one leading '+' allowed. */
  function ParseNumber(s: string): Option<nat>
  {
    var digits := if s != [] && s[0] == '+' then s[1..] else s;
    if digits == [] then None else ParseDigits(digits)
  }

  /** The part of s after its last dash, all of s when it has none. */
  function AfterLastDash(s: string): string
  {
    if s == [] || s[|s| - 1] == '-' then []
    else AfterLastDash(s[..|s| - 1]) + [s[|s| - 1]]
  }

  function FormatId(channel: string, n: nat): string
  {
    channel + "-" + Decimal(n)
  }

  /** The number by which messages are ordered; None is the parse failure that panics. */
  function NumericId(messageId: string): Option<nat>
  {
    ParseNumber(AfterLastDash(messageId))
  }

  lemma DigitReads(d: nat)
    requires d < 10
    ensures DIGITS[d] in DIGITS && DigitValue(DIGITS[d]) == d
  {
  }

  lemma {:induction false} DecimalParses(n: nat)
    ensures ParseDigits(Decimal(n)) == Some(n)
  {
    var s := Decimal(n);
    DigitReads(n % 10);
    if n >= 10 {
      DecimalParses(n / 10);
      ParseSnoc(Decimal(n / 10), n / 10, DIGITS[n % 10]);
    } else {
      ParseSnoc("", 0, DIGITS[n]);
      assert "" + [DIGITS[n]] == s;
    }
  }

  lemma ParseSnoc(front: string, v: nat, d: char)
    requires ParseDigits(front) == Some(v) && d in DIGITS
    ensures ParseDigits(front + [d]) == Some(10 * v + DigitValue(d))
  {
    assert (front + [d])[..|front|] == front;
  }

  lemma {:induction false} SuffixAfterDash(prefix: string, tail: string)
    requires '-' !in tail
    ensures AfterLastDash(prefix + "-" + tail) == tail
  {
    var s := prefix + "-" + tail;
    if tail != [] {
      var n := |tail| - 1;
      assert s[|s| - 1] == tail[n];
      assert s[..|s| - 1] == prefix + "-" + tail[..n];
      SuffixAfterDash(prefix, tail[..n]);
      assert tail == tail[..n] + [tail[n]];
    }
  }

  lemma {:induction false} WholeWithoutDash(s: string)
    requires '-' !in s
    ensures AfterLastDash(s) == s
  {
    if s != [] { WholeWithoutDash(s[..|s| - 1]); }
  }

  /** Whatever dashes the channel name holds, the number read back is the number printed. */
  lemma FormatParses(channel: string, n: nat)
    ensures NumericId(FormatId(channel, n)) == Some(n)
  {
    DecimalParses(n);
    SuffixAfterDash(channel, Decimal(n));
    assert Decimal(n)[0] in DIGITS;
  }

  /** A number below ten prints as its digit, a larger one as digits of which the first is not zero. */
  lemma {:induction false} DecimalIsPlain(n: nat)
    ensures n < 10 ==> Decimal(n) == ["0123456789"[n]]
    ensures n >= 10 ==> |Decimal(n)| > 1 && Decimal(n)[0] != '0'
  {
    if n >= 10 { DecimalIsPlain(n / 10); }
  }

  function Zeros(z: nat): string
  {
    seq(z, i => '0')
  }

  lemma {:induction false} ZerosParse(z: nat)
    ensures ParseDigits(Zeros(z)) == Some(0)
  {
    if z > 0 {
      ZerosParse(z - 1);
      assert Zeros(z)[..z - 1] == Zeros(z - 1);
    }
  }

  lemma {:induction false} LeadingZeros(z: nat, tail: string)
    ensures ParseDigits(Zeros(z) + tail) == ParseDigits(tail)
  {
    if tail == [] {
      ZerosParse(z);
      assert Zeros(z) + tail == Zeros(z);
    } else {
      var front := tail[..|tail| - 1];
      LeadingZeros(z, front);
      var s := Zeros(z) + tail;
      assert s[..|s| - 1] == Zeros(z) + front && s[|s| - 1] == tail[|tail| - 1];
    }
  }

  lemma DigitPrints(d: char)
    requires d in DIGITS
    ensures DigitValue(d) < 10 && DIGITS[DigitValue(d)] == d
  {
  }

  /** One more digit: it follows a number, or takes the place of a single zero. */
  lemma DecimalSnoc(v: nat, d: nat)
    requires d < 10
    ensures Decimal(10 * v + d) == if v == 0 then [DIGITS[d]] else Decimal(v) + [DIGITS[d]]
  {
    assert (10 * v + d) / 10 == v && (10 * v + d) % 10 == d;
  }

  lemma {:induction false} DigitsAreDecimal(s: string, n: nat) returns (z: nat)
    requires s != [] && ParseDigits(s) == Some(n)
    ensures s == Zeros(z) + Decimal(n)
  {
    var front, d := s[..|s| - 1], s[|s| - 1];
    var v := ParseDigits(front).value;
    assert s == front + [d];
    DigitPrints(d);
    DecimalSnoc(v, DigitValue(d));
    if front == [] {
      z := 0;
    } else {
      z := DigitsAreDecimal(front, v);
      if v == 0 {
        ZerosSnoc(z);
        z := z + 1;
      } else {
        assert Zeros(z) + Decimal(v) + [d] == Zeros(z) + (Decimal(v) + [d]);
      }
    }
  }

  lemma ZerosSnoc(z: nat)
    ensures Zeros(z) + Decimal(0) == Zeros(z + 1)
  {
  }

  lemma SignIgnored(digits: string)
    requires digits != [] && digits[0] in DIGITS
    ensures ParseNumber(digits) == ParseDigits(digits) && ParseNumber("+" + digits) == ParseDigits(digits)
  {
    assert ("+" + digits)[1..] == digits;
  }

  lemma PrintedReads(z: nat, n: nat)
    ensures ParseNumber(Zeros(z) + Decimal(n)) == Some(n) && ParseNumber("+" + Zeros(z) + Decimal(n)) == Some(n)
  {
    DecimalParses(n);
    LeadingZeros(z, Decimal(n));
    SignIgnored(Zeros(z) + Decimal(n));
    Associative("+", Zeros(z), Decimal(n));
  }

  lemma Associative(a: string, b: string, c: string)
    ensures a + b + c == a + (b + c)
  {
  }

  lemma ReadIsPrinted(s: string, n: nat) returns (z: nat)
    requires ParseNumber(s) == Some(n)
    ensures s == Zeros(z) + Decimal(n) || s == "+" + Zeros(z) + Decimal(n)
  {
    if s[0] == '+' {
      z := DigitsAreDecimal(s[1..], n);
      assert s == "+" + s[1..];
      Associative("+", Zeros(z), Decimal(n));
    } else {
      z := DigitsAreDecimal(s, n);
    }
  }

  /** A number is read from exactly the texts that are its decimal, with any zeros and at most one '+' before it. */
  lemma NumberReads(s: string, n: nat)
    ensures ParseNumber(s) == Some(n)
       <==> exists z: nat :: s == Zeros(z) + Decimal(n) || s == "+" + Zeros(z) + Decimal(n)
  {
    if ParseNumber(s) == Some(n) {
      var z := ReadIsPrinted(s, n);
    }
    if z: nat :| s == Zeros(z) + Decimal(n) || s == "+" + Zeros(z) + Decimal(n) {
      PrintedReads(z, n);
    }
  }

  /** Ids as a client sees them. */
  lemma FormatExamples(channel: string)
    ensures FormatId(channel, 0) == channel + "-0" && FormatId(channel, 7) == channel + "-7"
    ensures FormatId(channel, 10) == channel + "-10" && FormatId(channel, 2023) == channel + "-2023"
  {
    assert Decimal(20) == "20" && Decimal(202) == "202" && Decimal(2023) == "2023";
  }

  /** No two (channel, number) pairs of the system share an id. */
  lemma FormatInjective(c1: string, n1: nat, c2: string, n2: nat)
    requires FormatId(c1, n1) == FormatId(c2, n2)
    ensures c1 == c2 && n1 == n2
  {
    FormatParses(c1, n1);
    FormatParses(c2, n2);
    assert c1 == FormatId(c1, n1)[..|c1|];
    assert c2 == FormatId(c2, n2)[..|c2|];
  }
}
