/** The display names of elements: a letter for the kind followed by the
    element's display number written in decimal, as `str` writes an integer. */
module Names {
  import opened CircuitValues

  predicate IsDigit(ch: char) {
    '0' <= ch <= '9'
  }

  predicate AllDigits(s: string) {
    forall i :: 0 <= i < |s| ==> IsDigit(s[i])
  }

  function DigitChar(d: nat): (ch: char)
    requires d < 10
    ensures IsDigit(ch) && ch as int - '0' as int == d
  {
    ('0' as int + d) as char
  }

  /** The decimal numeral of `n`, without leading zeros. */
  function NatToDecimal(n: nat): (s: string)
    ensures |s| >= 1 && AllDigits(s)
    ensures (|s| == 1) == (n < 10)
    ensures (s[0] == '0') == (n == 0)
    decreases n
  {
    if n < 10 then [DigitChar(n)] else NatToDecimal(n / 10) + [DigitChar(n % 10)]
  }

  /** The number a string of digits denotes. */
  function DecimalValue(s: string): nat
    requires AllDigits(s)
    decreases |s|
  {
    if s == [] then 0 else DecimalValue(s[..|s| - 1]) * 10 + (s[|s| - 1] as int - '0' as int)
  }

  lemma {:induction false} NatToDecimalRoundTrip(n: nat)
    ensures DecimalValue(NatToDecimal(n)) == n
    decreases n
  {
    if n >= 10 {
      var s := NatToDecimal(n);
      assert s[..|s| - 1] == NatToDecimal(n / 10);
      NatToDecimalRoundTrip(n / 10);
    }
  }

  /** The decimal numeral of any integer, with a leading '-' when negative. */
  function IntToDecimal(i: int): (s: string)
    ensures |s| >= 1
  {
    if i < 0 then "-" + NatToDecimal(-i) else NatToDecimal(i)
  }

  /** Reads back a numeral `IntToDecimal` writes. */
  function ParseInt(s: string): int
    requires |s| >= 1 && (s[0] == '-' || AllDigits(s)) && (s[0] == '-' ==> AllDigits(s[1..]))
  {
    if s[0] == '-' then -(DecimalValue(s[1..]) as int) else DecimalValue(s)
  }

  lemma IntToDecimalRoundTrip(i: int)
    ensures var s := IntToDecimal(i);
      (s[0] == '-' || AllDigits(s)) && (s[0] == '-' ==> AllDigits(s[1..])) && ParseInt(s) == i
  {
    var s := IntToDecimal(i);
    if i < 0 {
      var t := NatToDecimal(-i);
      assert s == "-" + t && s[1..] == t;
      NatToDecimalRoundTrip(-i);
      assert ParseInt(s) == -(DecimalValue(t) as int);
    } else {
      assert s == NatToDecimal(i) && IsDigit(s[0]);
      NatToDecimalRoundTrip(i);
    }
  }

  /** `getName`: "R" and the display number for a resistor, "V" and the
      display number for a voltage source. */
  function ElementName(e: Element): (name: string)
    ensures |name| >= 2 && name[0] == (if e.kind.Resistor? then 'R' else 'V')
    ensures name[1..] == IntToDecimal(e.index)
  {
    (if e.kind.Resistor? then "R" else "V") + IntToDecimal(e.index)
  }

  /** Two elements have the same name exactly when they are of the same kind
      and carry the same display number. */
  lemma NamesIdentify(e1: Element, e2: Element)
    ensures ElementName(e1) == ElementName(e2)
      <==> e1.kind.Resistor? == e2.kind.Resistor? && e1.index == e2.index
  {
    if ElementName(e1) == ElementName(e2) {
      assert ElementName(e1)[1..] == ElementName(e2)[1..];
      IntToDecimalRoundTrip(e1.index);
      IntToDecimalRoundTrip(e2.index);
    }
  }
}
