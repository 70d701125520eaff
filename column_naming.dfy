/**
 * The name of the column that the processor writes the moving average to:
 * the method name in upper case, an underscore, and the window in decimal.
 */
module ColumnNaming {
  import opened MovingAverage

  /** An ASCII decimal digit. */
  predicate IsDigit(c: char)
  {
    '0' <= c <= '9'
  }

  /** The digit character for `d`. */
  function DigitChar(d: nat): (c: char)
    requires d < 10
    ensures IsDigit(c)
  {
    ('0' as int + d) as char
  }

  /** The value of a digit character. */
  function DigitValue(c: char): nat
    requires IsDigit(c)
  {
    c as int - '0' as int
  }

  /** `str(n)` for a non-negative integer: its decimal digits, with no leading zero. */
  function Decimal(n: nat): (s: string)
    ensures |s| >= 1
    ensures forall k :: 0 <= k < |s| ==> IsDigit(s[k])
    ensures s[0] == '0' ==> n == 0
    decreases n
  {
    if n < 10 then [DigitChar(n)] else Decimal(n / 10) + [DigitChar(n % 10)]
  }

  /** `int(s)` for a string of decimal digits. */
  function ParseDecimal(s: string): nat
    requires forall k :: 0 <= k < |s| ==> IsDigit(s[k])
  {
    if s == [] then 0 else 10 * ParseDecimal(s[..|s| - 1]) + DigitValue(s[|s| - 1])
  }

  /** Reading the decimal name of a window back gives the window. */
  lemma {:induction false} DecimalRoundTrip(n: nat)
    ensures ParseDecimal(Decimal(n)) == n
    decreases n
  {
    if n >= 10 {
      DecimalRoundTrip(n / 10);
      var s := Decimal(n);
      assert s[..|s| - 1] == Decimal(n / 10);
    }
  }

  /** `c.upper()` for an ASCII letter; any other character is kept. */
  function UpperChar(c: char): char
  {
    if 'a' <= c <= 'z' then (c as int - 32) as char else c
  }

  /** `s.upper()` on ASCII text. */
  function Upper(s: string): (r: string)
    ensures |r| == |s|
    ensures forall k :: 0 <= k < |s| ==> r[k] == UpperChar(s[k])
  {
    seq(|s|, k requires 0 <= k < |s| => UpperChar(s[k]))
  }

  /** `f"{ma_method.upper()}_{window_size}"`. */
  function ColumnName(maMethod: string, window: nat): (r: string)
    ensures |r| > |maMethod| && r[|maMethod|] == '_'
    ensures r[..|maMethod|] == Upper(maMethod)
    ensures r[|maMethod| + 1..] == Decimal(window)
  {
    Upper(maMethod) + "_" + Decimal(window)
  }

  /** The column for a 3-period simple moving average is named `SMA_3`. */
  lemma SmaColumnName()
    ensures ColumnName("sma", 3) == "SMA_3"
  {
    assert Upper("sma") == "SMA";
  }

  /** The four method names stay distinct once upper-cased. */
  lemma UpperMethodNamesDistinct(m1: string, m2: string)
    requires IsMethodName(m1) && IsMethodName(m2)
    requires Upper(m1) == Upper(m2)
    ensures m1 == m2
  {
    assert Upper("sma") == "SMA" && Upper("ema") == "EMA" && Upper("wma") == "WMA" && Upper("hma") == "HMA";
  }

  /**
   * Two requests with known method names write to the same column only when
   * they ask for the same method and the same window.
   */
  lemma ColumnNameInjective(m1: string, w1: nat, m2: string, w2: nat)
    requires IsMethodName(m1) && IsMethodName(m2)
    requires ColumnName(m1, w1) == ColumnName(m2, w2)
    ensures m1 == m2 && w1 == w2
  {
    var name := ColumnName(m1, w1);
    assert |m1| == 3 && |m2| == 3;
    assert Upper(m1) == name[..3] == Upper(m2);
    UpperMethodNamesDistinct(m1, m2);
    assert Decimal(w1) == name[4..] == Decimal(w2);
    DecimalRoundTrip(w1);
    DecimalRoundTrip(w2);
  }
}
