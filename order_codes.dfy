/** The human-readable order code of index.js: "BKS" followed by the decimal
    order id left-padded with "0" to six digits (`String(id).padStart(6, "0")`).
    A parser for such codes is the inverse that shows no two ids share a code. */
module OrderCodes {
  import opened Shared

  const Prefix: string := "BKS"
  const Width: nat := 6

  predicate IsDigit(c: char) {
    '0' <= c <= '9'
  }

  predicate AllDigits(s: string) {
    forall i :: 0 <= i < |s| ==> IsDigit(s[i])
  }

  function DigitChar(d: nat): (c: char)
    requires d < 10
    ensures IsDigit(c) && (c as int) - ('0' as int) == d
  {
    (('0' as int) + d) as char
  }

  /** `String(n)` for a non-negative integer: its decimal digits, no leading zero. */
  function DecimalString(n: nat): (s: string)
    ensures |s| >= 1 && AllDigits(s)
    ensures n >= 10 <==> |s| >= 2
    ensures n > 0 ==> s[0] != '0'
    ensures DigitsValue(s) == n
    decreases n
  {
    if n < 10 then [DigitChar(n)]
    else
      var init := DecimalString(n / 10);
      var s := init + [DigitChar(n % 10)];
      assert s[..|s| - 1] == init;
      s
  }

  /** `s.padStart(width, fill)` */
  function PadStart(s: string, width: nat, fill: char): (r: string)
    ensures |r| == if |s| < width then width else |s|
    ensures r[|r| - |s|..] == s
    ensures forall i :: 0 <= i < |r| - |s| ==> r[i] == fill
  {
    if |s| >= width then s else seq(width - |s|, _ => fill) + s
  }

  /** `"BKS" + String(orderId).padStart(6, "0")` */
  function OrderCode(orderId: nat): string {
    Prefix + PadStart(DecimalString(orderId), Width, '0')
  }

  /** The number a string of decimal digits denotes (leading zeros allowed). */
  function DigitsValue(s: string): nat
    requires AllDigits(s)
  {
    if s == [] then 0
    else 10 * DigitsValue(s[..|s| - 1]) + ((s[|s| - 1] as int) - ('0' as int))
  }

  /** Reads an order code back: "BKS" and at least one digit, nothing else. */
  function ParseOrderCode(code: string): Option<nat> {
    if |code| > |Prefix| && code[..|Prefix|] == Prefix && AllDigits(code[|Prefix|..])
    then Some(DigitsValue(code[|Prefix|..]))
    else None
  }

  lemma {:induction false} LeadingZerosValue(zeros: nat, s: string)
    requires AllDigits(s)
    ensures AllDigits(seq(zeros, _ => '0') + s)
    ensures DigitsValue(seq(zeros, _ => '0') + s) == DigitsValue(s)
    decreases |s|
  {
    var z := seq(zeros, _ => '0');
    if s == [] {
      assert z + s == z;
      ZerosValue(zeros);
    } else {
      LeadingZerosValue(zeros, s[..|s| - 1]);
      assert (z + s)[..|z + s| - 1] == z + s[..|s| - 1];
    }
  }

  lemma {:induction false} ZerosValue(zeros: nat)
    ensures AllDigits(seq(zeros, _ => '0'))
    ensures DigitsValue(seq(zeros, _ => '0')) == 0
    decreases zeros
  {
    if zeros > 0 {
      ZerosValue(zeros - 1);
      assert seq(zeros, _ => '0')[..zeros - 1] == seq(zeros - 1, _ => '0');
    }
  }

  /** Every order id can be read back from its code. */
  lemma OrderCodeRoundTrip(orderId: nat)
    ensures ParseOrderCode(OrderCode(orderId)) == Some(orderId)
  {
    var digits := DecimalString(orderId);
    var padded := PadStart(digits, Width, '0');
    var code := OrderCode(orderId);
    assert code[..|Prefix|] == Prefix && code[|Prefix|..] == padded;
    if |digits| < Width {
      assert padded == seq(Width - |digits|, _ => '0') + digits;
      LeadingZerosValue(Width - |digits|, digits);
    }
  }

  /** Distinct order ids never share a code. */
  lemma OrderCodeInjective(a: nat, b: nat)
    requires OrderCode(a) == OrderCode(b)
    ensures a == b
  {
    OrderCodeRoundTrip(a);
    OrderCodeRoundTrip(b);
  }

  /** Up to 999999 a code is exactly "BKS" and six digits. */
  lemma OrderCodeShape(orderId: nat)
    requires orderId < 1000000
    ensures |OrderCode(orderId)| == |Prefix| + Width
    ensures OrderCode(orderId)[..|Prefix|] == Prefix
    ensures AllDigits(OrderCode(orderId)[|Prefix|..])
  {
    DigitCount(orderId, 1000000, Width);
  }

  /** A number below 10^k has at most k decimal digits. */
  lemma {:induction false} DigitCount(n: nat, bound: nat, k: nat)
    requires k >= 1 && bound == Power10(k) && n < bound
    ensures |DecimalString(n)| <= k
    decreases k
  {
    if n >= 10 {
      assert k >= 2;
      DigitCount(n / 10, Power10(k - 1), k - 1);
    }
  }

  function Power10(k: nat): nat {
    if k == 0 then 1 else 10 * Power10(k - 1)
  }

  /** The first order's code. */
  lemma FirstOrderCode()
    ensures OrderCode(1) == "BKS000001"
  {
  }
}
