/** The numeric side of the seven-segment readouts: the zero-padded digit
    string of a gauge value, which of its digits are drawn dimmed as leading
    zeros, and the split of the odometer into six whole digits and a tenth. */
module DigitDisplay {
  import opened Common
  import opened Text

  /** Python's `int(x)` on a float: truncation toward zero. */
  function PyInt(x: real): (n: int)
    ensures x >= 0.0 ==> n == x.Floor
    ensures n as real <= x < n as real + 1.0 || (x < 0.0 && n as real - 1.0 < x <= n as real)
  {
    if x >= 0.0 then x.Floor else -((-x).Floor)
  }

  /** A digit is dimmed exactly when it and every digit before it are zeros
      and it is not the last one: the reference definition of the mask. */
  predicate IsLeadingZero(s: string, i: nat)
    requires i < |s|
  {
    i < |s| - 1 && forall j :: 0 <= j <= i ==> s[j] == '0'
  }

  /** The digit string and dimming mask `draw_multi_digit_display` computes
      for a value whose `int()` is `value`. */
  method LeadingZeroMask(value: nat, numDigits: nat) returns (digits: string, dimmed: seq<bool>)
    ensures digits == ZeroPad(value, numDigits)
    ensures |dimmed| == |digits|
    ensures forall i :: 0 <= i < |digits| ==> (dimmed[i] <==> IsLeadingZero(digits, i))
  {
    digits := ZeroPad(value, numDigits);
    var firstNonZero := |digits|;
    var i := 0;
    while i < |digits|
      invariant 0 <= i <= |digits|
      invariant forall j :: 0 <= j < i ==> digits[j] == '0'
      invariant firstNonZero == |digits|
    {
      if digits[i] != '0' {
        firstNonZero := i;
        break;
      }
      i := i + 1;
    }
    if firstNonZero == |digits| {
      firstNonZero := |digits| - 1;
    }
    dimmed := [];
    var k := 0;
    while k < |digits|
      invariant 0 <= k <= |digits|
      invariant |dimmed| == k
      invariant forall j :: 0 <= j < k ==> (dimmed[j] <==> IsLeadingZero(digits, j))
      invariant firstNonZero < |digits|
      invariant forall j :: 0 <= j < firstNonZero ==> digits[j] == '0'
      invariant digits[firstNonZero] != '0' || firstNonZero == |digits| - 1
    {
      dimmed := dimmed + [k < firstNonZero && digits[k] == '0'];
      k := k + 1;
    }
  }

  /** The odometer readout: the whole miles, to be shown as at least six
      digits, and the tenths digit; a missing or negative total shows zero. */
  function OdometerSplit(total: Option<real>): (r: (nat, nat))
    ensures r.1 < 10
    ensures var t := if total.None? || total.value < 0.0 then 0.0 else total.value;
            r.0 == t.Floor && r.0 * 10 + r.1 == (t * 10.0).Floor
  {
    var t := if total.None? || total.value < 0.0 then 0.0 else total.value;
    var whole := t.Floor;
    var tenth := ((t - whole as real) * 10.0).Floor;
    TenthsOfFraction(t);
    (whole, tenth)
  }

  lemma TenthsOfFraction(t: real)
    requires t >= 0.0
    ensures var f := t.Floor; var d := ((t - f as real) * 10.0).Floor;
            0 <= d < 10 && f * 10 + d == (t * 10.0).Floor
  {
    var f := t.Floor;
    var r := t - f as real;
    assert 0.0 <= r < 1.0;
    var d := (r * 10.0).Floor;
    assert t * 10.0 == (f * 10) as real + r * 10.0;
    assert (f * 10 + d) as real <= t * 10.0 < (f * 10 + d + 1) as real;
  }

  /** The six-digit whole-miles string denotes the whole miles. */
  lemma OdometerDigits(total: Option<real>)
    ensures var s := ZeroPad(OdometerSplit(total).0, 6);
            |s| >= 6 && DigitsValue(s) == OdometerSplit(total).0
  {
    ZeroPadValue(OdometerSplit(total).0, 6);
  }
}
