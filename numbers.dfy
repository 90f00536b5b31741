/** JavaScript's `Number(v)` conversion, for the values the application feeds
    it (database cells, request fields). NaN is `None`. Strings are read as
    decimal text: white space is trimmed, the empty string is 0, and an
    optional sign, digits and an optional fraction are accepted. */
module Numbers {
  import opened Json
  import opened Text

  function DigitValue(c: char): (r: nat)
    requires IsDigit(c)
    ensures r < 10
  {
    (c as int) - ('0' as int)
  }

  /** The value of a run of decimal digits. */
  function DigitsValue(ds: string): (r: nat)
    requires forall i :: 0 <= i < |ds| ==> IsDigit(ds[i])
  {
    if ds == [] then 0
    else 10 * DigitsValue(ds[..|ds| - 1]) + DigitValue(ds[|ds| - 1])
  }

  predicate AllDigits(s: string) {
    forall i :: 0 <= i < |s| ==> IsDigit(s[i])
  }

  function Pow10(n: nat): (r: nat)
    ensures r >= 1
  {
    if n == 0 then 1 else 10 * Pow10(n - 1)
  }

  /** Unsigned decimal text: digits, optionally followed by `.` and more
      digits, with at least one digit in all. */
  function ParseUnsigned(s: string): (r: Option<real>)
    ensures r.Some? ==> r.value >= 0.0
  {
    match IndexOf(s, ".")
    case None =>
      if s != [] && AllDigits(s) then Some(DigitsValue(s) as real) else None
    case Some(p) =>
      var whole := s[..p];
      var frac := s[p + 1..];
      if AllDigits(whole) && AllDigits(frac) && (whole != [] || frac != []) then
        Some(DigitsValue(whole) as real + (DigitsValue(frac) as real) / (Pow10(|frac|) as real))
      else None
  }

  /** `Number(s)` for a string. */
  function StringToNumber(s: string): (r: Option<real>) {
    var t := Trim(s);
    if t == [] then Some(0.0)
    else if t[0] == '-' then
      match ParseUnsigned(t[1..])
      case Some(x) => Some(-x)
      case None => None
    else if t[0] == '+' then ParseUnsigned(t[1..])
    else ParseUnsigned(t)
  }

  /** `Number(v)`. */
  function JsNumber(v: Value): (r: Option<real>)
    ensures v.Num? ==> r == Some(v.n)
    ensures v.Undefined? || v.Obj? ==> r.None?
    ensures v.Null? ==> r == Some(0.0)
  {
    match v
    case Undefined => None
    case Null => Some(0.0)
    case Bool(b) => Some(if b then 1.0 else 0.0)
    case Num(n) => Some(n)
    case Str(s) => StringToNumber(s)
    case Arr(xs) => if xs == [] then Some(0.0) else None
    case Obj(_) => None
  }

  /** `Number(v) || 0`: NaN and zero both give 0. */
  function NumberOrZero(v: Value): real {
    OrZero(JsNumber(v))
  }

  /** The decimal digits of a natural number read back as that number. */
  lemma {:induction false} DigitsValueOfNat(n: nat)
    ensures DigitsValue(NatToString(n)) == n
  {
    if n >= 10 {
      DigitsValueOfNat(n / 10);
      var s := NatToString(n);
      assert s[..|s| - 1] == NatToString(n / 10);
    }
  }

  /** Printing a natural number and converting the text back is the identity. */
  lemma NumberOfNatToString(n: nat)
    ensures StringToNumber(NatToString(n)) == Some(n as real)
  {
    var s := NatToString(n);
    assert NoSpace(s) by {
      forall i | 0 <= i < |s| ensures !IsSpace(s[i]) {
        assert IsDigit(s[i]);
      }
    }
    forall j | 0 <= j ensures !OccursAt(s, ".", j) {
      if j + 1 <= |s| {
        assert s[j..j + 1] == [s[j]];
        assert IsDigit(s[j]);
      }
    }
    DigitsValueOfNat(n);
  }
}
