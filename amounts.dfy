/**
 * The guards on a typed top-up amount (handlers/handlers.py):
 * process_yoo_amount for roubles and topup_crypto_amount for dollars.
 * Python's float() is a parameter: it maps a text to a double or to None
 * where it raises ValueError. Doubles are kept as their class (finite,
 * NaN, an infinity) so that the comparisons behave as IEEE 754 says.
 */
module Amounts {
  import opened Wrappers
  import opened Text

  datatype FloatValue = Finite(x: real) | NaN | PosInf | NegInf

  /** `v < bound`: false for NaN. */
  predicate Below(v: FloatValue, bound: real) {
    match v
    case Finite(x) => x < bound
    case NaN => false
    case PosInf => false
    case NegInf => true
  }

  /** `v <= bound`: false for NaN. */
  predicate AtMost(v: FloatValue, bound: real) {
    match v
    case Finite(x) => x <= bound
    case NaN => false
    case PosInf => false
    case NegInf => true
  }

  /** What a guard does with the typed text. */
  datatype Verdict =
    | Blank                    // "enter a correct amount", nothing parsed
    | NotANumber               // float() raised ValueError
    | Rejected(value: FloatValue) // below the minimum: asked again
    | Proceed(value: FloatValue)  // passed on to the payment gateway
    | Crash                    // float(None) raises TypeError, which nothing catches

  /** `s.replace(',', '.')` */
  function CommaToDot(s: string): (r: string)
    ensures |r| == |s| && ',' !in r
    ensures forall i :: 0 <= i < |s| && s[i] != ',' ==> r[i] == s[i]
    ensures forall i :: 0 <= i < |s| && s[i] == ',' ==> r[i] == '.'
  {
    if s == [] then []
    else [if s[0] == ',' then '.' else s[0]] + CommaToDot(s[1..])
  }

  /** The minimum top-up through YooKassa, in roubles. */
  const MinimumRub: real := 2.0

  /**
   * process_yoo_amount: no text or whitespace only is refused before
   * parsing; otherwise the stripped text with ',' read as '.' is parsed and
   * anything below 2 refused. NaN and +inf compare false and go through.
   */
  function FiatAmountGuard(text: Option<string>, float: string -> Option<FloatValue>): (v: Verdict)
    ensures v.Blank? <==> text.None? || IsBlank(text.value)
    ensures v.Proceed? ==> !Below(v.value, MinimumRub) && Some(v.value) == float(CommaToDot(Strip(text.value)))
    ensures v.Rejected? ==> Below(v.value, MinimumRub)
    ensures !v.Crash?
    ensures text.Some? && !IsBlank(text.value) ==>
      var t := CommaToDot(Strip(text.value));
      (v.NotANumber? <==> float(t).None?) &&
      (float(t).Some? ==> v == (if Below(float(t).value, MinimumRub) then Rejected(float(t).value) else Proceed(float(t).value)))
  {
    if text.None? || text.value == [] || Strip(text.value) == [] then
      StripEmptyIffBlank(if text.None? then [] else text.value);
      Blank
    else
      StripEmptyIffBlank(text.value);
      match float(CommaToDot(Strip(text.value)))
      case None => NotANumber
      case Some(amount) => if Below(amount, MinimumRub) then Rejected(amount) else Proceed(amount)
  }

  /**
   * topup_crypto_amount: the raw text is parsed (float() strips whitespace
   * itself, and a comma makes it fail) and anything not above 0 refused.
   * A message without text crashes the handler.
   */
  function CryptoAmountGuard(text: Option<string>, float: string -> Option<FloatValue>): (v: Verdict)
    ensures v.Crash? <==> text.None?
    ensures v.Proceed? ==> !AtMost(v.value, 0.0) && Some(v.value) == float(text.value)
    ensures v.Rejected? ==> AtMost(v.value, 0.0)
    ensures !v.Blank?
    ensures text.Some? ==>
      (v.NotANumber? <==> float(text.value).None?) &&
      (float(text.value).Some? ==>
        v == (if AtMost(float(text.value).value, 0.0) then Rejected(float(text.value).value) else Proceed(float(text.value).value)))
  {
    match text
    case None => Crash
    case Some(t) =>
      match float(t)
      case None => NotANumber
      case Some(amount) => if AtMost(amount, 0.0) then Rejected(amount) else Proceed(amount)
  }

  /** "1,5" and "1.5" are the same amount to process_yoo_amount. */
  lemma CommaAndDotAgree(a: string, b: string)
    requires a == "1,5" && b == "1.5"
    ensures CommaToDot(a) == b
  {
    assert CommaToDot(a)[1] == '.';
  }
}
