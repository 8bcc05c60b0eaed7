/**
 * The form validator (`validateForm`, js/addFunds.js lines 137-151): whether
 * the "add funds" button is enabled for the current amount, payment method
 * and card fields.
 */
module Validation {
  import opened Text
  import opened Formatters

  /** Minimum top-up, Rp 10,000 (line 139). */
  const MinTopUp := 10000
  const CardNumberMinDigits := 13
  const ExpiryLength := 5
  const CvvMinLength := 3
  const NameMinLength := 2

  /** `isValid` of validateForm (lines 139-147): the amount reaches the minimum
      and, for the card method only, the four card fields pass their checks.
      For any other method the card fields do not matter. */
  function IsValid(amount: nat, payment: string, cardNumber: string, expiry: string, cvv: string, name: string): (r: bool)
    ensures r ==> amount >= MinTopUp
    ensures payment != "card" ==> (r <==> amount >= MinTopUp)
  {
    amount >= MinTopUp &&
    (payment == "card" ==>
      |RemoveSpaces(cardNumber)| >= CardNumberMinDigits &&
      |expiry| == ExpiryLength &&
      |cvv| >= CvvMinLength &&
      |Trim(name)| >= NameMinLength)
  }

  /** Validity in terms of what the user typed, the card fields holding their
      formatted texts: at least 13 card digits, at least 4 expiry digits, at
      least 3 CVV digits and a name of at least 2 characters once trimmed; a
      valid card form then has its expiry in `MM/YY` shape. */
  lemma ValidityOfTypedFields(amount: nat, payment: string, number: string, expiry: string, cvv: string, name: string)
    ensures IsValid(amount, payment, FormatCardNumber(number), FormatExpiry(expiry), Digits(cvv), name) <==>
      amount >= MinTopUp &&
      (payment == "card" ==>
        |Digits(number)| >= CardNumberMinDigits &&
        |Digits(expiry)| >= ExpiryMaxDigits &&
        |Digits(cvv)| >= CvvMinLength &&
        |Trim(name)| >= NameMinLength)
    ensures IsValid(amount, payment, FormatCardNumber(number), FormatExpiry(expiry), Digits(cvv), name) && payment == "card" ==>
      IsMonthYear(FormatExpiry(expiry))
  {
    CardNumberShape(number);
    ExpiryComplete(expiry);
  }
}
