/**
 * The simulated payment gateways (`processPaymentMethod` and the
 * `simulate*Payment` functions, js/addFunds.js lines 294-355): the value each
 * gateway's promise resolves with. The delays are left out.
 */
module Payment {
  import opened Text
  import opened Formatters

  datatype Gateway = Card | Dana | GoPay | Ovo | ShopeePay | BankTransfer | Unlisted

  /** The test card prefix the card gateway declines (line 318). */
  const DeclinedPrefix := "4111"

  /** The `switch` of processPaymentMethod (lines 295-310). */
  function GatewayFor(payment: string): (g: Gateway)
    ensures g == Card <==> payment == "card"
    ensures g == Unlisted <==> payment !in {"card", "dana", "gopay", "ovo", "shopeepay", "bank"}
  {
    if payment == "card" then Card
    else if payment == "dana" then Dana
    else if payment == "gopay" then GoPay
    else if payment == "ovo" then Ovo
    else if payment == "shopeepay" then ShopeePay
    else if payment == "bank" then BankTransfer
    else Unlisted
  }

  /** What a gateway resolves with: the card gateway declines a number whose
      whitespace-free text starts with 4111 (lines 317-321); every other
      gateway, and the default branch, approves (lines 309, 327-355). */
  function Approves(g: Gateway, cardNumber: string): (ok: bool)
    ensures g != Card ==> ok
    ensures !ok ==> StartsWith(RemoveSpaces(cardNumber), DeclinedPrefix)
  {
    match g
    case Card => !StartsWith(RemoveSpaces(cardNumber), DeclinedPrefix)
    case _ => true
  }

  /** The resolved value of `processPaymentMethod(payment)` with the card field
      holding `cardNumber` when the gateway resolves. */
  function PaymentSucceeds(payment: string, cardNumber: string): (ok: bool)
    ensures !ok <==> payment == "card" && StartsWith(RemoveSpaces(cardNumber), DeclinedPrefix)
  {
    Approves(GatewayFor(payment), cardNumber)
  }

  /** With the card field holding the formatted text of what was typed, an
      attempt fails exactly when the payment method is card and the typed digits begin
      with 4111; every other method succeeds whatever the card field holds. */
  lemma DeclinedTypedCard(payment: string, typed: string)
    ensures PaymentSucceeds(payment, FormatCardNumber(typed)) <==>
      !(payment == "card" && StartsWith(Digits(typed), DeclinedPrefix))
  {
    CardNumberShape(typed);
    var d, e := Digits(typed), CardDigits(typed);
    if |e| >= |DeclinedPrefix| {
      assert e[..4] == d[..4];
    } else {
      assert e == d;
    }
  }
}
