/**
 * Sessions on the add-funds page, driven through the controller's event
 * handlers. The locale's number formatter is stood in for by the plain
 * decimal numeral. Attempts settle by `Resolve`, as the code is written.
 */
module Scenarios {
  import opened Wrappers
  import opened Text
  import opened Formatters
  import opened Validation
  import opened Payment
  import opened BalanceStore
  import opened AddFunds

  /** An example catalogue of preset amounts; the page's own `data-amount`
      values live in its markup, which is not part of this model. */
  const Presets: seq<nat> := [10000, 25000, 50000, 100000]

  /** Loading the page over a storage whose slot holds `start`, choosing the
      `k`-th preset (at least the minimum) and a wallet, then paying: the
      balance grows by the preset, the slot holds it and the form is reset,
      yet the button is left enabled on the emptied form, whose amount is 0. */
  method PresetTopUpByWallet(presets: seq<nat>, k: nat, wallet: string, store: map<string, string>, start: nat)
    returns (balance: nat, stored: Option<nat>, notice: Notice, enabled: bool, amount: nat)
    requires k < |presets| && presets[k] >= MinTopUp
    requires wallet != "card" && LoadBalance(store) == Some(start)
    ensures balance == start + presets[k] && stored == Some(balance) && notice == Added
    ensures enabled && amount == 0
  {
    var c := new Controller(presets, DecimalString, store);
    c.OnPaymentChange(wallet);
    c.OnPresetClick(k);
    assert !c.disabled && c.pending == [];
    c.Click();
    ghost var f := c.State();
    assert f.pending == [wallet] && f.balance == start && f.selectedAmount == presets[k] && Synced(f);
    assert Commits(f, 0, false);
    ResolvedSettles(f, 0, false);
    ResolvedEnablesInvalidForm(f, 0);
    c.Resolve(0, false);
    balance, stored, notice, enabled, amount := c.balance, LoadBalance(c.store), c.notice, !c.disabled, c.selectedAmount;
  }

  /** Typing 7500 into the custom field keeps the button disabled: the amount
      is below the Rp 10,000 minimum. */
  method BelowMinimumStaysDisabled() returns (amount: nat, disabled: bool)
    ensures amount == 7500 && disabled
  {
    var c := new Controller(Presets, DecimalString, map[]);
    c.OnPaymentChange("gopay");
    TypedAmountValue();
    c.OnCustomInput("7500");
    amount, disabled := c.selectedAmount, c.disabled;
  }

  /** The amount read from the typed text 7500. */
  lemma TypedAmountValue()
    ensures CustomAmount("7500") == 7500
  {
    var s := "7500";
    assert "7"[..0] == [] && DecimalValue("7") == 7;
    assert "75"[..1] == "7" && DecimalValue("75") == 75;
    assert "750"[..2] == "75" && DecimalValue("750") == 750;
    assert s[..3] == "750" && DecimalValue(s) == 7500;
    CustomAmountCapped(s);
  }

  /** While a wallet attempt is in flight, a click on another preset re-runs
      the validator and re-enables the button, so a second attempt can start
      before the first settles. */
  method SecondAttemptWhileInFlight() returns (inFlight: nat)
    ensures inFlight == 2
  {
    var c := new Controller(Presets, DecimalString, map[]);
    c.OnPaymentChange("ovo");
    c.OnPresetClick(3);
    c.Click();
    assert |c.pending| == 1 && c.disabled;
    c.OnPresetClick(2);
    assert !c.disabled;
    c.Click();
    inFlight := |c.pending|;
  }

  /** The whole text 150000000 entering the custom field in one input event
      (a paste): the clamp sees a bare numeral and replaces it by the ceiling,
      so the amount is Rp 100,000,000. Typed digit by digit, the field would
      already show grouped text, which escapes the clamp
      (`Formatters.GroupedAboveCeiling`). */
  method AmountAboveCeiling() returns (amount: nat, shown: string)
    ensures amount == MaxCustomAmount && shown == DecimalString(MaxCustomAmount)
  {
    var c := new Controller(Presets, DecimalString, map[]);
    var typed := DecimalString(150000000);
    AboveCeilingPasted(150000000);
    c.OnCustomInput(typed);
    amount, shown := c.selectedAmount, c.customText;
  }

  /** The amount and field text for a field text of digits alone, the
      numeral of an amount above the ceiling. */
  lemma AboveCeilingPasted(n: nat)
    requires n > MaxCustomAmount
    ensures CustomAmount(DecimalString(n)) == MaxCustomAmount
    ensures CustomFieldText(DecimalString(n), DecimalString) == DecimalString(MaxCustomAmount)
  {
    DecimalRoundTrip(n);
    DecimalRoundTrip(MaxCustomAmount);
    CustomAmountCapped(DecimalString(n));
    DigitsOfDigits(DecimalString(MaxCustomAmount));
  }

  /** A 16-digit card number beginning with 4111 (the test card 4111 1111 1111
      1111 among them), a 4-digit expiry, a 3-digit CVV and a name: with a
      Rp 50,000 amount the form is valid, and the card gateway declines. */
  lemma TestCardFields(number: string, expiry: string, cvv: string, name: string)
    requires AllDigits(number) && |number| == 16 && number[..4] == DeclinedPrefix
    requires AllDigits(expiry) && |expiry| == 4
    requires AllDigits(cvv) && |cvv| == 3
    requires |Trim(name)| >= NameMinLength
    ensures IsValid(50000, "card", FormatCardNumber(number), FormatExpiry(expiry), Digits(cvv), name)
    ensures !PaymentSucceeds("card", FormatCardNumber(number))
  {
    DigitsOfDigits(number);
    DigitsOfDigits(expiry);
    DigitsOfDigits(cvv);
    ValidityOfTypedFields(50000, "card", number, expiry, cvv, name);
    DeclinedTypedCard("card", number);
  }

  /** Clicking the enabled button of an idle, valid form whose method and
      card number the gateway declines: once the attempt settles, the balance
      and amount are kept, the notice reports the failure and the button is
      enabled again. */
  method SubmitDeclined(c: Controller) returns (balance: nat, notice: Notice, enabled: bool, amount: nat)
    requires c.Valid() && !c.disabled && c.pending == [] && !PaymentSucceeds(c.payment, c.cardNumber)
    modifies c, c.selected
    ensures balance == old(c.balance) && notice == Failed && enabled && amount == old(c.selectedAmount)
  {
    c.Click();
    ghost var f := c.State();
    assert f.pending == [f.payment];
    ResolvedSettles(f, 0, false);
    c.Resolve(0, false);
    balance, notice, enabled, amount := c.balance, c.notice, !c.disabled, c.selectedAmount;
  }
}
