/**
 * The add-funds controller (js/addFunds.js): the page's variables
 * (`selectedAmount`, `currentBalance`), the field values, the preset buttons'
 * `selected` class, the button's `disabled` flag and the balance slot, and the
 * event handlers that change them. The payment attempt is split at its
 * `await`: `Click` runs up to it, `Resolve` runs the rest when the gateway's
 * promise settles, so that input events can happen in between.
 */
module AddFunds {
  import opened Wrappers
  import opened Text
  import opened Formatters
  import opened Validation
  import opened Payment
  import opened BalanceStore

  /** The transient notification raised when an attempt settles. */
  datatype Notice = Quiet | Added | Failed | Faulted

  /** Every variable of the page except the preset buttons' selection. */
  datatype Form = Form(
    selectedAmount: nat,
    balance: nat,
    customText: string,
    payment: string,
    cardNumber: string,
    expiry: string,
    cvv: string,
    cardName: string,
    disabled: bool,
    store: map<string, string>,
    pending: seq<string>,
    notice: Notice)

  function Without<T>(s: seq<T>, k: nat): (r: seq<T>)
    requires k < |s|
    ensures |r| == |s| - 1
  {
    s[..k] + s[k + 1..]
  }

  /** validateForm's verdict on a snapshot. */
  function Validity(f: Form): bool
  {
    IsValid(f.selectedAmount, f.payment, f.cardNumber, f.expiry, f.cvv, f.cardName)
  }

  /** While no attempt is in flight, the button is disabled exactly when the
      form is invalid. */
  predicate Gated(f: Form)
  {
    f.pending == [] ==> f.disabled == !Validity(f)
  }

  /** The balance slot holds the balance in memory. */
  predicate Synced(f: Form)
  {
    LoadBalance(f.store) == Some(f.balance)
  }

  /** resetForm (lines 194-206): no amount, card method, empty fields. The
      reset form is invalid; the balance, the slot, the attempts in flight,
      the notice and the button are left alone. */
  function Reset(f: Form): (g: Form)
    ensures !Validity(g) && g.selectedAmount == 0
    ensures g.balance == f.balance && g.store == f.store && g.pending == f.pending
    ensures g.notice == f.notice && g.disabled == f.disabled
  {
    f.(selectedAmount := 0, customText := "", payment := "card",
       cardNumber := "", expiry := "", cvv := "", cardName := "")
  }

  /** The click listener (lines 154-157) and processPayment up to its `await`
      (lines 361-365): ignored while disabled, otherwise the button is disabled
      and an attempt for the checked method starts. */
  function Clicked(f: Form): (g: Form)
    ensures g.disabled && f.pending <= g.pending
    ensures |g.pending| == |f.pending| + (if f.disabled then 0 else 1)
    ensures g.(pending := f.pending, disabled := f.disabled) == f
  {
    if f.disabled then f else f.(disabled := true, pending := f.pending + [f.payment])
  }

  /** Whether the `k`-th attempt, settling now with `storeFails` telling whether
      `localStorage.setItem` throws, reaches the end of the success branch. */
  predicate Commits(f: Form, k: nat, storeFails: bool)
    requires k < |f.pending|
  {
    PaymentSucceeds(f.pending[k], f.cardNumber) && !storeFails
  }

  /** processPayment after its `await`, as written (lines 367-388). The card
      number and `selectedAmount` are read now, not at submission. On success
      the balance grows before the slot is written, so a throwing `setItem`
      leaves it grown; `finally` enables the button whatever the form holds. */
  function Resolved(f: Form, k: nat, storeFails: bool): (g: Form)
    requires k < |f.pending|
    ensures g.pending == Without(f.pending, k) && !g.disabled
    ensures g.balance == f.balance + (if PaymentSucceeds(f.pending[k], f.cardNumber) then f.selectedAmount else 0)
  {
    var g := f.(pending := Without(f.pending, k), disabled := false);
    var grown := f.balance + f.selectedAmount;
    if !PaymentSucceeds(f.pending[k], f.cardNumber) then g.(notice := Failed)
    else if storeFails then g.(balance := grown, notice := Faulted)
    else Reset(g).(balance := grown, store := SaveBalance(f.store, grown), notice := Added)
  }

  /** processPayment after its `await` as intended: the balance changes only
      once the slot has been written, and the button is re-enabled only if the
      form is valid. */
  function ResolvedIntended(f: Form, k: nat, storeFails: bool): (g: Form)
    requires k < |f.pending|
    ensures g.pending == Without(f.pending, k) && g.disabled == !Validity(g)
    ensures g.balance == f.balance + (if Commits(f, k, storeFails) then f.selectedAmount else 0)
  {
    var g := f.(pending := Without(f.pending, k));
    var grown := f.balance + f.selectedAmount;
    var h :=
      if !PaymentSucceeds(f.pending[k], f.cardNumber) then g.(notice := Failed)
      else if storeFails then g.(notice := Faulted)
      else Reset(g).(balance := grown, store := SaveBalance(f.store, grown), notice := Added);
    h.(disabled := !Validity(h))
  }

  // ---------------------------------------------------------------------------
  // Properties of a settled attempt
  // ---------------------------------------------------------------------------

  /** As written, a settled attempt leaves the queue and the button enabled.
      A committed attempt credits exactly the amount shown at settlement, the
      slot holds the new balance and the form is reset; a declined attempt
      changes nothing else but the notice; an approved attempt whose slot
      write throws keeps the form and the slot but credits the balance. */
  lemma ResolvedSettles(f: Form, k: nat, storeFails: bool)
    requires k < |f.pending|
    ensures var g := Resolved(f, k, storeFails);
      && g.pending == Without(f.pending, k) && !g.disabled
      && (Commits(f, k, storeFails) ==>
            g.balance == f.balance + f.selectedAmount && Synced(g) && g == Reset(g) && g.notice == Added)
      && (!PaymentSucceeds(f.pending[k], f.cardNumber) ==>
            g == f.(pending := g.pending, disabled := false, notice := Failed))
      && (PaymentSucceeds(f.pending[k], f.cardNumber) && storeFails ==>
            g == f.(pending := g.pending, disabled := false, balance := f.balance + f.selectedAmount, notice := Faulted))
  {
    SaveThenLoad(f.store, f.balance + f.selectedAmount);
  }

  /** As written, a committed attempt leaves the button enabled on a form that
      is no longer valid: its amount is 0. */
  lemma ResolvedEnablesInvalidForm(f: Form, k: nat)
    requires k < |f.pending| && Commits(f, k, false)
    ensures var g := Resolved(f, k, false); !g.disabled && !Validity(g) && !Gated(g) <== g.pending == []
    ensures var g := Resolved(f, k, false); !g.disabled && !Validity(g)
  {
  }

  /** As written, an approved attempt whose slot write throws reports an error
      yet keeps the credit in memory: the balance and the slot part ways. */
  lemma ResolvedFaultKeepsCredit(f: Form, k: nat)
    requires k < |f.pending| && PaymentSucceeds(f.pending[k], f.cardNumber)
    requires Synced(f) && f.selectedAmount > 0
    ensures var g := Resolved(f, k, true);
      g.notice == Faulted && g.balance == f.balance + f.selectedAmount && !Synced(g)
  {
  }

  /** As written, retrying after such an error (the form is kept and the button
      enabled) credits and stores the amount twice for one intended top-up. */
  lemma RetryAfterFaultCreditsTwice(f: Form)
    requires f.pending == [f.payment] && PaymentSucceeds(f.payment, f.cardNumber)
    ensures var g := Resolved(Clicked(Resolved(f, 0, true)), 0, false);
      g.balance == f.balance + 2 * f.selectedAmount && Synced(g) && g.notice == Added
  {
    var g1 := Resolved(f, 0, true);
    assert g1.pending == [] && !g1.disabled;
    var g2 := Clicked(g1);
    assert g2.pending == [f.payment] && g2.cardNumber == f.cardNumber;
    SaveThenLoad(f.store, f.balance + 2 * f.selectedAmount);
  }

  /** As intended, a settled attempt leaves the queue and the button is gated
      by validity. A committed attempt credits the amount, the slot holds the
      new balance, the form is reset and so the button is disabled; an attempt
      that does not commit changes nothing else but the notice. */
  lemma IntendedSettles(f: Form, k: nat, storeFails: bool)
    requires k < |f.pending|
    ensures var g := ResolvedIntended(f, k, storeFails);
      && g.pending == Without(f.pending, k) && g.disabled == !Validity(g)
      && (Commits(f, k, storeFails) ==>
            g.balance == f.balance + f.selectedAmount && Synced(g) && g == Reset(g) && g.notice == Added && g.disabled)
      && (!PaymentSucceeds(f.pending[k], f.cardNumber) ==>
            g == f.(pending := g.pending, disabled := !Validity(f), notice := Failed))
      && (PaymentSucceeds(f.pending[k], f.cardNumber) && storeFails ==>
            g == f.(pending := g.pending, disabled := !Validity(f), notice := Faulted))
  {
    SaveThenLoad(f.store, f.balance + f.selectedAmount);
  }

  /** As intended, the slot keeps holding the balance in memory, the balance
      grows by the amount exactly when the attempt commits, and the button is
      gated by validity again. */
  lemma IntendedKeepsSynced(f: Form, k: nat, storeFails: bool)
    requires k < |f.pending| && Synced(f)
    ensures var g := ResolvedIntended(f, k, storeFails);
      && Synced(g) && Gated(g)
      && g.balance == f.balance + (if Commits(f, k, storeFails) then f.selectedAmount else 0)
      && (Commits(f, k, storeFails) ==> g.disabled && g == Reset(g))
      && (!Commits(f, k, storeFails) ==> g.store == f.store && Reset(g) == Reset(f).(pending := g.pending, disabled := g.disabled, notice := g.notice))
  {
    SaveThenLoad(f.store, f.balance + f.selectedAmount);
  }

  // ---------------------------------------------------------------------------
  // Attempts in flight
  // ---------------------------------------------------------------------------

  /** An input event's changes before it re-runs the validator: the amount,
      the field texts, the checked method and the button may differ; the
      balance, the slot, the attempts and the notice do not. */
  predicate EditOf(f: Form, e: Form)
  {
    e == f.(selectedAmount := e.selectedAmount, customText := e.customText, payment := e.payment,
            cardNumber := e.cardNumber, expiry := e.expiry, cvv := e.cvv, cardName := e.cardName,
            disabled := e.disabled)
  }

  /** As written, an edit during an attempt that leaves the form valid
      re-enables the button, and a click then starts one more attempt. */
  lemma EditReopensInFlight(f: Form, e: Form)
    requires f.pending != [] && EditOf(f, e) && Validity(e)
    ensures var g := e.(disabled := !Validity(e));
      !g.disabled && |Clicked(g).pending| == |f.pending| + 1 > 1
  {
  }

  /** validateForm as intended: the button also stays disabled while an
      attempt is in flight. */
  function RegatedIntended(f: Form): (g: Form)
    ensures g.pending != [] ==> g.disabled
    ensures Gated(g)
    ensures g.(disabled := f.disabled) == f
  {
    f.(disabled := f.pending != [] || !Validity(f))
  }

  /** At most one attempt is in flight, and the button is disabled exactly
      while one is or while the form is invalid. */
  predicate SingleFlight(f: Form)
  {
    |f.pending| <= 1 && f.disabled == (f.pending != [] || !Validity(f))
  }

  /** With the intended validator, every input event (an edit followed by the
      validator), a click and the intended settlement keep at most one
      attempt in flight. */
  lemma IntendedSingleFlight(f: Form, e: Form, k: nat, storeFails: bool)
    requires SingleFlight(f)
    ensures EditOf(f, e) ==> SingleFlight(RegatedIntended(e))
    ensures SingleFlight(Clicked(f))
    ensures k < |f.pending| ==> SingleFlight(ResolvedIntended(f, k, storeFails))
  {
  }

  // ---------------------------------------------------------------------------
  // The controller
  // ---------------------------------------------------------------------------

  class Controller {
    /** The preset buttons' `data-amount` values, in page order. */
    const presets: seq<nat>
    /** Whether each preset button carries the `selected` class. */
    const selected: array<bool>
    /** `new Intl.NumberFormat('id-ID').format`, taken as given. */
    const formatNumber: nat -> string

    var selectedAmount: nat
    /** `currentBalance`. */
    var balance: nat
    /** The custom-amount field's text. */
    var customText: string
    /** The value of the checked payment radio button. */
    var payment: string
    var cardNumber: string
    var expiry: string
    var cvv: string
    var cardName: string
    /** `addFundsBtn.disabled`. */
    var disabled: bool
    /** `localStorage`. */
    var store: map<string, string>
    /** The method of each attempt whose gateway has not settled yet. */
    var pending: seq<string>
    var notice: Notice

    function State(): Form
      reads this
    {
      Form(selectedAmount, balance, customText, payment, cardNumber, expiry, cvv, cardName,
           disabled, store, pending, notice)
    }

    /** validateForm's verdict on the current fields. */
    function FormValid(): bool
      reads this
    {
      IsValid(selectedAmount, payment, cardNumber, expiry, cvv, cardName)
    }

    /** At most one preset is selected, and a selected preset holds the amount
        and an empty custom field. */
    ghost predicate Valid()
      reads this, selected
    {
      && selected.Length == |presets|
      && (forall i, j :: 0 <= i < j < selected.Length && selected[i] ==> !selected[j])
      && (forall i :: 0 <= i < selected.Length && selected[i] ==> customText == "" && selectedAmount == presets[i])
    }

    ghost predicate NoneSelected()
      reads selected
    {
      forall i :: 0 <= i < selected.Length ==> !selected[i]
    }

    /** The page after loading: the balance read from the slot, the card method
        checked, every field empty and the button disabled (lines 24-29, 410). */
    constructor (presets: seq<nat>, formatNumber: nat -> string, store: map<string, string>)
      requires LoadBalance(store).Some?
      ensures Valid() && NoneSelected() && fresh(selected)
      ensures this.presets == presets && this.formatNumber == formatNumber
      ensures State() == Form(0, LoadBalance(store).value, "", "card", "", "", "", "", true, store, [], Quiet)
      ensures Gated(State()) && Synced(State())
    {
      this.presets := presets;
      this.formatNumber := formatNumber;
      selected := new bool[|presets|](_ => false);
      selectedAmount := 0;
      balance := LoadBalance(store).value;
      customText := "";
      payment := "card";
      cardNumber := "";
      expiry := "";
      cvv := "";
      cardName := "";
      this.store := store;
      pending := [];
      notice := Quiet;
      disabled := !IsValid(0, "card", "", "", "", "");
    }

    /** validateForm (lines 137-151). */
    method ValidateForm()
      modifies this`disabled
      ensures disabled == !FormValid()
    {
      disabled := !IsValid(selectedAmount, payment, cardNumber, expiry, cvv, cardName);
    }

    /** validateForm as intended: disabled while an attempt is in flight. */
    method ValidateFormIntended()
      modifies this`disabled
      ensures State() == RegatedIntended(old(State()))
    {
      disabled := pending != [] || !IsValid(selectedAmount, payment, cardNumber, expiry, cvv, cardName);
    }

    /** `amountButtons.forEach(btn => btn.classList.remove('selected'))`. */
    method ClearSelection()
      modifies selected
      ensures NoneSelected()
    {
      for i := 0 to selected.Length
        invariant forall j :: 0 <= j < i ==> !selected[j]
      {
        selected[i] := false;
      }
    }

    /** A click on the `k`-th preset button (lines 60-71). */
    method OnPresetClick(k: nat)
      requires Valid() && k < |presets|
      modifies this, selected
      ensures Valid() && Gated(State())
      ensures forall i :: 0 <= i < selected.Length ==> (selected[i] <==> i == k)
      ensures State() == old(State()).(selectedAmount := presets[k], customText := "", disabled := !FormValid())
    {
      ClearSelection();
      selected[k] := true;
      customText := "";
      selectedAmount := presets[k];
      ValidateForm();
    }

    /** An `input` event on the custom-amount field: its three listeners in
        registration order (lines 75-82, 245-256, 392-407). */
    method OnCustomInput(text: string)
      requires Valid()
      modifies this, selected
      ensures Valid() && Gated(State()) && NoneSelected()
      ensures State() == old(State()).(selectedAmount := CustomAmount(text),
                                       customText := CustomFieldText(text, formatNumber),
                                       disabled := !FormValid())
    {
      ClearSelection();
      SetCustom(CustomFieldText(text, formatNumber), CustomAmount(text));
    }

    /** The writes of the formatting listener (lines 396-400), then
        validateForm: the field shows `shown` and the amount is `amount`. */
    method SetCustom(shown: string, amount: nat)
      modifies this
      ensures State() == old(State()).(selectedAmount := amount, customText := shown, disabled := !FormValid())
    {
      customText := shown;
      selectedAmount := amount;
      ValidateForm();
    }

    /** A `change` event on a payment radio button (lines 86-93). */
    method OnPaymentChange(value: string)
      requires Valid()
      modifies this
      ensures Valid() && Gated(State())
      ensures State() == old(State()).(payment := value, disabled := !FormValid())
    {
      payment := value;
      ValidateForm();
    }

    /** An `input` event on the card-number field (lines 97-103). */
    method OnCardNumberInput(text: string)
      requires Valid()
      modifies this
      ensures Valid() && Gated(State())
      ensures State() == old(State()).(cardNumber := FormatCardNumber(text), disabled := !FormValid())
      ensures FormatCardNumber(cardNumber) == cardNumber
    {
      CardNumberIdempotent(text);
      cardNumber := FormatCardNumber(text);
      ValidateForm();
    }

    /** An `input` event on the expiry field (lines 106-113). */
    method OnExpiryInput(text: string)
      requires Valid()
      modifies this
      ensures Valid() && Gated(State())
      ensures State() == old(State()).(expiry := FormatExpiry(text), disabled := !FormValid())
      ensures FormatExpiry(expiry) == expiry
    {
      ExpiryIdempotent(text);
      expiry := FormatExpiry(text);
      ValidateForm();
    }

    /** An `input` event on the CVV field (lines 116-119). */
    method OnCvvInput(text: string)
      requires Valid()
      modifies this
      ensures Valid() && Gated(State())
      ensures State() == old(State()).(cvv := Digits(text), disabled := !FormValid())
      ensures AllDigits(cvv)
    {
      cvv := Digits(text);
      ValidateForm();
    }

    /** An `input` event on the cardholder-name field (lines 122-124). */
    method OnNameInput(text: string)
      requires Valid()
      modifies this
      ensures Valid() && Gated(State())
      ensures State() == old(State()).(cardName := text, disabled := !FormValid())
    {
      cardName := text;
      ValidateForm();
    }

    /** A click on the button (lines 154-157) and processPayment up to its
        `await` (lines 361-365). */
    method Click()
      requires Valid()
      modifies this
      ensures Valid()
      ensures State() == Clicked(old(State()))
      ensures old(Gated(State())) ==> Gated(State())
    {
      if !disabled {
        pending := pending + [payment];
        disabled := true;
      }
    }

    /** resetForm (lines 192-211). */
    method ResetForm()
      requires Valid()
      modifies this, selected
      ensures Valid() && NoneSelected()
      ensures State() == Reset(old(State())).(disabled := true)
      ensures FormatCardNumber(cardNumber) == cardNumber && FormatExpiry(expiry) == expiry
    {
      EmptyFieldsFormatted();
      ClearSelection();
      customText := "";
      selectedAmount := 0;
      payment := "card";
      cardNumber := "";
      expiry := "";
      cvv := "";
      cardName := "";
      ValidateForm();
    }

    /** The writes of the success branch (lines 371-372, 377-378): the balance
        and the slot take `grown` and the form is reset. */
    method Commit(grown: nat)
      requires Valid()
      modifies this, selected
      ensures Valid() && NoneSelected()
      ensures State() == Reset(old(State())).(balance := grown, store := SaveBalance(old(store), grown),
                                              disabled := true, notice := Added)
    {
      store := SaveBalance(store, grown);
      balance := grown;
      ResetForm();
      notice := Added;
    }

    /** processPayment once the gateway of the `k`-th pending attempt settles
        (lines 367-388), as written; `storeFails` tells whether
        `localStorage.setItem` throws. */
    method Resolve(k: nat, storeFails: bool)
      requires Valid() && k < |pending|
      modifies this, selected
      ensures Valid()
      ensures State() == Resolved(old(State()), k, storeFails)
      ensures old(Commits(State(), k, storeFails)) ==> NoneSelected()
      ensures !old(Commits(State(), k, storeFails)) ==> unchanged(selected)
    {
      var attempt := pending[k];
      pending := Without(pending, k);
      if PaymentSucceeds(attempt, cardNumber) {
        balance := balance + selectedAmount;
        if storeFails {
          notice := Faulted;
        } else {
          Commit(balance);
        }
      } else {
        notice := Failed;
      }
      disabled := false;
    }

    /** processPayment once the gateway of the `k`-th pending attempt settles,
        as intended: the balance is committed only after the slot is written,
        and the button is gated by validity afterwards. */
    method ResolveIntended(k: nat, storeFails: bool)
      requires Valid() && k < |pending|
      modifies this, selected
      ensures Valid()
      ensures State() == ResolvedIntended(old(State()), k, storeFails)
      ensures old(Commits(State(), k, storeFails)) ==> NoneSelected()
      ensures !old(Commits(State(), k, storeFails)) ==> unchanged(selected)
    {
      ghost var settled := ResolvedIntended(old(State()), k, storeFails);
      var attempt := pending[k];
      pending := Without(pending, k);
      if PaymentSucceeds(attempt, cardNumber) {
        if storeFails {
          notice := Faulted;
        } else {
          Commit(balance + selectedAmount);
        }
      } else {
        notice := Failed;
      }
      assert State().(disabled := settled.disabled) == settled;
      ValidateForm();
    }
  }
}
