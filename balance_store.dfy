/**
 * The balance slot in the browser's key-value storage (`loadCurrentBalance`,
 * js/addFunds.js lines 47-52, and the write at line 372), with the storage
 * modelled as a map from keys to strings.
 */
module BalanceStore {
  import opened Wrappers
  import opened Text

  const BalanceKey := "voltrixBalance"

  /** The balance read at start-up (lines 49-50): a missing or empty slot reads
      as 0 and a numeral as its value. Other text, which `parseFloat` reads as
      NaN, a fraction or a negative number, is outside the model: None. */
  function LoadBalance(store: map<string, string>): (r: Option<nat>)
    ensures BalanceKey !in store ==> r == Some(0)
    ensures r.Some? && BalanceKey in store && store[BalanceKey] != "" ==> AllDigits(store[BalanceKey])
  {
    if BalanceKey !in store || store[BalanceKey] == "" then Some(0)
    else if AllDigits(store[BalanceKey]) then Some(DecimalValue(store[BalanceKey]))
    else None
  }

  /** `localStorage.setItem('voltrixBalance', balance.toString())` (line 372):
      only the balance slot changes. */
  function SaveBalance(store: map<string, string>, balance: nat): (r: map<string, string>)
    ensures r.Keys == store.Keys + {BalanceKey}
    ensures forall k :: k in store && k != BalanceKey ==> r[k] == store[k]
  {
    store[BalanceKey := DecimalString(balance)]
  }

  /** What is saved is what loads back. */
  lemma SaveThenLoad(store: map<string, string>, balance: nat)
    ensures LoadBalance(SaveBalance(store, balance)) == Some(balance)
  {
    DecimalRoundTrip(balance);
  }

  /** Saving the balance just loaded from a slot holding a numeral without
      leading zeros leaves the storage as it was. */
  lemma LoadThenSave(store: map<string, string>)
    requires BalanceKey in store && store[BalanceKey] != ""
    requires LoadBalance(store).Some?
    requires |store[BalanceKey]| > 1 ==> store[BalanceKey][0] != '0'
    ensures SaveBalance(store, LoadBalance(store).value) == store
  {
    DecimalCanonical(store[BalanceKey]);
  }
}
