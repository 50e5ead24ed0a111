/**
 * The create-only variant: the same account records as the embedded variant, but Invoke knows
 * only CreateAccount.
 */
module AccountRegistry {
  import opened Wrappers
  import opened Ledger
  import opened EmbeddedLedger

  /**
   * Invoke: the function name is the first argument (an empty argument list panics on
   * args[0]); "CreateAccount" opens the account named by the JSON of the second argument, and
   * every other name is rejected.
   */
  function Invoke(s: Store, args: seq<Arg>): (r: Result<Store, Error>)
    ensures |args| == 0 ==> r == Err(Panic)
    ensures |args| > 0 && args[0].text != "CreateAccount" ==> r == Err(UnknownFunction)
    ensures |args| == 1 && args[0].text == "CreateAccount" ==> r == Err(InvalidArgument)
    ensures r.Ok? <==>
      && |args| >= 2 && args[0].text == "CreateAccount"
      && args[1].json.ok && args[1].json.accountId != ""
      && LoadAccount(s, args[1].json.accountId).Ok? && !HasAccount(s, args[1].json.accountId)
    ensures r.Ok? ==>
      var id := args[1].json.accountId;
      && HasAccount(r.value, id) && AccountOf(r.value, id) == Account(id, [])
      && SameExcept(s, r.value, {id})
  {
    if |args| == 0 then Err(Panic)
    else if args[0].text == "CreateAccount" then
      if |args| < 2 then Err(InvalidArgument) else CreateAccount(s, args[1].json)
    else Err(UnknownFunction)
  }

  /** The registry behaves as the embedded variant's dispatcher does on CreateAccount. */
  lemma AgreesWithEmbedded(s: Store, args: seq<Arg>)
    requires |args| > 0 && args[0].text == "CreateAccount"
    ensures Invoke(s, args).Ok? <==> EmbeddedLedger.Invoke(s, args).Ok?
    ensures Invoke(s, args).Ok? ==> Invoke(s, args).value == EmbeddedLedger.Invoke(s, args).value.store
    ensures Invoke(s, args).Err? ==> Invoke(s, args).error == EmbeddedLedger.Invoke(s, args).error
  {
  }

  /** Every successful invocation keeps the embedded variant's invariant. */
  lemma InvokeValid(s: Store, args: seq<Arg>)
    requires Valid(s) && Invoke(s, args).Ok?
    ensures Valid(Invoke(s, args).value)
  {
  }
}
