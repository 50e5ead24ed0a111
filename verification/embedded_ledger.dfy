/**
 * The embedded chaincode variant: each account record carries its own list of
 * {issuer, code, amount} holdings, stored as JSON under the account id.
 *
 * As in the indexed variant, every read of an invocation sees the invocation-start state and the
 * writes are applied as map updates in source order.
 */
module EmbeddedLedger {
  import opened Wrappers
  import opened Ledger
  import opened AssetLists

  datatype Account = Account(accountId: string, assets: seq<Asset>)

  /** Stored bytes under an account id: a JSON account record, or bytes that are not one. */
  datatype Value = Record(account: Account) | Raw(text: string)

  type Store = map<string, Value>

  /**
   * What json.Unmarshal leaves in a parameter struct, with whether it reported an error. The
   * parameter structs of createAccount, addAsset, transferAsset and getAccount all project from
   * {accountId, asset}; a missing or null "asset" leaves the asset field nil (None).
   */
  datatype Json = Json(ok: bool, accountId: string, asset: Option<Asset>)

  /** One invocation argument: its raw text, and what decoding that text as JSON yields. */
  datatype Arg = Arg(text: string, json: Json)

  const NoAccount := Account("", [])

  // ---------------------------------------------------------------------------------------
  // Record repository (checkAccout)
  // ---------------------------------------------------------------------------------------

  /**
   * Reads key `id` and decodes it as an account: absent or empty bytes give the zero account,
   * other non-record bytes are a decoding error. The account exists iff its id is non-empty.
   */
  function LoadAccount(s: Store, id: string): (r: Result<Account, Error>)
    ensures r.Err? <==> id in s && s[id].Raw? && s[id].text != ""
    ensures r.Err? ==> r.error == CorruptRecord
    ensures r.Ok? && r.value.accountId != "" <==> id in s && s[id].Record? && s[id].account.accountId != ""
    ensures r.Ok? && r.value.accountId != "" ==> s[id] == Record(r.value)
  {
    if id !in s then Ok(NoAccount)
    else match s[id]
      case Record(a) => Ok(a)
      case Raw(t) => if t == "" then Ok(NoAccount) else Err(CorruptRecord)
  }

  predicate HasAccount(s: Store, id: string) {
    LoadAccount(s, id).Ok? && LoadAccount(s, id).value.accountId != ""
  }

  function AccountOf(s: Store, id: string): Account
    requires HasAccount(s, id)
  {
    LoadAccount(s, id).value
  }

  /** The quantity of (issuer, code) the account `id` holds; 0 when there is no such account. */
  function HoldingAt(s: Store, id: string, issuer: string, code: string): int {
    if HasAccount(s, id) then Holding(AccountOf(s, id).assets, issuer, code) else 0
  }

  /**
   * Every record sits under its own id, lists each asset class at most once, and holds no
   * negative amount.
   */
  predicate Valid(s: Store) {
    forall id | id in s && s[id].Record? ::
      && s[id].account.accountId == id
      && Unique(s[id].account.assets)
      && AssetLists.NonNegative(s[id].account.assets)
  }

  // ---------------------------------------------------------------------------------------
  // Holding-list steps of transferAsset
  // ---------------------------------------------------------------------------------------

  /** Every entry of x's class holds at least x.amount. */
  predicate Covers(list: seq<Asset>, x: Asset) {
    forall i | 0 <= i < |list| && OfClass(list[i], x.issuer, x.code) :: list[i].amount >= x.amount
  }

  /**
   * The debit loop of transferAsset: every entry of x's class loses x.amount. It fails when an
   * entry of the class holds less than that, or when the class is not held at all.
   */
  function Debit(list: seq<Asset>, x: Asset): (r: Result<seq<Asset>, Error>)
    ensures r.Ok? <==> MatchCount(list, x.issuer, x.code) > 0 && Covers(list, x)
    ensures r.Err? ==> r.error == (if MatchCount(list, x.issuer, x.code) == 0 then AssetNotHeld else InsufficientFunds)
    ensures r.Ok? ==> SameClasses(list, r.value)
    ensures r.Ok? ==>
      Holding(r.value, x.issuer, x.code) == Holding(list, x.issuer, x.code) - Times(x.amount, MatchCount(list, x.issuer, x.code))
    ensures r.Ok? ==> forall i, c | !(i == x.issuer && c == x.code) :: Holding(r.value, i, c) == Holding(list, i, c)
    ensures r.Ok? ==> forall i {:trigger r.value[i]} | 0 <= i < |list| && OfClass(list[i], x.issuer, x.code) ::
      0 <= r.value[i].amount == list[i].amount - x.amount
    ensures r.Ok? && AssetLists.NonNegative(list) ==> AssetLists.NonNegative(r.value)
    ensures r.Ok? ==> forall i {:trigger r.value[i]} | 0 <= i < |list| && !OfClass(list[i], x.issuer, x.code) ::
      r.value[i] == list[i]
  {
    if exists i | 0 <= i < |list| :: OfClass(list[i], x.issuer, x.code) && list[i].amount < x.amount then
      Err(InsufficientFunds)
    else if MatchCount(list, x.issuer, x.code) == 0 then Err(AssetNotHeld)
    else
      DebitHolding(list, x);
      AdjustOtherHoldings(list, x.issuer, x.code, -x.amount);
      DebitAmounts(list, x);
      Ok(Adjust(list, x.issuer, x.code, -x.amount))
  }

  /** A debit takes x.amount from the class holding once per entry of the class. */
  lemma DebitHolding(list: seq<Asset>, x: Asset)
    ensures Holding(Adjust(list, x.issuer, x.code, -x.amount), x.issuer, x.code) ==
      Holding(list, x.issuer, x.code) - Times(x.amount, MatchCount(list, x.issuer, x.code))
  {
    AdjustHolding(list, x.issuer, x.code, -x.amount);
    TimesNeg(x.amount, MatchCount(list, x.issuer, x.code));
  }

  /** The entries a covered debit leaves: the class loses x.amount and stays non-negative. */
  lemma DebitAmounts(list: seq<Asset>, x: Asset)
    requires Covers(list, x)
    ensures var r := Adjust(list, x.issuer, x.code, -x.amount);
      && (forall i | 0 <= i < |list| && OfClass(list[i], x.issuer, x.code) :: 0 <= r[i].amount == list[i].amount - x.amount)
      && (AssetLists.NonNegative(list) ==> AssetLists.NonNegative(r))
  {
  }

  /**
   * The credit loop of transferAsset as evidently intended: every entry of x's class in the
   * destination list gains x.amount, and x is appended when the class is not held yet.
   */
  function Credit(list: seq<Asset>, x: Asset): (r: seq<Asset>)
    ensures Unique(list) ==> Holding(r, x.issuer, x.code) == Holding(list, x.issuer, x.code) + x.amount
    ensures forall i, c | !(i == x.issuer && c == x.code) :: Holding(r, i, c) == Holding(list, i, c)
    ensures MatchCount(r, x.issuer, x.code) > 0
    ensures Unique(list) ==> Unique(r)
    ensures AssetLists.NonNegative(list) && x.amount >= 0 ==> AssetLists.NonNegative(r)
  {
    if MatchCount(list, x.issuer, x.code) == 0 then
      AppendNewClass(list, x);
      list + [x]
    else
      CreditHeldClass(list, x);
      Adjust(list, x.issuer, x.code, x.amount)
  }

  /** Adding x.amount to the entries of a class the list already holds. */
  lemma CreditHeldClass(list: seq<Asset>, x: Asset)
    requires MatchCount(list, x.issuer, x.code) > 0
    ensures Unique(list) ==>
      Holding(Adjust(list, x.issuer, x.code, x.amount), x.issuer, x.code) == Holding(list, x.issuer, x.code) + x.amount
    ensures forall i, c | !(i == x.issuer && c == x.code) ::
      Holding(Adjust(list, x.issuer, x.code, x.amount), i, c) == Holding(list, i, c)
    ensures MatchCount(Adjust(list, x.issuer, x.code, x.amount), x.issuer, x.code) > 0
    ensures Unique(list) ==> Unique(Adjust(list, x.issuer, x.code, x.amount))
    ensures AssetLists.NonNegative(list) && x.amount >= 0 ==> AssetLists.NonNegative(Adjust(list, x.issuer, x.code, x.amount))
  {
    AdjustHoldings(list, x.issuer, x.code, x.amount);
    if AssetLists.NonNegative(list) && x.amount >= 0 {
      AdjustUpNonNegative(list, x.issuer, x.code, x.amount);
    }
    if Unique(list) {
      CreditUniqueClass(list, x);
      SameClassesUnique(list, Adjust(list, x.issuer, x.code, x.amount));
    }
    StillHeld(list, x);
  }

  /** In a list unique per class, the one entry of x's class gains x.amount. */
  lemma CreditUniqueClass(list: seq<Asset>, x: Asset)
    requires Unique(list) && MatchCount(list, x.issuer, x.code) > 0
    ensures Holding(Adjust(list, x.issuer, x.code, x.amount), x.issuer, x.code) == Holding(list, x.issuer, x.code) + x.amount
  {
    AdjustHolding(list, x.issuer, x.code, x.amount);
    UniqueMatchCount(list, x.issuer, x.code);
    var m := MatchCount(list, x.issuer, x.code);
    assert m == 1;
    assert Times(x.amount, m) == x.amount;
  }

  /** Adjusting a held class keeps it held. */
  lemma StillHeld(list: seq<Asset>, x: Asset)
    requires MatchCount(list, x.issuer, x.code) > 0
    ensures MatchCount(Adjust(list, x.issuer, x.code, x.amount), x.issuer, x.code) > 0
  {
    var r := Adjust(list, x.issuer, x.code, x.amount);
    var j :| 0 <= j < |list| && OfClass(list[j], x.issuer, x.code);
    assert OfClass(r[j], x.issuer, x.code);
  }

  /**
   * The credit loop of transferAsset as written: for every index k at which the destination
   * holds x's class, entry k of the SOURCE list (already debited) is overwritten with the
   * destination's amount plus x.amount; an index past the end of the source list panics.
   * Indices below `from` have been processed.
   */
  function CreditAsWritten(source: seq<Asset>, dest: seq<Asset>, x: Asset, from: nat): (r: Result<seq<Asset>, Error>)
    requires from <= |dest|
    ensures r.Err? <==> exists k | from <= k < |dest| :: OfClass(dest[k], x.issuer, x.code) && k >= |source|
    ensures r.Err? ==> r.error == Panic
    ensures r.Ok? ==> SameClasses(source, r.value)
    ensures r.Ok? ==> forall k {:trigger r.value[k]} | 0 <= k < |source| ::
      r.value[k].amount ==
        if from <= k < |dest| && OfClass(dest[k], x.issuer, x.code) then dest[k].amount + x.amount
        else source[k].amount
    decreases |dest| - from
  {
    if from == |dest| then Ok(source)
    else if OfClass(dest[from], x.issuer, x.code) then
      if from >= |source| then Err(Panic)
      else CreditAsWritten(source[from := source[from].(amount := dest[from].amount + x.amount)], dest, x, from + 1)
    else CreditAsWritten(source, dest, x, from + 1)
  }

  // ---------------------------------------------------------------------------------------
  // Operations
  // ---------------------------------------------------------------------------------------

  /** createAccount: opens account p.accountId with an empty holdings list. */
  function CreateAccount(s: Store, p: Json): (r: Result<Store, Error>)
    ensures r.Ok? <==> p.ok && p.accountId != "" && LoadAccount(s, p.accountId).Ok? && !HasAccount(s, p.accountId)
    ensures !p.ok || p.accountId == "" ==> r == Err(InvalidArgument)
    ensures p.ok && p.accountId != "" && HasAccount(s, p.accountId) ==> r == Err(AlreadyExists)
    ensures r.Ok? ==>
      && HasAccount(r.value, p.accountId) && AccountOf(r.value, p.accountId) == Account(p.accountId, [])
      && SameExcept(s, r.value, {p.accountId})
  {
    if p.accountId == "" || !p.ok then Err(InvalidArgument)
    else match LoadAccount(s, p.accountId)
      case Err(e) => Err(e)
      case Ok(a) =>
        if a.accountId != "" then Err(AlreadyExists)
        else Ok(s[p.accountId := Record(Account(p.accountId, []))])
  }

  /** The asset argument is complete: non-empty issuer and code, decoded cleanly, positive amount. */
  predicate AssetArgOk(p: Json)
    requires p.asset.Some?
  {
    p.asset.value.issuer != "" && p.asset.value.code != "" && p.ok && p.asset.value.amount > 0
  }

  /**
   * addAsset: mints p.asset into account `accountId`, merging it into the entry of the same
   * class or appending it. The record is written back under its decoded id.
   */
  function AddAsset(s: Store, accountId: string, p: Json): (r: Result<Store, Error>)
    ensures r.Ok? <==> accountId != "" && p.asset.Some? && AssetArgOk(p) && HasAccount(s, accountId)
    ensures accountId == "" ==> r == Err(InvalidArgument)
    ensures accountId != "" && p.asset.None? ==> r == Err(Panic)
    ensures accountId != "" && p.asset.Some? && !AssetArgOk(p) ==> r == Err(InvalidArgument)
    ensures accountId != "" && p.asset.Some? && AssetArgOk(p) && LoadAccount(s, accountId) == Ok(NoAccount) ==>
      r == Err(NotFound)
    ensures r.Ok? && Valid(s) ==>
      && HasAccount(r.value, accountId)
      && AccountOf(r.value, accountId) == Account(accountId, Merge(AccountOf(s, accountId).assets, p.asset.value))
      && SameExcept(s, r.value, {accountId})
  {
    if accountId == "" then Err(InvalidArgument)
    else if p.asset.None? then Err(Panic)
    else if !AssetArgOk(p) then Err(InvalidArgument)
    else match LoadAccount(s, accountId)
      case Err(e) => Err(e)
      case Ok(account) =>
        if account.accountId == "" then Err(NotFound)
        else
          var account' := account.(assets := Merge(account.assets, p.asset.value));
          Ok(s[account'.accountId := Record(account')])
  }

  /** The argument checks of transferAsset, in source order up to the nil-asset panic. */
  predicate TransferArgsOk(fromId: string, p: Json) {
    fromId != "" && p.accountId != "" && p.asset.Some? && AssetArgOk(p)
  }

  /** transferAsset up to its credit loop: argument checks, both account loads, the debit. */
  function TransferDebit(s: Store, fromId: string, p: Json): (r: Result<(Account, Account, seq<Asset>), Error>)
    ensures r.Ok? <==>
      && TransferArgsOk(fromId, p) && HasAccount(s, fromId) && HasAccount(s, p.accountId)
      && Debit(AccountOf(s, fromId).assets, p.asset.value).Ok?
    ensures fromId == "" || p.accountId == "" ==> r == Err(InvalidArgument)
    ensures fromId != "" && p.accountId != "" && p.asset.None? ==> r == Err(Panic)
    ensures fromId != "" && p.accountId != "" && p.asset.Some? && !AssetArgOk(p) ==> r == Err(InvalidArgument)
    ensures (TransferArgsOk(fromId, p) && LoadAccount(s, fromId).Ok? && !HasAccount(s, fromId)) ==> r == Err(NotFound)
    ensures (TransferArgsOk(fromId, p) && HasAccount(s, fromId)
      && LoadAccount(s, p.accountId).Ok? && !HasAccount(s, p.accountId)) ==> r == Err(NotFound)
    ensures (TransferArgsOk(fromId, p) && HasAccount(s, fromId) && HasAccount(s, p.accountId)
      && Debit(AccountOf(s, fromId).assets, p.asset.value).Err?) ==>
      r == Err(Debit(AccountOf(s, fromId).assets, p.asset.value).error)
    ensures r.Ok? ==>
      && r.value.0 == AccountOf(s, fromId) && r.value.1 == AccountOf(s, p.accountId)
      && r.value.2 == Debit(AccountOf(s, fromId).assets, p.asset.value).value
  {
    if fromId == "" || p.accountId == "" then Err(InvalidArgument)
    else if p.asset.None? then Err(Panic)
    else if !AssetArgOk(p) then Err(InvalidArgument)
    else match LoadAccount(s, fromId)
      case Err(e) => Err(e)
      case Ok(accountF) =>
        if accountF.accountId == "" then Err(NotFound)
        else match LoadAccount(s, p.accountId)
          case Err(e) => Err(e)
          case Ok(accountT) =>
            if accountT.accountId == "" then Err(NotFound)
            else match Debit(accountF.assets, p.asset.value)
              case Err(e) => Err(e)
              case Ok(debited) => Ok((accountF, accountT, debited))
  }

  /**
   * transferAsset with the evidently intended credit: moves p.asset.amount units of the class
   * from account `fromId` to account p.accountId. The source record is saved first, the
   * destination record second.
   */
  function TransferAsset(s: Store, fromId: string, p: Json): (r: Result<Store, Error>)
    ensures r.Ok? <==> TransferDebit(s, fromId, p).Ok?
    ensures r.Err? ==> r.error == TransferDebit(s, fromId, p).error
    ensures r.Ok? ==> r.value.Keys == s.Keys + {AccountOf(s, fromId).accountId, AccountOf(s, p.accountId).accountId}
    ensures r.Ok? ==> SameExcept(s, r.value, {AccountOf(s, fromId).accountId, AccountOf(s, p.accountId).accountId})
  {
    match TransferDebit(s, fromId, p)
    case Err(e) => Err(e)
    case Ok((accountF, accountT, debited)) =>
      Ok(s[accountF.accountId := Record(accountF.(assets := debited))]
          [accountT.accountId := Record(accountT.(assets := Credit(accountT.assets, p.asset.value)))])
  }

  /**
   * transferAsset exactly as the source writes it: the credit loop overwrites entries of the
   * source list instead of crediting the destination, and the destination only ever changes by
   * an append when it does not hold the class yet.
   */
  function TransferAssetAsWritten(s: Store, fromId: string, p: Json): (r: Result<Store, Error>)
    ensures r.Ok? <==>
      && TransferDebit(s, fromId, p).Ok?
      && !exists k | 0 <= k < |AccountOf(s, p.accountId).assets| ::
           OfClass(AccountOf(s, p.accountId).assets[k], p.asset.value.issuer, p.asset.value.code)
           && k >= |AccountOf(s, fromId).assets|
    ensures TransferDebit(s, fromId, p).Err? ==> r.Err? && r.error == TransferDebit(s, fromId, p).error
    ensures TransferDebit(s, fromId, p).Ok? && r.Err? ==> r.error == Panic
    ensures r.Ok? ==> r.value.Keys == s.Keys + {AccountOf(s, fromId).accountId, AccountOf(s, p.accountId).accountId}
    ensures r.Ok? ==> SameExcept(s, r.value, {AccountOf(s, fromId).accountId, AccountOf(s, p.accountId).accountId})
    ensures r.Ok? && Valid(s) && fromId != p.accountId ==>
      && fromId in r.value
      && r.value[fromId] == Record(Account(fromId,
           CreditAsWritten(TransferDebit(s, fromId, p).value.2, AccountOf(s, p.accountId).assets, p.asset.value, 0).value))
    ensures r.Ok? && Valid(s) ==>
      var dest := AccountOf(s, p.accountId).assets;
      var x := p.asset.value;
      && p.accountId in r.value
      && r.value[p.accountId] == Record(Account(p.accountId, if MatchCount(dest, x.issuer, x.code) == 0 then dest + [x] else dest))
  {
    match TransferDebit(s, fromId, p)
    case Err(e) => Err(e)
    case Ok((accountF, accountT, debited)) =>
      var x := p.asset.value;
      match CreditAsWritten(debited, accountT.assets, x, 0)
      case Err(e) => Err(e)
      case Ok(source') =>
        var dest' := if MatchCount(accountT.assets, x.issuer, x.code) == 0 then accountT.assets + [x] else accountT.assets;
        Ok(s[accountF.accountId := Record(accountF.(assets := source'))]
            [accountT.accountId := Record(accountT.(assets := dest'))])
  }

  /** getAccount: the stored record of p.accountId; never writes. */
  function GetAccount(s: Store, p: Json): (r: Result<Account, Error>)
    ensures r.Ok? <==> p.ok && p.accountId != "" && HasAccount(s, p.accountId)
    ensures r.Ok? ==> p.accountId in s && s[p.accountId] == Record(r.value) && r.value.accountId != ""
    ensures p.ok && p.accountId != "" && LoadAccount(s, p.accountId) == Ok(NoAccount) ==> r == Err(NotFound)
  {
    if p.accountId == "" || !p.ok then Err(InvalidArgument)
    else match LoadAccount(s, p.accountId)
      case Err(e) => Err(e)
      case Ok(a) => if a.accountId == "" then Err(NotFound) else Ok(a)
  }

  // ---------------------------------------------------------------------------------------
  // Dispatch
  // ---------------------------------------------------------------------------------------

  /** A successful response: the state to commit, and the record getAccount returns. */
  datatype Reply = Reply(store: Store, payload: Option<Account>)

  const Functions: set<string> := {"CreateAccount", "AddAsset", "TransferAsset", "GetAccount"}

  function Committed(r: Result<Store, Error>): Result<Reply, Error> {
    match r
    case Ok(t) => Ok(Reply(t, None))
    case Err(e) => Err(e)
  }

  /**
   * Invoke: the function name is the first argument (an empty argument list panics on args[0]);
   * the remaining arguments go to the operation. TransferAsset uses the corrected credit.
   */
  function Invoke(s: Store, args: seq<Arg>): (r: Result<Reply, Error>)
    ensures |args| == 0 ==> r == Err(Panic)
    ensures |args| > 0 && args[0].text !in Functions ==> r == Err(UnknownFunction)
    ensures |args| > 0 && args[0].text in Functions && |args| < (if args[0].text in {"CreateAccount", "GetAccount"} then 2 else 3) ==>
      r == Err(InvalidArgument)
    ensures |args| > 0 && args[0].text == "GetAccount" && r.Ok? ==>
      && |args| >= 2 && r.value.store == s && r.value.payload.Some?
      && args[1].json.accountId in s && s[args[1].json.accountId] == Record(r.value.payload.value)
    ensures |args| > 0 && args[0].text != "GetAccount" && r.Ok? ==> r.value.payload == None
    ensures |args| >= 2 && args[0].text == "CreateAccount" ==> r == Committed(CreateAccount(s, args[1].json))
    ensures |args| >= 3 && args[0].text == "AddAsset" ==> r == Committed(AddAsset(s, args[1].text, args[2].json))
    ensures |args| >= 3 && args[0].text == "TransferAsset" ==> r == Committed(TransferAsset(s, args[1].text, args[2].json))
    ensures |args| >= 2 && args[0].text == "GetAccount" ==>
      && (r.Ok? <==> GetAccount(s, args[1].json).Ok?)
      && (r.Ok? ==> r.value.payload == Some(GetAccount(s, args[1].json).value))
      && (r.Err? ==> r.error == GetAccount(s, args[1].json).error)
  {
    if |args| == 0 then Err(Panic)
    else
      var fn := args[0].text;
      var rest := args[1..];
      if fn == "CreateAccount" then
        if |rest| < 1 then Err(InvalidArgument) else Committed(CreateAccount(s, rest[0].json))
      else if fn == "AddAsset" then
        if |rest| < 2 then Err(InvalidArgument) else Committed(AddAsset(s, rest[0].text, rest[1].json))
      else if fn == "TransferAsset" then
        if |rest| < 2 then Err(InvalidArgument) else Committed(TransferAsset(s, rest[0].text, rest[1].json))
      else if fn == "GetAccount" then
        if |rest| < 1 then Err(InvalidArgument)
        else match GetAccount(s, rest[0].json)
          case Err(e) => Err(e)
          case Ok(a) => Ok(Reply(s, Some(a)))
      else Err(UnknownFunction)
  }
}
