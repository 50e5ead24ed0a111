/**
 * The indexed chaincode variant: accounts carry a scalar balance, asset classes carry their
 * remaining supply, and per-account holdings live under composite keys as decimal text.
 *
 * The world state is a map from keys to stored values. All reads of one invocation see the
 * state as it was when the invocation started (the host store does not show an invocation its
 * own buffered writes), so every operation reads from its input store and applies its writes as
 * map updates in source order; where two writes hit one key, the later one wins.
 */
module IndexedLedger {
  import opened Wrappers
  import opened Ledger
  import Strconv

  datatype Account = Account(id: string, balance: int)

  /** World-state keys: a plain account id, or one of the two composite-key families. */
  datatype Key =
    | AccountKey(id: string)
    | AssetKey(issuer: string, code: string)              // "Asset~issuer~code"
    | HoldingKey(id: string, issuer: string, code: string) // "AccountAsset~id~issuer~code"

  /**
   * Stored bytes: a JSON-encoded record, or other text (a holding count is stored as the
   * decimal text of the number). JSON encoding is taken to round-trip every field.
   */
  datatype Value =
    | AccountJson(account: Account)
    | AssetJson(asset: Asset)
    | Text(text: string)

  type Store = map<Key, Value>

  /** The zero values a Go decoder leaves when no field matches. */
  const NoAccount := Account("", 0)
  const NoAsset := Asset("", "", 0)

  /** The genesis assets written by Init. */
  const SeedA1 := Asset("AAA", "A1", 10000)
  const SeedB1 := Asset("BBB", "B1", 10000)

  // ---------------------------------------------------------------------------------------
  // Record repository (checkAccout, checkAsset, checkAccoutAsset)
  // ---------------------------------------------------------------------------------------

  /**
   * Reads key `id` and decodes it as an account. Absent or empty bytes give the zero account,
   * a JSON record of another kind shares no field with Account and also gives the zero account,
   * and non-JSON text is a decoding error. The account exists iff its decoded id is non-empty.
   */
  function LoadAccount(s: Store, id: string): (r: Result<Account, Error>)
    ensures r.Err? <==> AccountKey(id) in s && s[AccountKey(id)].Text? && s[AccountKey(id)].text != ""
    ensures r.Err? ==> r.error == CorruptRecord
    ensures r.Ok? && r.value.id != "" <==>
      AccountKey(id) in s && s[AccountKey(id)].AccountJson? && s[AccountKey(id)].account.id != ""
    ensures r.Ok? && r.value.id != "" ==> s[AccountKey(id)] == AccountJson(r.value)
  {
    var k := AccountKey(id);
    if k !in s then Ok(NoAccount)
    else match s[k]
      case AccountJson(a) => Ok(a)
      case AssetJson(_) => Ok(NoAccount)
      case Text(t) => if t == "" then Ok(NoAccount) else Err(CorruptRecord)
  }

  predicate HasAccount(s: Store, id: string) {
    LoadAccount(s, id).Ok? && LoadAccount(s, id).value.id != ""
  }

  function AccountOf(s: Store, id: string): Account
    requires HasAccount(s, id)
  {
    LoadAccount(s, id).value
  }

  /** Reads and decodes the asset-class record; it exists iff its decoded code is non-empty. */
  function LoadAsset(s: Store, issuer: string, code: string): (r: Result<Asset, Error>)
    ensures r.Err? <==>
      AssetKey(issuer, code) in s && s[AssetKey(issuer, code)].Text? && s[AssetKey(issuer, code)].text != ""
    ensures r.Err? ==> r.error == CorruptRecord
    ensures r.Ok? && r.value.code != "" <==>
      AssetKey(issuer, code) in s && s[AssetKey(issuer, code)].AssetJson? && s[AssetKey(issuer, code)].asset.code != ""
    ensures r.Ok? && r.value.code != "" ==> s[AssetKey(issuer, code)] == AssetJson(r.value)
  {
    var k := AssetKey(issuer, code);
    if k !in s then Ok(NoAsset)
    else match s[k]
      case AssetJson(a) => Ok(a)
      case AccountJson(_) => Ok(NoAsset)
      case Text(t) => if t == "" then Ok(NoAsset) else Err(CorruptRecord)
  }

  predicate HasAsset(s: Store, issuer: string, code: string) {
    LoadAsset(s, issuer, code).Ok? && LoadAsset(s, issuer, code).value.code != ""
  }

  function AssetOf(s: Store, issuer: string, code: string): Asset
    requires HasAsset(s, issuer, code)
  {
    LoadAsset(s, issuer, code).value
  }

  /** The number a stored value denotes as holding text; None when Atoi rejects its bytes. */
  function ParseCount(v: Value): Option<int> {
    match v
    case Text(t) => Strconv.Atoi(t)
    case _ => None
  }

  /** The quantity of (issuer, code) held by `owner`: an absent or unparsable holding reads 0. */
  function HoldingOf(s: Store, owner: string, issuer: string, code: string): (n: int)
    ensures HoldingKey(owner, issuer, code) !in s ==> n == 0
    ensures HoldingKey(owner, issuer, code) in s && ParseCount(s[HoldingKey(owner, issuer, code)]).None? ==> n == 0
    ensures HoldingKey(owner, issuer, code) in s && ParseCount(s[HoldingKey(owner, issuer, code)]).Some? ==>
      n == ParseCount(s[HoldingKey(owner, issuer, code)]).value
  {
    var k := HoldingKey(owner, issuer, code);
    if k in s then ParseCount(s[k]).GetOr(0) else 0
  }

  // ---------------------------------------------------------------------------------------
  // Store invariants
  // ---------------------------------------------------------------------------------------

  /** Each key family holds only the kind of value the chaincode writes there. */
  predicate WellTyped(s: Store) {
    forall k | k in s ::
      match k
      case AccountKey(_) => s[k].AccountJson?
      case AssetKey(_, _) => s[k].AssetJson?
      case HoldingKey(_, _, _) => s[k].Text?
  }

  /** Every record is stored under the key built from its own identifying fields. */
  predicate WellKeyed(s: Store) {
    && (forall k | k in s && k.AccountKey? && s[k].AccountJson? :: s[k].account.id == k.id)
    && (forall k | k in s && k.AssetKey? && s[k].AssetJson? ::
          s[k].asset.issuer == k.issuer && s[k].asset.code == k.code)
  }

  /** Balances, remaining supplies and holding counts are never negative. */
  predicate NonNegative(s: Store) {
    && (forall k | k in s && s[k].AccountJson? :: s[k].account.balance >= 0)
    && (forall k | k in s && s[k].AssetJson? :: s[k].asset.amount >= 0)
    && (forall k | k in s && ParseCount(s[k]).Some? :: ParseCount(s[k]).value >= 0)
  }

  predicate Valid(s: Store) {
    WellTyped(s) && WellKeyed(s) && NonNegative(s)
  }

  // ---------------------------------------------------------------------------------------
  // Operations
  // ---------------------------------------------------------------------------------------

  /** Init: issues the two genesis asset classes, failing if either is already recorded. */
  function Init(s: Store): (r: Result<Store, Error>)
    ensures r.Ok? <==>
      && LoadAsset(s, "AAA", "A1").Ok? && !HasAsset(s, "AAA", "A1")
      && LoadAsset(s, "BBB", "B1").Ok? && !HasAsset(s, "BBB", "B1")
    ensures HasAsset(s, "AAA", "A1") || HasAsset(s, "BBB", "B1") ==> r.Err?
    ensures r.Ok? ==>
      && HasAsset(r.value, "AAA", "A1") && AssetOf(r.value, "AAA", "A1") == SeedA1
      && HasAsset(r.value, "BBB", "B1") && AssetOf(r.value, "BBB", "B1") == SeedB1
      && SameExcept(s, r.value, {AssetKey("AAA", "A1"), AssetKey("BBB", "B1")})
  {
    match LoadAsset(s, SeedA1.issuer, SeedA1.code)
    case Err(e) => Err(e)
    case Ok(a) =>
      if a.code != "" then Err(AlreadyExists)
      else match LoadAsset(s, SeedB1.issuer, SeedB1.code)
        case Err(e) => Err(e)
        case Ok(b) =>
          if b.code != "" then Err(AlreadyExists)
          else Ok(s[AssetKey(SeedA1.issuer, SeedA1.code) := AssetJson(SeedA1)]
                   [AssetKey(SeedB1.issuer, SeedB1.code) := AssetJson(SeedB1)])
  }

  /** createAccount: opens account `id` with a positive opening balance. */
  function CreateAccount(s: Store, id: string, balance: int): (r: Result<Store, Error>)
    ensures r.Ok? <==> id != "" && balance > 0 && LoadAccount(s, id).Ok? && !HasAccount(s, id)
    ensures id == "" || balance <= 0 ==> r == Err(InvalidArgument)
    ensures id != "" && balance > 0 && HasAccount(s, id) ==> r == Err(AlreadyExists)
    ensures r.Ok? ==>
      && HasAccount(r.value, id) && AccountOf(r.value, id) == Account(id, balance)
      && SameExcept(s, r.value, {AccountKey(id)})
  {
    if id == "" || balance <= 0 then Err(InvalidArgument)
    else match LoadAccount(s, id)
      case Err(e) => Err(e)
      case Ok(a) =>
        if a.id != "" then Err(AlreadyExists)
        else Ok(s[AccountKey(id) := AccountJson(Account(id, balance))])
  }

  /** createAsset: declares the asset class (issuer, code) with a positive total supply. */
  function CreateAsset(s: Store, issuer: string, code: string, amount: int): (r: Result<Store, Error>)
    ensures r.Ok? <==>
      issuer != "" && code != "" && amount > 0 && LoadAsset(s, issuer, code).Ok? && !HasAsset(s, issuer, code)
    ensures issuer == "" || code == "" || amount <= 0 ==> r == Err(InvalidArgument)
    ensures issuer != "" && code != "" && amount > 0 && HasAsset(s, issuer, code) ==> r == Err(AlreadyExists)
    ensures r.Ok? ==>
      && HasAsset(r.value, issuer, code) && AssetOf(r.value, issuer, code) == Asset(issuer, code, amount)
      && SameExcept(s, r.value, {AssetKey(issuer, code)})
  {
    if issuer == "" || code == "" || amount <= 0 then Err(InvalidArgument)
    else match LoadAsset(s, issuer, code)
      case Err(e) => Err(e)
      case Ok(a) =>
        if a.code != "" then Err(AlreadyExists)
        else Ok(s[AssetKey(issuer, code) := AssetJson(Asset(issuer, code, amount))])
  }

  /**
   * buy: account `id` pays `count` from its balance for `count` units of (issuer, code) taken
   * from the class's remaining supply. The account and asset records are written back under the
   * keys of their decoded fields, and so is the holding.
   */
  function Buy(s: Store, id: string, issuer: string, code: string, count: int): (r: Result<Store, Error>)
    ensures r.Ok? <==>
      && id != "" && issuer != "" && code != "" && count > 0
      && HasAccount(s, id) && HasAsset(s, issuer, code)
      && AccountOf(s, id).balance >= count && AssetOf(s, issuer, code).amount >= count
    ensures id == "" || issuer == "" || code == "" || count <= 0 ==> r == Err(InvalidArgument)
    ensures id != "" && issuer != "" && code != "" && count > 0 && LoadAccount(s, id) == Ok(NoAccount) ==>
      r == Err(NotFound)
    ensures r.Ok? && WellKeyed(s) ==>
      && HasAccount(r.value, id) && AccountOf(r.value, id).balance == AccountOf(s, id).balance - count
      && HasAsset(r.value, issuer, code)
      && AssetOf(r.value, issuer, code).amount == AssetOf(s, issuer, code).amount - count
      && HoldingOf(r.value, id, issuer, code) == HoldingOf(s, id, issuer, code) + count
      && SameExcept(s, r.value, {AccountKey(id), AssetKey(issuer, code), HoldingKey(id, issuer, code)})
  {
    if id == "" || issuer == "" || code == "" || count <= 0 then Err(InvalidArgument)
    else match LoadAccount(s, id)
      case Err(e) => Err(e)
      case Ok(account) =>
        if account.id == "" then Err(NotFound)
        else match LoadAsset(s, issuer, code)
          case Err(e) => Err(e)
          case Ok(asset) =>
            if asset.code == "" then Err(NotFound)
            else if account.balance < count then Err(InsufficientFunds)
            else if asset.amount < count then Err(InsufficientSupply)
            else
              var account' := account.(balance := account.balance - count);
              var asset' := asset.(amount := asset.amount - count);
              var held := HoldingOf(s, account'.id, asset'.issuer, asset'.code);
              Ok(s[AccountKey(account'.id) := AccountJson(account')]
                  [AssetKey(issuer, code) := AssetJson(asset')]
                  [HoldingKey(account'.id, asset'.issuer, asset'.code) := Text(Strconv.Itoa(held + count))])
  }

  /**
   * transfer: moves `count` units of (issuer, code) from `from` to `to`. Both holdings are read
   * before either is written; when from = to the second write wins and the holding grows.
   */
  function Transfer(s: Store, from: string, to: string, issuer: string, code: string, count: int)
    : (r: Result<Store, Error>)
    ensures r.Ok? <==>
      && from != "" && to != "" && issuer != "" && code != "" && count > 0
      && HasAccount(s, from) && HasAccount(s, to)
      && HoldingOf(s, AccountOf(s, from).id, issuer, code) >= count
    ensures from == "" || to == "" || issuer == "" || code == "" || count <= 0 ==> r == Err(InvalidArgument)
    ensures (from != "" && to != "" && issuer != "" && code != "" && count > 0
      && LoadAccount(s, from).Ok? && !HasAccount(s, from)) ==> r == Err(NotFound)
    ensures (from != "" && to != "" && issuer != "" && code != "" && count > 0 && HasAccount(s, from)
      && LoadAccount(s, to).Ok? && !HasAccount(s, to)) ==> r == Err(NotFound)
    ensures (from != "" && to != "" && issuer != "" && code != "" && count > 0 && HasAccount(s, from) && HasAccount(s, to)
      && HoldingOf(s, AccountOf(s, from).id, issuer, code) < count) ==> r == Err(InsufficientFunds)
    ensures r.Ok? ==>
      && r.value.Keys == s.Keys + {HoldingKey(AccountOf(s, from).id, issuer, code), HoldingKey(AccountOf(s, to).id, issuer, code)}
      && SameExcept(s, r.value, {HoldingKey(AccountOf(s, from).id, issuer, code), HoldingKey(AccountOf(s, to).id, issuer, code)})
  {
    if from == "" || to == "" || issuer == "" || code == "" || count <= 0 then Err(InvalidArgument)
    else match LoadAccount(s, from)
      case Err(e) => Err(e)
      case Ok(accountF) =>
        if accountF.id == "" then Err(NotFound)
        else match LoadAccount(s, to)
          case Err(e) => Err(e)
          case Ok(accountT) =>
            if accountT.id == "" then Err(NotFound)
            else MoveHolding(s, accountF.id, accountT.id, issuer, code, count)
  }

  /**
   * The holding step of transfer: both holdings are read first, then the sender's is written
   * and the receiver's after it.
   */
  function MoveHolding(s: Store, from: string, to: string, issuer: string, code: string, count: int)
    : (r: Result<Store, Error>)
    ensures r.Ok? <==> HoldingOf(s, from, issuer, code) >= count
    ensures r.Err? ==> r.error == InsufficientFunds
    ensures r.Ok? ==> r.value.Keys == s.Keys + {HoldingKey(from, issuer, code), HoldingKey(to, issuer, code)}
    ensures r.Ok? ==> SameExcept(s, r.value, {HoldingKey(from, issuer, code), HoldingKey(to, issuer, code)})
  {
    var sumF := HoldingOf(s, from, issuer, code);
    var sumT := HoldingOf(s, to, issuer, code);
    if sumF < count then Err(InsufficientFunds)
    else Ok(s[HoldingKey(from, issuer, code) := Text(Strconv.Itoa(sumF - count))]
             [HoldingKey(to, issuer, code) := Text(Strconv.Itoa(sumT + count))])
  }

  /** accountInfo: the stored account record, NotFound when there is none. */
  function AccountInfo(s: Store, id: string): (r: Result<Account, Error>)
    ensures r.Ok? <==> HasAccount(s, id)
    ensures r.Ok? ==> AccountKey(id) in s && s[AccountKey(id)] == AccountJson(r.value) && r.value.id != ""
    ensures LoadAccount(s, id) == Ok(NoAccount) ==> r == Err(NotFound)
  {
    match LoadAccount(s, id)
    case Err(e) => Err(e)
    case Ok(a) => if a.id == "" then Err(NotFound) else Ok(a)
  }

  /** assetInfo: the stored asset-class record, NotFound when there is none. */
  function AssetInfo(s: Store, issuer: string, code: string): (r: Result<Asset, Error>)
    ensures r.Ok? <==> HasAsset(s, issuer, code)
    ensures r.Ok? ==>
      AssetKey(issuer, code) in s && s[AssetKey(issuer, code)] == AssetJson(r.value) && r.value.code != ""
    ensures LoadAsset(s, issuer, code) == Ok(NoAsset) ==> r == Err(NotFound)
  {
    match LoadAsset(s, issuer, code)
    case Err(e) => Err(e)
    case Ok(a) => if a.code == "" then Err(NotFound) else Ok(a)
  }
}
