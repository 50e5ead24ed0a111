/**
 * The indexed variant's prefix-scan queries and its function-name dispatch.
 *
 * A range scan over a composite-key prefix is performed by the host store, which also fixes
 * the order of the keys it yields. The model receives that enumeration as `scan`, required to
 * list every stored key with the prefix exactly once.
 */
module IndexedQueries {
  import opened Wrappers
  import opened Ledger
  import Strconv
  import opened IndexedLedger

  predicate NoDup<T(==)>(xs: seq<T>) {
    forall i, j | 0 <= i < j < |xs| :: xs[i] != xs[j]
  }

  /** `scan` enumerates the holding keys whose first segment is `owner`. */
  ghost predicate IsHoldingScan(s: Store, owner: string, scan: seq<Key>) {
    && NoDup(scan)
    && (forall k :: k in scan <==> k in s && k.HoldingKey? && k.id == owner)
  }

  /** `scan` enumerates the asset-class keys whose first segment is `issuer`. */
  ghost predicate IsAssetScan(s: Store, issuer: string, scan: seq<Key>) {
    && NoDup(scan)
    && (forall k :: k in scan <==> k in s && k.AssetKey? && k.issuer == issuer)
  }

  /**
   * The loop of myAssets over scanned holding keys: a value Atoi rejects is skipped, otherwise
   * the entry takes issuer and code from the key's second and third segments.
   */
  function CollectHoldings(s: Store, owner: string, keys: seq<Key>): (r: seq<Asset>)
    requires forall k | k in keys :: k in s && k.HoldingKey? && k.id == owner
    ensures forall a :: a in r <==>
      HoldingKey(owner, a.issuer, a.code) in keys && ParseCount(s[HoldingKey(owner, a.issuer, a.code)]) == Some(a.amount)
    ensures NoDup(keys) ==> NoDup(r)
    ensures |r| <= |keys|
  {
    if |keys| == 0 then []
    else
      var k := keys[0];
      var rest := CollectHoldings(s, owner, keys[1..]);
      assert forall a | a in rest :: HoldingKey(owner, a.issuer, a.code) in keys;
      match ParseCount(s[k])
      case None => rest
      case Some(n) =>
        assert k == HoldingKey(owner, k.issuer, k.code);
        [Asset(k.issuer, k.code, n)] + rest
  }

  /** myAssets: one {issuer, code, amount} entry per readable holding of `owner`. */
  function MyAssets(s: Store, owner: string, scan: seq<Key>): (r: seq<Asset>)
    requires IsHoldingScan(s, owner, scan)
    ensures forall a :: a in r <==>
      HoldingKey(owner, a.issuer, a.code) in s && ParseCount(s[HoldingKey(owner, a.issuer, a.code)]) == Some(a.amount)
    ensures NoDup(r)
  {
    CollectHoldings(s, owner, scan)
  }

  /** json.Unmarshal of stored bytes into an Asset: a record of another kind yields zero fields. */
  function DecodeAsset(v: Value): Option<Asset> {
    match v
    case AssetJson(a) => Some(a)
    case AccountJson(_) => Some(NoAsset)
    case Text(_) => None
  }

  /** The loop of issuerAssets: every decodable scanned value, in scan order. */
  function CollectAssets(s: Store, keys: seq<Key>): (r: seq<Asset>)
    requires forall k | k in keys :: k in s
    ensures forall a :: a in r <==> exists k :: k in keys && DecodeAsset(s[k]) == Some(a)
    ensures |r| <= |keys|
  {
    if |keys| == 0 then []
    else
      var rest := CollectAssets(s, keys[1..]);
      assert forall k | k in keys[1..] :: k in keys;
      match DecodeAsset(s[keys[0]])
      case None => rest
      case Some(a) => [a] + rest
  }

  /**
   * issuerAssets: the records stored under the asset-class keys of `issuer`. In a well-typed,
   * well-keyed store these are exactly the asset classes that issuer has declared, once each.
   */
  function IssuerAssets(s: Store, issuer: string, scan: seq<Key>): (r: seq<Asset>)
    requires IsAssetScan(s, issuer, scan)
    ensures forall a :: a in r <==> exists k :: k in s && k.AssetKey? && k.issuer == issuer && DecodeAsset(s[k]) == Some(a)
    ensures WellTyped(s) && WellKeyed(s) ==>
      forall a :: a in r <==>
        a.issuer == issuer && AssetKey(issuer, a.code) in s && s[AssetKey(issuer, a.code)] == AssetJson(a)
    ensures |r| <= |scan|
  {
    var r := CollectAssets(s, scan);
    if WellTyped(s) && WellKeyed(s) then
      assert forall a | a in r :: a.issuer == issuer && AssetKey(issuer, a.code) in s && s[AssetKey(issuer, a.code)] == AssetJson(a) by {
        forall a | a in r ensures a.issuer == issuer && AssetKey(issuer, a.code) in s && s[AssetKey(issuer, a.code)] == AssetJson(a) {
          var k :| k in scan && DecodeAsset(s[k]) == Some(a);
          assert s[k].AssetJson?;
        }
      }
      assert forall a: Asset | a.issuer == issuer && AssetKey(issuer, a.code) in s && s[AssetKey(issuer, a.code)] == AssetJson(a) :: a in r by {
        forall a: Asset | a.issuer == issuer && AssetKey(issuer, a.code) in s && s[AssetKey(issuer, a.code)] == AssetJson(a) ensures a in r {
          assert AssetKey(issuer, a.code) in scan;
        }
      }
      r
    else r
  }

  // ---------------------------------------------------------------------------------------
  // Dispatch
  // ---------------------------------------------------------------------------------------

  datatype Payload =
    | Nothing
    | AccountRecord(account: Account)
    | AssetRecord(asset: Asset)
    | Holdings(id: string, assets: seq<Asset>)
    | Catalogue(issuer: string, assets: seq<Asset>)

  /** A successful response: the state to commit and the payload returned to the caller. */
  datatype Reply = Reply(store: Store, payload: Payload)

  /** The dispatched function names and the number of arguments each demands. */
  const Arity: map<string, nat> := map[
    "CreateAccount" := 2, "CreateAsset" := 3, "Buy" := 4, "Transfer" := 5,
    "AccountInfo" := 1, "AssetInfo" := 2, "MyAssets" := 1, "IssuerAssets" := 1]

  /** The position of the argument each mutating function parses with Atoi. */
  const NumericArg: map<string, nat> := map[
    "CreateAccount" := 1, "CreateAsset" := 2, "Buy" := 3, "Transfer" := 4]

  const Queries: set<string> := {"AccountInfo", "AssetInfo", "MyAssets", "IssuerAssets"}

  /** The store enumerates the right keys for whichever scan the call performs. */
  ghost predicate ScanFits(s: Store, fn: string, args: seq<string>, scan: seq<Key>) {
    && (fn == "MyAssets" && |args| >= 1 ==> IsHoldingScan(s, args[0], scan))
    && (fn == "IssuerAssets" && |args| >= 1 ==> IsAssetScan(s, args[0], scan))
  }

  function Committed(r: Result<Store, Error>): Result<Reply, Error> {
    match r
    case Ok(t) => Ok(Reply(t, Nothing))
    case Err(e) => Err(e)
  }

  /** The four state-changing functions: arity check, Atoi of the numeric argument, the operation. */
  function Update(s: Store, fn: string, args: seq<string>): (r: Result<Reply, Error>)
    requires fn in NumericArg
    ensures |args| < Arity[fn] ==> r == Err(InvalidArgument)
    ensures |args| >= Arity[fn] && Strconv.Atoi(args[NumericArg[fn]]).None? ==> r == Err(InvalidArgument)
    ensures r.Ok? ==> r.value.payload == Nothing
    ensures r.Ok? && fn == "CreateAccount" ==> |args| >= 2 && Strconv.Atoi(args[1]).Some?
    ensures r.Ok? && fn == "CreateAsset" ==> |args| >= 3 && Strconv.Atoi(args[2]).Some?
    ensures r.Ok? && fn == "Buy" ==> |args| >= 4 && Strconv.Atoi(args[3]).Some?
    ensures r.Ok? && fn == "Transfer" ==> |args| >= 5 && Strconv.Atoi(args[4]).Some?
    ensures fn == "CreateAccount" && |args| >= 2 && Strconv.Atoi(args[1]).Some? ==>
      r == Committed(CreateAccount(s, args[0], Strconv.Atoi(args[1]).value))
    ensures fn == "CreateAsset" && |args| >= 3 && Strconv.Atoi(args[2]).Some? ==>
      r == Committed(CreateAsset(s, args[0], args[1], Strconv.Atoi(args[2]).value))
    ensures fn == "Buy" && |args| >= 4 && Strconv.Atoi(args[3]).Some? ==>
      r == Committed(Buy(s, args[0], args[1], args[2], Strconv.Atoi(args[3]).value))
    ensures fn == "Transfer" && |args| >= 5 && Strconv.Atoi(args[4]).Some? ==>
      r == Committed(Transfer(s, args[0], args[1], args[2], args[3], Strconv.Atoi(args[4]).value))
  {
    if |args| < Arity[fn] then Err(InvalidArgument)
    else match Strconv.Atoi(args[NumericArg[fn]])
      case None => Err(InvalidArgument)
      case Some(n) =>
        if fn == "CreateAccount" then Committed(CreateAccount(s, args[0], n))
        else if fn == "CreateAsset" then Committed(CreateAsset(s, args[0], args[1], n))
        else if fn == "Buy" then Committed(Buy(s, args[0], args[1], args[2], n))
        else Committed(Transfer(s, args[0], args[1], args[2], args[3], n))
  }

  /** The four read-only functions: arity check, then the lookup or scan; the store is kept. */
  function Query(s: Store, fn: string, args: seq<string>, scan: seq<Key>): (r: Result<Reply, Error>)
    requires fn in Queries && ScanFits(s, fn, args, scan)
    ensures |args| < Arity[fn] ==> r == Err(InvalidArgument)
    ensures r.Ok? ==> r.value.store == s
    ensures fn == "AccountInfo" && |args| >= 1 ==>
      && (r.Ok? <==> HasAccount(s, args[0]))
      && (r.Ok? ==> r.value.payload == AccountRecord(AccountInfo(s, args[0]).value))
      && (r.Err? ==> r.error == AccountInfo(s, args[0]).error)
    ensures fn == "AssetInfo" && |args| >= 2 ==>
      && (r.Ok? <==> HasAsset(s, args[0], args[1]))
      && (r.Ok? ==> r.value.payload == AssetRecord(AssetInfo(s, args[0], args[1]).value))
      && (r.Err? ==> r.error == AssetInfo(s, args[0], args[1]).error)
    ensures fn == "MyAssets" && |args| >= 1 ==> r == Ok(Reply(s, Holdings(args[0], MyAssets(s, args[0], scan))))
    ensures fn == "IssuerAssets" && |args| >= 1 ==> r == Ok(Reply(s, Catalogue(args[0], IssuerAssets(s, args[0], scan))))
  {
    if |args| < Arity[fn] then Err(InvalidArgument)
    else if fn == "AccountInfo" then
      match AccountInfo(s, args[0])
      case Err(e) => Err(e)
      case Ok(a) => Ok(Reply(s, AccountRecord(a)))
    else if fn == "AssetInfo" then
      match AssetInfo(s, args[0], args[1])
      case Err(e) => Err(e)
      case Ok(a) => Ok(Reply(s, AssetRecord(a)))
    else if fn == "MyAssets" then Ok(Reply(s, Holdings(args[0], MyAssets(s, args[0], scan))))
    else Ok(Reply(s, Catalogue(args[0], IssuerAssets(s, args[0], scan))))
  }

  /** Invoke: selects the operation by name; unknown names are rejected. */
  function Invoke(s: Store, fn: string, args: seq<string>, scan: seq<Key>): (r: Result<Reply, Error>)
    requires ScanFits(s, fn, args, scan)
    ensures fn !in Arity ==> r == Err(UnknownFunction)
    ensures fn in Arity && |args| < Arity[fn] ==> r == Err(InvalidArgument)
    ensures fn in NumericArg && |args| >= Arity[fn] && Strconv.Atoi(args[NumericArg[fn]]).None? ==>
      r == Err(InvalidArgument)
    ensures fn in Queries && r.Ok? ==> r.value.store == s
    ensures fn !in Queries && r.Ok? ==> r.value.payload == Nothing
    ensures fn in NumericArg ==> r == Update(s, fn, args)
    ensures fn in Queries ==> r == Query(s, fn, args, scan)
  {
    if fn in NumericArg then Update(s, fn, args)
    else if fn in Queries then Query(s, fn, args, scan)
    else Err(UnknownFunction)
  }
}
