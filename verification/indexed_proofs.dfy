/** Invariants and conservation laws of the indexed variant. */
module IndexedProofs {
  import opened Wrappers
  import opened Ledger
  import Strconv
  import opened IndexedLedger
  import opened IndexedQueries
  import opened Sums

  /** The accounts that have a holding key for the class (issuer, code). */
  ghost function ClassOwners(s: Store, issuer: string, code: string): set<string> {
    set k | k in s && k.HoldingKey? && k.issuer == issuer && k.code == code :: k.id
  }

  /** The total quantity of the class (issuer, code) held across all accounts. */
  ghost function ClassTotal(s: Store, issuer: string, code: string): int {
    SumOver(ClassOwners(s, issuer, code), o => HoldingOf(s, o, issuer, code))
  }

  /** Writing one holding of the class changes the class total by the change of that holding. */
  lemma ClassTotalAfterHoldingWrite(s: Store, owner: string, issuer: string, code: string, v: Value)
    ensures ClassTotal(s[HoldingKey(owner, issuer, code) := v], issuer, code) ==
      ClassTotal(s, issuer, code) - HoldingOf(s, owner, issuer, code) + ParseCount(v).GetOr(0)
  {
    var t := s[HoldingKey(owner, issuer, code) := v];
    var hs := o => HoldingOf(s, o, issuer, code);
    var ht := o => HoldingOf(t, o, issuer, code);
    var S := ClassOwners(s, issuer, code);
    var T := ClassOwners(t, issuer, code);
    assert T == S + {owner} by {
      assert HoldingKey(owner, issuer, code) in t;
    }
    SumSplit(T, ht, owner);
    assert T - {owner} == S - {owner};
    SumAgree(S - {owner}, ht, hs);
    if owner in S {
      SumSplit(S, hs, owner);
    } else {
      assert S - {owner} == S;
    }
  }

  /** Writing a key outside the class's holding keys leaves the class total alone. */
  lemma ClassTotalAfterOtherWrite(s: Store, k: Key, v: Value, issuer: string, code: string)
    requires !(k.HoldingKey? && k.issuer == issuer && k.code == code)
    ensures ClassTotal(s[k := v], issuer, code) == ClassTotal(s, issuer, code)
  {
    var t := s[k := v];
    assert ClassOwners(t, issuer, code) == ClassOwners(s, issuer, code);
    SumAgree(ClassOwners(s, issuer, code), o => HoldingOf(t, o, issuer, code), o => HoldingOf(s, o, issuer, code));
  }

  // ---------------------------------------------------------------------------------------
  // Conservation
  // ---------------------------------------------------------------------------------------

  /** Under well-keyedness an account's decoded id is the id it is stored under. */
  lemma AccountIdIsKey(s: Store, id: string)
    requires WellKeyed(s) && HasAccount(s, id)
    ensures AccountOf(s, id).id == id
  {
  }

  /** Under well-keyedness buy writes the account, the class and the holding under the requested keys. */
  lemma BuyWrites(s: Store, id: string, issuer: string, code: string, count: int)
    requires WellKeyed(s)
    requires Buy(s, id, issuer, code, count).Ok?
    ensures HasAccount(s, id) && HasAsset(s, issuer, code)
    ensures Buy(s, id, issuer, code, count).value ==
      s[AccountKey(id) := AccountJson(Account(id, AccountOf(s, id).balance - count))]
       [AssetKey(issuer, code) := AssetJson(Asset(issuer, code, AssetOf(s, issuer, code).amount - count))]
       [HoldingKey(id, issuer, code) := Text(Strconv.Itoa(HoldingOf(s, id, issuer, code) + count))]
  {
    AccountIdIsKey(s, id);
    BuyValue(s, id, issuer, code, count, AccountOf(s, id), AssetOf(s, issuer, code));
  }

  /** The failures of buy past its argument check, each with its own error kind. */
  lemma BuyFailures(s: Store, id: string, issuer: string, code: string, count: int)
    requires id != "" && issuer != "" && code != "" && count > 0
    ensures HasAccount(s, id) && LoadAsset(s, issuer, code).Ok? && !HasAsset(s, issuer, code) ==>
      Buy(s, id, issuer, code, count) == Err(NotFound)
    ensures HasAccount(s, id) && HasAsset(s, issuer, code) && AccountOf(s, id).balance < count ==>
      Buy(s, id, issuer, code, count) == Err(InsufficientFunds)
    ensures (HasAccount(s, id) && HasAsset(s, issuer, code) && AccountOf(s, id).balance >= count
      && AssetOf(s, issuer, code).amount < count) ==> Buy(s, id, issuer, code, count) == Err(InsufficientSupply)
  {
  }

  /** The store buy writes, given the records it loads. */
  lemma BuyValue(s: Store, id: string, issuer: string, code: string, count: int, a: Account, b: Asset)
    requires Buy(s, id, issuer, code, count).Ok?
    requires LoadAccount(s, id) == Ok(a) && a.id == id
    requires LoadAsset(s, issuer, code) == Ok(b) && b.issuer == issuer && b.code == code
    ensures Buy(s, id, issuer, code, count).value ==
      s[AccountKey(id) := AccountJson(Account(id, a.balance - count))]
       [AssetKey(issuer, code) := AssetJson(Asset(issuer, code, b.amount - count))]
       [HoldingKey(id, issuer, code) := Text(Strconv.Itoa(HoldingOf(s, id, issuer, code) + count))]
  {
    assert a.(balance := a.balance - count) == Account(id, a.balance - count);
    assert b.(amount := b.amount - count) == Asset(issuer, code, b.amount - count);
  }

  /** The three writes of buy change the class total only through the holding. */
  lemma BuyTotals(s: Store, id: string, issuer: string, code: string, a: Value, b: Value, v: Value)
    ensures var t := s[AccountKey(id) := a][AssetKey(issuer, code) := b][HoldingKey(id, issuer, code) := v];
      && ClassTotal(t, issuer, code) == ClassTotal(s, issuer, code) - HoldingOf(s, id, issuer, code) + ParseCount(v).GetOr(0)
      && HoldingOf(t, id, issuer, code) == ParseCount(v).GetOr(0)
  {
    var s1 := s[AccountKey(id) := a];
    var s2 := s1[AssetKey(issuer, code) := b];
    ClassTotalAfterOtherWrite(s, AccountKey(id), a, issuer, code);
    ClassTotalAfterOtherWrite(s1, AssetKey(issuer, code), b, issuer, code);
    assert HoldingOf(s2, id, issuer, code) == HoldingOf(s, id, issuer, code);
    ClassTotalAfterHoldingWrite(s2, id, issuer, code, v);
  }

  /**
   * Buy moves value without creating it: the remaining supply plus all holdings of the class is
   * unchanged, and so is the buyer's balance plus its holding.
   */
  lemma BuyConserves(s: Store, id: string, issuer: string, code: string, count: int)
    requires WellKeyed(s)
    requires Buy(s, id, issuer, code, count).Ok?
    ensures var t := Buy(s, id, issuer, code, count).value;
      && AssetOf(t, issuer, code).amount + ClassTotal(t, issuer, code) ==
         AssetOf(s, issuer, code).amount + ClassTotal(s, issuer, code)
      && AccountOf(t, id).balance + HoldingOf(t, id, issuer, code) ==
         AccountOf(s, id).balance + HoldingOf(s, id, issuer, code)
  {
    BuyWrites(s, id, issuer, code, count);
    var a := AccountJson(Account(id, AccountOf(s, id).balance - count));
    var b := AssetJson(Asset(issuer, code, AssetOf(s, issuer, code).amount - count));
    var v := Text(Strconv.Itoa(HoldingOf(s, id, issuer, code) + count));
    BuyTotals(s, id, issuer, code, a, b, v);
    var t := s[AccountKey(id) := a][AssetKey(issuer, code) := b][HoldingKey(id, issuer, code) := v];
    assert LoadAccount(t, id) == Ok(Account(id, AccountOf(s, id).balance - count));
    assert LoadAsset(t, issuer, code) == Ok(Asset(issuer, code, AssetOf(s, issuer, code).amount - count));
  }

  /** Under well-keyedness transfer reduces to its holding step on the requested ids. */
  lemma TransferIsMove(s: Store, from: string, to: string, issuer: string, code: string, count: int)
    requires WellKeyed(s)
    requires Transfer(s, from, to, issuer, code, count).Ok?
    ensures Transfer(s, from, to, issuer, code, count) == MoveHolding(s, from, to, issuer, code, count)
  {
    AccountIdIsKey(s, from);
    AccountIdIsKey(s, to);
    assert LoadAccount(s, from) == Ok(AccountOf(s, from));
    assert LoadAccount(s, to) == Ok(AccountOf(s, to));
  }

  /** Under well-keyedness the holdings transfer writes are keyed by the requested account ids. */
  lemma TransferWrites(s: Store, from: string, to: string, issuer: string, code: string, count: int)
    requires WellKeyed(s)
    requires Transfer(s, from, to, issuer, code, count).Ok?
    ensures Transfer(s, from, to, issuer, code, count).value ==
      s[HoldingKey(from, issuer, code) := Text(Strconv.Itoa(HoldingOf(s, from, issuer, code) - count))]
       [HoldingKey(to, issuer, code) := Text(Strconv.Itoa(HoldingOf(s, to, issuer, code) + count))]
  {
    TransferIsMove(s, from, to, issuer, code, count);
  }

  /** Two holding writes of one class for different owners change the total by both changes. */
  lemma TwoHoldingWrites(s: Store, from: string, to: string, issuer: string, code: string, v1: Value, v2: Value)
    requires from != to
    ensures var t := s[HoldingKey(from, issuer, code) := v1][HoldingKey(to, issuer, code) := v2];
      && HoldingOf(t, from, issuer, code) == ParseCount(v1).GetOr(0)
      && HoldingOf(t, to, issuer, code) == ParseCount(v2).GetOr(0)
      && ClassTotal(t, issuer, code) ==
         ClassTotal(s, issuer, code) - HoldingOf(s, from, issuer, code) - HoldingOf(s, to, issuer, code)
           + ParseCount(v1).GetOr(0) + ParseCount(v2).GetOr(0)
  {
    var m := s[HoldingKey(from, issuer, code) := v1];
    ClassTotalAfterHoldingWrite(s, from, issuer, code, v1);
    assert HoldingOf(m, to, issuer, code) == HoldingOf(s, to, issuer, code);
    ClassTotalAfterHoldingWrite(m, to, issuer, code, v2);
  }

  /**
   * Transfer between two distinct accounts debits the source by `count`, credits the
   * destination by `count`, touches no other key, and keeps the class total.
   */
  lemma TransferConserves(s: Store, from: string, to: string, issuer: string, code: string, count: int)
    requires WellKeyed(s) && from != to
    requires Transfer(s, from, to, issuer, code, count).Ok?
    ensures var t := Transfer(s, from, to, issuer, code, count).value;
      && HoldingOf(t, from, issuer, code) == HoldingOf(s, from, issuer, code) - count
      && HoldingOf(t, to, issuer, code) == HoldingOf(s, to, issuer, code) + count
      && SameExcept(s, t, {HoldingKey(from, issuer, code), HoldingKey(to, issuer, code)})
      && ClassTotal(t, issuer, code) == ClassTotal(s, issuer, code)
  {
    TransferWrites(s, from, to, issuer, code, count);
    var v1 := Text(Strconv.Itoa(HoldingOf(s, from, issuer, code) - count));
    var v2 := Text(Strconv.Itoa(HoldingOf(s, to, issuer, code) + count));
    TwoHoldingWrites(s, from, to, issuer, code, v1, v2);
  }

  /**
   * A transfer from an account to itself reads the holding twice before writing it twice; the
   * credit is written last and wins, so the holding and the class total grow by `count`.
   */
  lemma SelfTransferMints(s: Store, id: string, issuer: string, code: string, count: int)
    requires WellKeyed(s)
    requires Transfer(s, id, id, issuer, code, count).Ok?
    ensures var t := Transfer(s, id, id, issuer, code, count).value;
      && HoldingOf(t, id, issuer, code) == HoldingOf(s, id, issuer, code) + count
      && SameExcept(s, t, {HoldingKey(id, issuer, code)})
      && ClassTotal(t, issuer, code) == ClassTotal(s, issuer, code) + count
  {
    TransferIsMove(s, id, id, issuer, code, count);
    SelfMoveMints(s, id, issuer, code, count);
  }

  /** The holding step with both ends on one account: the credit overwrites the debit. */
  lemma SelfMoveMints(s: Store, id: string, issuer: string, code: string, count: int)
    requires MoveHolding(s, id, id, issuer, code, count).Ok?
    ensures var t := MoveHolding(s, id, id, issuer, code, count).value;
      && HoldingOf(t, id, issuer, code) == HoldingOf(s, id, issuer, code) + count
      && SameExcept(s, t, {HoldingKey(id, issuer, code)})
      && ClassTotal(t, issuer, code) == ClassTotal(s, issuer, code) + count
  {
    var held := HoldingOf(s, id, issuer, code);
    SelfMoveValue(s, id, issuer, code, count);
    MintedStore(s, MoveHolding(s, id, id, issuer, code, count).value, id, issuer, code, held, count);
  }

  /** A store whose one holding was overwritten by the text of held + count. */
  lemma MintedStore(s: Store, t: Store, id: string, issuer: string, code: string, held: int, count: int)
    requires held == HoldingOf(s, id, issuer, code)
    requires t == s[HoldingKey(id, issuer, code) := Text(Strconv.Itoa(held - count))]
                   [HoldingKey(id, issuer, code) := Text(Strconv.Itoa(held + count))]
    ensures HoldingOf(t, id, issuer, code) == held + count
    ensures SameExcept(s, t, {HoldingKey(id, issuer, code)})
    ensures ClassTotal(t, issuer, code) == ClassTotal(s, issuer, code) + count
  {
    ItoaParses(held + count);
    TwoWritesOneHolding(s, id, issuer, code, Text(Strconv.Itoa(held - count)), Text(Strconv.Itoa(held + count)));
  }

  /** The store the self-transfer holding step writes. */
  lemma SelfMoveValue(s: Store, id: string, issuer: string, code: string, count: int)
    requires MoveHolding(s, id, id, issuer, code, count).Ok?
    ensures MoveHolding(s, id, id, issuer, code, count).value ==
      s[HoldingKey(id, issuer, code) := Text(Strconv.Itoa(HoldingOf(s, id, issuer, code) - count))]
       [HoldingKey(id, issuer, code) := Text(Strconv.Itoa(HoldingOf(s, id, issuer, code) + count))]
  {
  }

  /** A holding written as the decimal text of n reads back as n. */
  lemma HoldingReadsBack(s: Store, owner: string, issuer: string, code: string, n: int)
    requires HoldingKey(owner, issuer, code) in s && s[HoldingKey(owner, issuer, code)] == Text(Strconv.Itoa(n))
    ensures HoldingOf(s, owner, issuer, code) == n
  {
  }

  lemma ItoaParses(n: int)
    ensures ParseCount(Text(Strconv.Itoa(n))) == Some(n)
  {
  }

  /** Two writes of one holding: the second hides the first. */
  lemma TwoWritesOneHolding(s: Store, owner: string, issuer: string, code: string, v1: Value, v2: Value)
    ensures var t := s[HoldingKey(owner, issuer, code) := v1][HoldingKey(owner, issuer, code) := v2];
      && HoldingOf(t, owner, issuer, code) == ParseCount(v2).GetOr(0)
      && SameExcept(s, t, {HoldingKey(owner, issuer, code)})
      && ClassTotal(t, issuer, code) == ClassTotal(s, issuer, code) - HoldingOf(s, owner, issuer, code) + ParseCount(v2).GetOr(0)
  {
    var k := HoldingKey(owner, issuer, code);
    assert s[k := v1][k := v2] == s[k := v2];
    OneHoldingWrite(s, owner, issuer, code, v2);
  }

  /** One holding write changes that holding, no other key, and the class total by the change. */
  lemma OneHoldingWrite(s: Store, owner: string, issuer: string, code: string, v: Value)
    ensures var t := s[HoldingKey(owner, issuer, code) := v];
      && HoldingOf(t, owner, issuer, code) == ParseCount(v).GetOr(0)
      && SameExcept(s, t, {HoldingKey(owner, issuer, code)})
      && ClassTotal(t, issuer, code) == ClassTotal(s, issuer, code) - HoldingOf(s, owner, issuer, code) + ParseCount(v).GetOr(0)
  {
    ClassTotalAfterHoldingWrite(s, owner, issuer, code, v);
  }

  // ---------------------------------------------------------------------------------------
  // Invariant preservation
  // ---------------------------------------------------------------------------------------

  lemma HoldingNonNegative(s: Store, owner: string, issuer: string, code: string)
    requires NonNegative(s)
    ensures HoldingOf(s, owner, issuer, code) >= 0
  {
    var k := HoldingKey(owner, issuer, code);
    if k in s && ParseCount(s[k]).Some? {
      assert ParseCount(s[k]).value >= 0;
    }
  }

  lemma InitValid(s: Store)
    requires Valid(s) && Init(s).Ok?
    ensures Valid(Init(s).value)
  {
  }

  /** Writing an account under its own id keeps the invariant when its balance is not negative. */
  lemma AccountWriteValid(s: Store, a: Account)
    requires Valid(s) && a.balance >= 0
    ensures Valid(s[AccountKey(a.id) := AccountJson(a)])
  {
  }

  /** Writing an asset class under its own key keeps the invariant when its supply is not negative. */
  lemma AssetWriteValid(s: Store, a: Asset)
    requires Valid(s) && a.amount >= 0
    ensures Valid(s[AssetKey(a.issuer, a.code) := AssetJson(a)])
  {
  }

  /** Writing a holding as the decimal text of a non-negative count keeps the invariant. */
  lemma HoldingWriteValid(s: Store, owner: string, issuer: string, code: string, n: int)
    requires Valid(s) && n >= 0
    ensures Valid(s[HoldingKey(owner, issuer, code) := Text(Strconv.Itoa(n))])
  {
    assert ParseCount(Text(Strconv.Itoa(n))) == Some(n);
  }

  lemma CreateAccountValid(s: Store, id: string, balance: int)
    requires Valid(s) && CreateAccount(s, id, balance).Ok?
    ensures Valid(CreateAccount(s, id, balance).value)
  {
    AccountWriteValid(s, Account(id, balance));
  }

  lemma CreateAssetValid(s: Store, issuer: string, code: string, amount: int)
    requires Valid(s) && CreateAsset(s, issuer, code, amount).Ok?
    ensures Valid(CreateAsset(s, issuer, code, amount).value)
  {
    AssetWriteValid(s, Asset(issuer, code, amount));
  }

  lemma BuyValid(s: Store, id: string, issuer: string, code: string, count: int)
    requires Valid(s) && Buy(s, id, issuer, code, count).Ok?
    ensures Valid(Buy(s, id, issuer, code, count).value)
  {
    BuyWrites(s, id, issuer, code, count);
    HoldingNonNegative(s, id, issuer, code);
    var a := Account(id, AccountOf(s, id).balance - count);
    var b := Asset(issuer, code, AssetOf(s, issuer, code).amount - count);
    AccountWriteValid(s, a);
    var s1 := s[AccountKey(id) := AccountJson(a)];
    AssetWriteValid(s1, b);
    var s2 := s1[AssetKey(issuer, code) := AssetJson(b)];
    HoldingWriteValid(s2, id, issuer, code, HoldingOf(s, id, issuer, code) + count);
  }

  lemma TransferValid(s: Store, from: string, to: string, issuer: string, code: string, count: int)
    requires Valid(s) && Transfer(s, from, to, issuer, code, count).Ok?
    ensures Valid(Transfer(s, from, to, issuer, code, count).value)
  {
    TransferIsMove(s, from, to, issuer, code, count);
    AccountIdIsKey(s, from);
    AccountIdIsKey(s, to);
    MoveValid(s, AccountOf(s, from).id, AccountOf(s, to).id, issuer, code, count);
  }

  /** The holding step of a positive count keeps the invariant. */
  lemma MoveValid(s: Store, from: string, to: string, issuer: string, code: string, count: int)
    requires Valid(s) && count > 0 && MoveHolding(s, from, to, issuer, code, count).Ok?
    ensures Valid(MoveHolding(s, from, to, issuer, code, count).value)
  {
    HoldingNonNegative(s, to, issuer, code);
    TwoHoldingWritesValid(s, from, to, issuer, code,
      HoldingOf(s, from, issuer, code) - count, HoldingOf(s, to, issuer, code) + count);
  }

  /** Two holding writes of non-negative counts keep the invariant. */
  lemma TwoHoldingWritesValid(s: Store, from: string, to: string, issuer: string, code: string, n1: int, n2: int)
    requires Valid(s) && n1 >= 0 && n2 >= 0
    ensures Valid(s[HoldingKey(from, issuer, code) := Text(Strconv.Itoa(n1))][HoldingKey(to, issuer, code) := Text(Strconv.Itoa(n2))])
  {
    HoldingWriteValid(s, from, issuer, code, n1);
    HoldingWriteValid(s[HoldingKey(from, issuer, code) := Text(Strconv.Itoa(n1))], to, issuer, code, n2);
  }

  /** Every successful invocation keeps the store well-typed, well-keyed and non-negative. */
  lemma InvokeValid(s: Store, fn: string, args: seq<string>, scan: seq<Key>)
    requires Valid(s) && ScanFits(s, fn, args, scan)
    requires Invoke(s, fn, args, scan).Ok?
    ensures Valid(Invoke(s, fn, args, scan).value.store)
  {
    if fn in NumericArg {
      UpdateValid(s, fn, args);
    }
  }

  /** Each state-changing function keeps the invariant. */
  lemma UpdateValid(s: Store, fn: string, args: seq<string>)
    requires Valid(s) && fn in NumericArg
    requires Update(s, fn, args).Ok?
    ensures Valid(Update(s, fn, args).value.store)
  {
    if fn == "CreateAccount" {
      CreateAccountValid(s, args[0], Strconv.Atoi(args[1]).value);
    } else if fn == "CreateAsset" {
      CreateAssetValid(s, args[0], args[1], Strconv.Atoi(args[2]).value);
    } else if fn == "Buy" {
      BuyValid(s, args[0], args[1], args[2], Strconv.Atoi(args[3]).value);
    } else {
      assert fn == "Transfer";
      TransferValid(s, args[0], args[1], args[2], args[3], Strconv.Atoi(args[4]).value);
    }
  }

  // ---------------------------------------------------------------------------------------
  // Queries
  // ---------------------------------------------------------------------------------------

  lemma {:induction false} NoDupCount<T>(xs: seq<T>, x: T)
    requires NoDup(xs)
    ensures multiset(xs)[x] == if x in xs then 1 else 0
  {
    if |xs| > 0 {
      assert xs == [xs[0]] + xs[1..];
      NoDupCount(xs[1..], x);
    }
  }

  /** myAssets does not depend on the order in which the store enumerates the holding keys. */
  lemma MyAssetsOrderIndependent(s: Store, owner: string, scan1: seq<Key>, scan2: seq<Key>)
    requires IsHoldingScan(s, owner, scan1) && IsHoldingScan(s, owner, scan2)
    ensures multiset(MyAssets(s, owner, scan1)) == multiset(MyAssets(s, owner, scan2))
  {
    var r1 := MyAssets(s, owner, scan1);
    var r2 := MyAssets(s, owner, scan2);
    forall a ensures multiset(r1)[a] == multiset(r2)[a] {
      NoDupCount(r1, a);
      NoDupCount(r2, a);
    }
  }

  /** The states of the worked example below. */
  const Genesis: Store := map[AssetKey("AAA", "A1") := AssetJson(SeedA1), AssetKey("BBB", "B1") := AssetJson(SeedB1)]
  const AliceOpened: Store := Genesis[AccountKey("alice") := AccountJson(Account("alice", 100))]
  const AliceBought: Store :=
    AliceOpened[AccountKey("alice") := AccountJson(Account("alice", 70))]
               [AssetKey("AAA", "A1") := AssetJson(Asset("AAA", "A1", 9970))]
               [HoldingKey("alice", "AAA", "A1") := Text(Strconv.Itoa(30))]

  lemma AtoiExamples()
    ensures Strconv.Atoi("100") == Some(100)
    ensures Strconv.Atoi("30") == Some(30)
  {
    assert "100"[..2] == "10" && "10"[..1] == "1" && "1"[..0] == [];
    assert "30"[..1] == "3" && "3"[..0] == [];
  }

  /** Invoke dispatches CreateAccount with its parsed balance. */
  lemma InvokeCreateAccount(s: Store, args: seq<string>, scan: seq<Key>)
    requires |args| >= 2 && Strconv.Atoi(args[1]).Some?
    ensures Invoke(s, "CreateAccount", args, scan) == Committed(CreateAccount(s, args[0], Strconv.Atoi(args[1]).value))
  {
  }

  /** Invoke dispatches Buy with its parsed count. */
  lemma InvokeBuy(s: Store, args: seq<string>, scan: seq<Key>)
    requires |args| >= 4 && Strconv.Atoi(args[3]).Some?
    ensures Invoke(s, "Buy", args, scan) == Committed(Buy(s, args[0], args[1], args[2], Strconv.Atoi(args[3]).value))
  {
  }

  lemma AliceOpens()
    ensures Init(map[]) == Ok(Genesis)
    ensures Invoke(Genesis, "CreateAccount", ["alice", "100"], []) == Ok(Reply(AliceOpened, Nothing))
  {
    AtoiExamples();
    InvokeCreateAccount(Genesis, ["alice", "100"], []);
    assert CreateAccount(Genesis, "alice", 100) == Ok(AliceOpened);
  }

  /** The buy itself: alice pays 30 of her 100 for 30 of the 10000 units of AAA/A1. */
  lemma AliceBuyStep()
    ensures Buy(AliceOpened, "alice", "AAA", "A1", 30) == Ok(AliceBought)
  {
    assert HoldingOf(AliceOpened, "alice", "AAA", "A1") == 0;
    assert LoadAccount(AliceOpened, "alice") == Ok(Account("alice", 100));
    assert LoadAsset(AliceOpened, "AAA", "A1") == Ok(SeedA1);
  }

  lemma AliceBuys()
    ensures Invoke(AliceOpened, "Buy", ["alice", "AAA", "A1", "30"], []) == Ok(Reply(AliceBought, Nothing))
  {
    AtoiExamples();
    AliceBuyStep();
    InvokeBuy(AliceOpened, ["alice", "AAA", "A1", "30"], []);
  }

  /** What the queries report after the buy. */
  lemma AliceAfterBuy()
    ensures AccountInfo(AliceBought, "alice") == Ok(Account("alice", 70))
    ensures AssetInfo(AliceBought, "AAA", "A1") == Ok(Asset("AAA", "A1", 9970))
    ensures IsHoldingScan(AliceBought, "alice", [HoldingKey("alice", "AAA", "A1")])
    ensures MyAssets(AliceBought, "alice", [HoldingKey("alice", "AAA", "A1")]) == [Asset("AAA", "A1", 30)]
  {
    var k := HoldingKey("alice", "AAA", "A1");
    assert ParseCount(AliceBought[k]) == Some(30);
    assert forall key :: key in AliceBought && key.HoldingKey? && key.id == "alice" ==> key == k;
  }

  /**
   * The worked example: after Init, CreateAccount("alice", "100") and
   * Buy("alice", "AAA", "A1", "30"), alice has balance 70, the class AAA/A1 has 9970 left, and
   * alice's holdings list is exactly [{AAA, A1, 30}].
   */
  lemma AliceBuysThirty()
    ensures Init(map[]) == Ok(Genesis)
    ensures Invoke(Genesis, "CreateAccount", ["alice", "100"], []) == Ok(Reply(AliceOpened, Nothing))
    ensures Invoke(AliceOpened, "Buy", ["alice", "AAA", "A1", "30"], []) == Ok(Reply(AliceBought, Nothing))
    ensures AccountInfo(AliceBought, "alice") == Ok(Account("alice", 70))
    ensures AssetInfo(AliceBought, "AAA", "A1") == Ok(Asset("AAA", "A1", 9970))
    ensures IsHoldingScan(AliceBought, "alice", [HoldingKey("alice", "AAA", "A1")])
    ensures MyAssets(AliceBought, "alice", [HoldingKey("alice", "AAA", "A1")]) == [Asset("AAA", "A1", 30)]
  {
    AliceOpens();
    AliceBuys();
    AliceAfterBuy();
  }
}
