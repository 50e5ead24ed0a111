/** Invariants, conservation laws and the credit defect of the embedded variant. */
module EmbeddedProofs {
  import opened Wrappers
  import opened Ledger
  import opened AssetLists
  import opened Sums
  import opened EmbeddedLedger

  lemma AccountIdIsKey(s: Store, id: string)
    requires Valid(s) && HasAccount(s, id)
    ensures AccountOf(s, id).accountId == id && s[id] == Record(AccountOf(s, id))
    ensures Unique(AccountOf(s, id).assets) && AssetLists.NonNegative(AccountOf(s, id).assets)
  {
  }

  // ---------------------------------------------------------------------------------------
  // The invariant
  // ---------------------------------------------------------------------------------------

  lemma CreateAccountValid(s: Store, p: Json)
    requires Valid(s) && CreateAccount(s, p).Ok?
    ensures Valid(CreateAccount(s, p).value)
  {
  }

  lemma AddAssetValid(s: Store, accountId: string, p: Json)
    requires Valid(s) && AddAsset(s, accountId, p).Ok?
    ensures Valid(AddAsset(s, accountId, p).value)
  {
    AccountIdIsKey(s, accountId);
  }

  /** Under the invariant, the corrected transfer writes the debited and credited lists back under the two ids. */
  lemma TransferWrites(s: Store, fromId: string, p: Json)
    requires Valid(s) && TransferAsset(s, fromId, p).Ok?
    ensures HasAccount(s, fromId) && HasAccount(s, p.accountId) && p.asset.Some?
    ensures Debit(AccountOf(s, fromId).assets, p.asset.value).Ok?
    ensures TransferAsset(s, fromId, p).value ==
      s[fromId := Record(Account(fromId, Debit(AccountOf(s, fromId).assets, p.asset.value).value))]
       [p.accountId := Record(Account(p.accountId, Credit(AccountOf(s, p.accountId).assets, p.asset.value)))]
  {
    AccountIdIsKey(s, fromId);
    AccountIdIsKey(s, p.accountId);
  }

  lemma TransferAssetValid(s: Store, fromId: string, p: Json)
    requires Valid(s) && TransferAsset(s, fromId, p).Ok?
    ensures Valid(TransferAsset(s, fromId, p).value)
  {
    TransferWrites(s, fromId, p);
    AccountIdIsKey(s, fromId);
    AccountIdIsKey(s, p.accountId);
    var list := AccountOf(s, fromId).assets;
    SameClassesUnique(list, Debit(list, p.asset.value).value);
  }

  /** Writing a well-formed record under its own id keeps the invariant. */
  lemma WriteValid(s: Store, id: string, list: seq<Asset>)
    requires Valid(s) && Unique(list) && AssetLists.NonNegative(list)
    ensures Valid(s[id := Record(Account(id, list))])
  {
  }

  /** Under the invariant, the credit as written writes its two lists back under the two ids. */
  lemma AsWrittenWrites(s: Store, fromId: string, p: Json)
    requires Valid(s) && TransferAssetAsWritten(s, fromId, p).Ok?
    ensures HasAccount(s, fromId) && HasAccount(s, p.accountId) && p.asset.Some?
    ensures Debit(AccountOf(s, fromId).assets, p.asset.value).Ok?
    ensures CreditAsWritten(Debit(AccountOf(s, fromId).assets, p.asset.value).value, AccountOf(s, p.accountId).assets, p.asset.value, 0).Ok?
    ensures var x := p.asset.value;
      var dest := AccountOf(s, p.accountId).assets;
      var source := CreditAsWritten(Debit(AccountOf(s, fromId).assets, x).value, dest, x, 0).value;
      TransferAssetAsWritten(s, fromId, p).value ==
        s[fromId := Record(Account(fromId, source))]
         [p.accountId := Record(Account(p.accountId, if MatchCount(dest, x.issuer, x.code) == 0 then dest + [x] else dest))]
  {
    AccountIdIsKey(s, fromId);
    AccountIdIsKey(s, p.accountId);
  }

  /** The source list the credit as written produces is still well-formed. */
  lemma AsWrittenSourceWellFormed(list: seq<Asset>, dest: seq<Asset>, x: Asset)
    requires Unique(list) && AssetLists.NonNegative(list) && AssetLists.NonNegative(dest) && x.amount >= 0
    requires Debit(list, x).Ok?
    requires CreditAsWritten(Debit(list, x).value, dest, x, 0).Ok?
    ensures Unique(CreditAsWritten(Debit(list, x).value, dest, x, 0).value)
    ensures AssetLists.NonNegative(CreditAsWritten(Debit(list, x).value, dest, x, 0).value)
  {
    var debited := Debit(list, x).value;
    SameClassesUnique(list, debited);
    SameClassesUnique(debited, CreditAsWritten(debited, dest, x, 0).value);
  }

  /** The destination list the credit as written leaves is still well-formed. */
  lemma AsWrittenDestinationWellFormed(dest: seq<Asset>, x: Asset)
    requires Unique(dest) && AssetLists.NonNegative(dest) && x.amount >= 0
    ensures var d := if MatchCount(dest, x.issuer, x.code) == 0 then dest + [x] else dest;
      Unique(d) && AssetLists.NonNegative(d)
  {
    if MatchCount(dest, x.issuer, x.code) == 0 {
      AppendNewClass(dest, x);
    }
  }

  lemma TransferAssetAsWrittenValid(s: Store, fromId: string, p: Json)
    requires Valid(s) && TransferAssetAsWritten(s, fromId, p).Ok?
    ensures Valid(TransferAssetAsWritten(s, fromId, p).value)
  {
    AsWrittenWrites(s, fromId, p);
    AccountIdIsKey(s, fromId);
    AccountIdIsKey(s, p.accountId);
    var x := p.asset.value;
    var dest := AccountOf(s, p.accountId).assets;
    var source := CreditAsWritten(Debit(AccountOf(s, fromId).assets, x).value, dest, x, 0).value;
    assert x.amount >= 0;
    AsWrittenSourceWellFormed(AccountOf(s, fromId).assets, dest, x);
    AsWrittenDestinationWellFormed(dest, x);
    var m := s[fromId := Record(Account(fromId, source))];
    WriteValid(s, fromId, source);
    WriteValid(m, p.accountId, if MatchCount(dest, x.issuer, x.code) == 0 then dest + [x] else dest);
  }

  /** Every successful invocation keeps the invariant. */
  lemma InvokeValid(s: Store, args: seq<Arg>)
    requires Valid(s) && Invoke(s, args).Ok?
    ensures Valid(Invoke(s, args).value.store)
  {
    var fn := args[0].text;
    if fn == "CreateAccount" {
      CreateAccountValid(s, args[1].json);
    } else if fn == "AddAsset" {
      AddAssetValid(s, args[1].text, args[2].json);
    } else if fn == "TransferAsset" {
      TransferAssetValid(s, args[1].text, args[2].json);
    }
  }

  // ---------------------------------------------------------------------------------------
  // Conservation
  // ---------------------------------------------------------------------------------------

  /** The total quantity of the class (issuer, code) held across all accounts. */
  ghost function ClassTotal(s: Store, issuer: string, code: string): int {
    SumOver(s.Keys, id => HoldingAt(s, id, issuer, code))
  }

  /** Writing one key changes the class total by the change of that key's holding. */
  lemma ClassTotalAfterWrite(s: Store, k: string, v: Value, issuer: string, code: string)
    ensures ClassTotal(s[k := v], issuer, code) ==
      ClassTotal(s, issuer, code) - HoldingAt(s, k, issuer, code) + HoldingAt(s[k := v], k, issuer, code)
  {
    var t := s[k := v];
    var hs := id => HoldingAt(s, id, issuer, code);
    var ht := id => HoldingAt(t, id, issuer, code);
    SumSplit(t.Keys, ht, k);
    assert t.Keys - {k} == s.Keys - {k};
    forall id | id in s.Keys - {k} ensures ht(id) == hs(id) {
      assert LoadAccount(t, id) == LoadAccount(s, id);
    }
    SumAgree(s.Keys - {k}, ht, hs);
    if k in s {
      SumSplit(s.Keys, hs, k);
    } else {
      assert s.Keys - {k} == s.Keys;
    }
  }

  /** Under the invariant an account holds x's class in one entry at most, so a debit takes x.amount once. */
  lemma DebitOnce(list: seq<Asset>, x: Asset)
    requires Unique(list) && Debit(list, x).Ok?
    ensures Holding(Debit(list, x).value, x.issuer, x.code) == Holding(list, x.issuer, x.code) - x.amount
  {
    UniqueMatchCount(list, x.issuer, x.code);
    var m := MatchCount(list, x.issuer, x.code);
    assert m == 1;
    assert Holding(Debit(list, x).value, x.issuer, x.code) == Holding(list, x.issuer, x.code) - Times(x.amount, m);
  }

  /**
   * A transfer between two different accounts moves x.amount of the class from one to the other,
   * leaves every other class and every other key alone, and keeps every class total.
   */
  lemma TransferConserves(s: Store, fromId: string, p: Json, issuer: string, code: string)
    requires Valid(s) && TransferAsset(s, fromId, p).Ok? && fromId != p.accountId
    ensures var t := TransferAsset(s, fromId, p).value;
      var moved := if OfClass(p.asset.value, issuer, code) then p.asset.value.amount else 0;
      && HoldingAt(t, fromId, issuer, code) == HoldingAt(s, fromId, issuer, code) - moved
      && HoldingAt(t, p.accountId, issuer, code) == HoldingAt(s, p.accountId, issuer, code) + moved
      && ClassTotal(t, issuer, code) == ClassTotal(s, issuer, code)
      && SameExcept(s, t, {fromId, p.accountId})
  {
    TransferWrites(s, fromId, p);
    AccountIdIsKey(s, fromId);
    AccountIdIsKey(s, p.accountId);
    var x := p.asset.value;
    var debited := Debit(AccountOf(s, fromId).assets, x).value;
    var credited := Credit(AccountOf(s, p.accountId).assets, x);
    DebitOnce(AccountOf(s, fromId).assets, x);
    var s1 := s[fromId := Record(Account(fromId, debited))];
    var t := s1[p.accountId := Record(Account(p.accountId, credited))];
    assert LoadAccount(s1, p.accountId) == LoadAccount(s, p.accountId);
    assert LoadAccount(t, fromId) == LoadAccount(s1, fromId);
    ClassTotalAfterWrite(s, fromId, Record(Account(fromId, debited)), issuer, code);
    ClassTotalAfterWrite(s1, p.accountId, Record(Account(p.accountId, credited)), issuer, code);
  }

  /** A transfer to the sender itself mints: the credited list replaces the debited one. */
  lemma SelfTransferMints(s: Store, id: string, p: Json)
    requires Valid(s) && TransferAsset(s, id, p).Ok? && id == p.accountId
    ensures var t := TransferAsset(s, id, p).value; var x := p.asset.value;
      && HoldingAt(t, id, x.issuer, x.code) == HoldingAt(s, id, x.issuer, x.code) + x.amount
      && ClassTotal(t, x.issuer, x.code) == ClassTotal(s, x.issuer, x.code) + x.amount
  {
    TransferWrites(s, id, p);
    AccountIdIsKey(s, id);
    var x := p.asset.value;
    var t := TransferAsset(s, id, p).value;
    assert t == s[id := Record(Account(id, Credit(AccountOf(s, id).assets, x)))];
    ClassTotalAfterWrite(s, id, Record(Account(id, Credit(AccountOf(s, id).assets, x))), x.issuer, x.code);
  }

  /** Adding an asset raises the holding and the total of its class by its amount. */
  lemma AddAssetMints(s: Store, accountId: string, p: Json, issuer: string, code: string)
    requires Valid(s) && AddAsset(s, accountId, p).Ok?
    ensures var t := AddAsset(s, accountId, p).value;
      var added := if OfClass(p.asset.value, issuer, code) then p.asset.value.amount else 0;
      && HoldingAt(t, accountId, issuer, code) == HoldingAt(s, accountId, issuer, code) + added
      && ClassTotal(t, issuer, code) == ClassTotal(s, issuer, code) + added
  {
    AccountIdIsKey(s, accountId);
    var x := p.asset.value;
    var v := Record(Account(accountId, Merge(AccountOf(s, accountId).assets, x)));
    assert AddAsset(s, accountId, p).value == s[accountId := v];
    ClassTotalAfterWrite(s, accountId, v, issuer, code);
  }

  /** Opening an account changes no class total. */
  lemma CreateAccountConserves(s: Store, p: Json, issuer: string, code: string)
    requires CreateAccount(s, p).Ok?
    ensures ClassTotal(CreateAccount(s, p).value, issuer, code) == ClassTotal(s, issuer, code)
  {
    ClassTotalAfterWrite(s, p.accountId, Record(Account(p.accountId, [])), issuer, code);
  }

  // ---------------------------------------------------------------------------------------
  // The credit loop as written
  // ---------------------------------------------------------------------------------------

  /**
   * As written, a destination that already holds the class is saved back unchanged: it never
   * receives the units the source lost.
   */
  lemma AsWrittenDestinationUnchanged(s: Store, fromId: string, p: Json)
    requires Valid(s) && TransferAssetAsWritten(s, fromId, p).Ok?
    requires HasAccount(s, p.accountId)
    requires MatchCount(AccountOf(s, p.accountId).assets, p.asset.value.issuer, p.asset.value.code) > 0
    ensures TransferAssetAsWritten(s, fromId, p).value[p.accountId] == s[p.accountId]
  {
    AccountIdIsKey(s, p.accountId);
  }

  /** As written, a transfer to the sender itself leaves the ledger exactly as it was. */
  lemma AsWrittenSelfTransferNoOp(s: Store, id: string, p: Json)
    requires Valid(s) && TransferAssetAsWritten(s, id, p).Ok? && id == p.accountId
    ensures TransferAssetAsWritten(s, id, p).value == s
  {
    AccountIdIsKey(s, id);
  }

  /** Off the defect the two transfers agree: when the receiver does not hold the class yet,
      the credit as written and the corrected credit give the same result. */
  lemma AsWrittenAgreesWithoutDefect(s: Store, fromId: string, p: Json)
    requires (p.asset.Some? && HasAccount(s, p.accountId)) ==>
      MatchCount(AccountOf(s, p.accountId).assets, p.asset.value.issuer, p.asset.value.code) == 0
    ensures TransferAssetAsWritten(s, fromId, p) == TransferAsset(s, fromId, p)
  {
    if TransferDebit(s, fromId, p).Ok? {
      var x := p.asset.value;
      var dest := AccountOf(s, p.accountId).assets;
      var debited := TransferDebit(s, fromId, p).value.2;
      var source := CreditAsWritten(debited, dest, x, 0).value;
      assert |source| == |debited| && forall k | 0 <= k < |debited| :: source[k] == debited[k];
      assert source == debited;
      assert Credit(dest, x) == dest + [x];
    }
  }

  /** The debit both examples share: 10 of AAA/A1 less 3. */
  lemma DebitTenByThree()
    ensures Debit([Asset("AAA", "A1", 10)], Asset("AAA", "A1", 3)) == Ok([Asset("AAA", "A1", 7)])
  {
    var list := [Asset("AAA", "A1", 10)];
    var x := Asset("AAA", "A1", 3);
    assert MatchCount(list, "AAA", "A1") == 1;
    assert !exists i | 0 <= i < |list| :: OfClass(list[i], x.issuer, x.code) && list[i].amount < x.amount;
    assert list[1..] == [];
    assert Adjust([], "AAA", "A1", -3) == [];
    assert Adjust(list, "AAA", "A1", -3) == [Asset("AAA", "A1", 7)] + [];
    assert Adjust(list, x.issuer, x.code, -x.amount) == [Asset("AAA", "A1", 7)];
    assert Debit(list, x) == Ok(Adjust(list, x.issuer, x.code, -x.amount));
  }

  /** The corrected credit of the first example: 5 of AAA/A1 plus 3. */
  lemma CreditFiveByThree()
    ensures Credit([Asset("AAA", "A1", 5)], Asset("AAA", "A1", 3)) == [Asset("AAA", "A1", 8)]
  {
    var list := [Asset("AAA", "A1", 5)];
    assert MatchCount(list, "AAA", "A1") == 1;
    assert list[1..] == [];
    assert Adjust([], "AAA", "A1", 3) == [];
    assert Adjust(list, "AAA", "A1", 3) == [Asset("AAA", "A1", 8)] + [];
  }

  const TwoAccounts: Store := map[
    "A" := Record(Account("A", [Asset("AAA", "A1", 10)])),
    "B" := Record(Account("B", [Asset("AAA", "A1", 5)]))]

  const SendThree := Json(true, "B", Some(Asset("AAA", "A1", 3)))

  /**
   * A holds 10 of AAA/A1, B holds 5, and A sends B 3. As written A ends with 8 (its 7 is
   * overwritten with B's 5 + 3) and B keeps 5: two units vanish. Corrected, A has 7 and B 8.
   */
  lemma CreditDefectExample()
    ensures Valid(TwoAccounts)
    ensures TransferAssetAsWritten(TwoAccounts, "A", SendThree) ==
      Ok(TwoAccounts["A" := Record(Account("A", [Asset("AAA", "A1", 8)]))])
    ensures TransferAsset(TwoAccounts, "A", SendThree) ==
      Ok(map["A" := Record(Account("A", [Asset("AAA", "A1", 7)])), "B" := Record(Account("B", [Asset("AAA", "A1", 8)]))])
    ensures ClassTotal(TransferAssetAsWritten(TwoAccounts, "A", SendThree).value, "AAA", "A1") ==
      ClassTotal(TwoAccounts, "AAA", "A1") - 2
  {
    var x := Asset("AAA", "A1", 3);
    DebitTenByThree();
    CreditFiveByThree();
    var a := Account("A", [Asset("AAA", "A1", 10)]);
    var b := Account("B", [Asset("AAA", "A1", 5)]);
    assert LoadAccount(TwoAccounts, "A") == Ok(a);
    assert LoadAccount(TwoAccounts, "B") == Ok(b);
    assert TransferDebit(TwoAccounts, "A", SendThree) == Ok((a, b, [Asset("AAA", "A1", 7)]));
    assert [Asset("AAA", "A1", 7)][0 := Asset("AAA", "A1", 8)] == [Asset("AAA", "A1", 8)];
    assert CreditAsWritten([Asset("AAA", "A1", 8)], [Asset("AAA", "A1", 5)], x, 1) == Ok([Asset("AAA", "A1", 8)]);
    assert CreditAsWritten([Asset("AAA", "A1", 7)], [Asset("AAA", "A1", 5)], x, 0) == Ok([Asset("AAA", "A1", 8)]);
    assert TwoAccounts["A" := Record(Account("A", [Asset("AAA", "A1", 7)]))]["B" := Record(Account("B", [Asset("AAA", "A1", 8)]))] ==
      map["A" := Record(Account("A", [Asset("AAA", "A1", 7)])), "B" := Record(Account("B", [Asset("AAA", "A1", 8)]))];
    var t := TwoAccounts["A" := Record(Account("A", [Asset("AAA", "A1", 8)]))];
    assert MatchCount(b.assets, "AAA", "A1") == 1;
    RewriteSame(t, "B", Record(b));
    assert TransferAssetAsWritten(TwoAccounts, "A", SendThree) == Ok(t);
    ClassTotalAfterWrite(TwoAccounts, "A", Record(Account("A", [Asset("AAA", "A1", 8)])), "AAA", "A1");
  }

  const ShiftedDestination: Store := map[
    "A" := Record(Account("A", [Asset("AAA", "A1", 10)])),
    "B" := Record(Account("B", [Asset("BBB", "B1", 1), Asset("AAA", "A1", 5)]))]

  /**
   * When the destination lists the class at an index the source list does not reach, the
   * credit loop as written indexes past the end of the source list; the corrected one succeeds.
   */
  lemma CreditPanicExample()
    ensures Valid(ShiftedDestination)
    ensures TransferAssetAsWritten(ShiftedDestination, "A", SendThree) == Err(Panic)
    ensures TransferAsset(ShiftedDestination, "A", SendThree).Ok?
  {
    DebitTenByThree();
    assert OfClass(ShiftedDestination["B"].account.assets[1], "AAA", "A1");
  }

  const CrossedClasses: Store := map[
    "A" := Record(Account("A", [Asset("AAA", "A1", 10), Asset("BBB", "B1", 4)])),
    "B" := Record(Account("B", [Asset("CCC", "C1", 1), Asset("AAA", "A1", 5)]))]

  /** The debit of the crossed-classes example: A's 10 of AAA/A1 less 3, its BBB/B1 untouched. */
  lemma DebitCrossed()
    ensures Debit([Asset("AAA", "A1", 10), Asset("BBB", "B1", 4)], Asset("AAA", "A1", 3)) ==
      Ok([Asset("AAA", "A1", 7), Asset("BBB", "B1", 4)])
  {
    var list := [Asset("AAA", "A1", 10), Asset("BBB", "B1", 4)];
    var x := Asset("AAA", "A1", 3);
    assert list[1..] == [Asset("BBB", "B1", 4)] && list[1..][1..] == [];
    assert Adjust(list[1..], "AAA", "A1", -3) == [Asset("BBB", "B1", 4)] + [];
    assert Adjust(list, "AAA", "A1", -3) == [Asset("AAA", "A1", 7), Asset("BBB", "B1", 4)];
    assert MatchCount(list, "AAA", "A1") == 1;
    assert !exists i | 0 <= i < |list| :: OfClass(list[i], x.issuer, x.code) && list[i].amount < x.amount;
  }

  /** The credit loop as written over B's list: index 1 of B is the class, so index 1 of A is overwritten. */
  lemma CreditCrossed()
    ensures CreditAsWritten([Asset("AAA", "A1", 7), Asset("BBB", "B1", 4)],
                            [Asset("CCC", "C1", 1), Asset("AAA", "A1", 5)], Asset("AAA", "A1", 3), 0) ==
      Ok([Asset("AAA", "A1", 7), Asset("BBB", "B1", 8)])
  {
    var debited := [Asset("AAA", "A1", 7), Asset("BBB", "B1", 4)];
    var dest := [Asset("CCC", "C1", 1), Asset("AAA", "A1", 5)];
    var x := Asset("AAA", "A1", 3);
    var credited := [Asset("AAA", "A1", 7), Asset("BBB", "B1", 8)];
    assert debited[1 := Asset("BBB", "B1", 8)] == credited;
    assert CreditAsWritten(credited, dest, x, 2) == Ok(credited);
    assert CreditAsWritten(debited, dest, x, 1) == Ok(credited);
  }

  /**
   * The overwritten source entry need not be of the transferred class: here A's 4 of BBB/B1
   * becomes 8 (B's 5 of AAA/A1 plus 3), while B keeps its list unchanged.
   */
  lemma CreditCrossesClassesExample()
    ensures Valid(CrossedClasses)
    ensures TransferAssetAsWritten(CrossedClasses, "A", SendThree) ==
      Ok(CrossedClasses["A" := Record(Account("A", [Asset("AAA", "A1", 7), Asset("BBB", "B1", 8)]))])
  {
    var a := Account("A", [Asset("AAA", "A1", 10), Asset("BBB", "B1", 4)]);
    var b := Account("B", [Asset("CCC", "C1", 1), Asset("AAA", "A1", 5)]);
    var credited := [Asset("AAA", "A1", 7), Asset("BBB", "B1", 8)];
    CrossedDebitStep();
    CreditCrossed();
    AsWrittenSteps(CrossedClasses, "A", SendThree, a, b, [Asset("AAA", "A1", 7), Asset("BBB", "B1", 4)], credited);
    assert MatchCount(b.assets, "AAA", "A1") == 1;
    var t := CrossedClasses["A" := Record(Account("A", credited))];
    RewriteSame(t, "B", Record(b));
  }

  /** Writing back the value a key already holds changes nothing. */
  lemma RewriteSame(s: Store, k: string, v: Value)
    requires k in s && s[k] == v
    ensures s[k := v] == s
  {
  }

  /** The credit as written, assembled from its debit step and its credit loop. */
  lemma AsWrittenSteps(s: Store, fromId: string, p: Json, a: Account, b: Account, debited: seq<Asset>, source: seq<Asset>)
    requires TransferDebit(s, fromId, p) == Ok((a, b, debited))
    requires CreditAsWritten(debited, b.assets, p.asset.value, 0) == Ok(source)
    ensures var x := p.asset.value;
      TransferAssetAsWritten(s, fromId, p) ==
        Ok(s[a.accountId := Record(a.(assets := source))]
            [b.accountId := Record(b.(assets := if MatchCount(b.assets, x.issuer, x.code) == 0 then b.assets + [x] else b.assets))])
  {
  }

  /** Both accounts of the crossed-classes example load, and A's debit succeeds. */
  lemma CrossedDebitStep()
    ensures TransferDebit(CrossedClasses, "A", SendThree) ==
      Ok((Account("A", [Asset("AAA", "A1", 10), Asset("BBB", "B1", 4)]),
          Account("B", [Asset("CCC", "C1", 1), Asset("AAA", "A1", 5)]),
          [Asset("AAA", "A1", 7), Asset("BBB", "B1", 4)]))
  {
    DebitCrossed();
    assert LoadAccount(CrossedClasses, "A") == Ok(Account("A", [Asset("AAA", "A1", 10), Asset("BBB", "B1", 4)]));
    assert LoadAccount(CrossedClasses, "B") == Ok(Account("B", [Asset("CCC", "C1", 1), Asset("AAA", "A1", 5)]));
  }

  // ---------------------------------------------------------------------------------------
  // A worked example: bob opens an account and is credited twice
  // ---------------------------------------------------------------------------------------

  const BobOpened: Store := map["bob" := Record(Account("bob", []))]
  const BobWithFive: Store := map["bob" := Record(Account("bob", [Asset("AAA", "A1", 5)]))]

  lemma BobOpens()
    ensures CreateAccount(map[], Json(true, "bob", None)) == Ok(BobOpened)
  {
  }

  lemma BobAddsFive()
    ensures AddAsset(BobOpened, "bob", Json(true, "", Some(Asset("AAA", "A1", 5)))) == Ok(BobWithFive)
  {
    assert LoadAccount(BobOpened, "bob") == Ok(Account("bob", []));
    assert Merge([], Asset("AAA", "A1", 5)) == [Asset("AAA", "A1", 5)];
    assert AssetArgOk(Json(true, "", Some(Asset("AAA", "A1", 5))));
    assert BobOpened["bob" := BobWithFive["bob"]] == BobWithFive;
  }

  lemma BobAddsSeven()
    ensures AddAsset(BobWithFive, "bob", Json(true, "", Some(Asset("AAA", "A1", 7)))) ==
      Ok(map["bob" := Record(Account("bob", [Asset("AAA", "A1", 12)]))])
  {
    assert LoadAccount(BobWithFive, "bob") == Ok(Account("bob", [Asset("AAA", "A1", 5)]));
    assert FirstMatch([Asset("AAA", "A1", 5)], "AAA", "A1") == 0;
    assert Merge([Asset("AAA", "A1", 5)], Asset("AAA", "A1", 7)) == [Asset("AAA", "A1", 12)];
    assert AssetArgOk(Json(true, "", Some(Asset("AAA", "A1", 7))));
    var v := Record(Account("bob", [Asset("AAA", "A1", 12)]));
    assert BobWithFive["bob" := v] == map["bob" := v];
  }

  /** The JSON arguments of the scenario below, with what the decoder makes of each. */
  const BobArg := Arg("{\"accountId\":\"bob\"}", Json(true, "bob", None))
  const AddFiveArg := Arg("{\"asset\":{\"issuer\":\"AAA\",\"code\":\"A1\",\"amount\":5}}",
                          Json(true, "", Some(Asset("AAA", "A1", 5))))
  const AddSevenArg := Arg("{\"asset\":{\"issuer\":\"AAA\",\"code\":\"A1\",\"amount\":7}}",
                           Json(true, "", Some(Asset("AAA", "A1", 7))))

  /** Adding 5 and then 7 of AAA/A1 leaves bob with one entry of 12, which getAccount returns. */
  lemma BobHoldsTwelve()
    ensures var created := Invoke(map[], [Arg("CreateAccount", Json(false, "", None)), BobArg]);
      && created == Ok(Reply(BobOpened, None))
      && var five := Invoke(BobOpened, [Arg("AddAsset", Json(false, "", None)), Arg("bob", Json(false, "", None)),
                                        AddFiveArg]);
      && five == Ok(Reply(BobWithFive, None))
      && var twelve := Invoke(BobWithFive, [Arg("AddAsset", Json(false, "", None)), Arg("bob", Json(false, "", None)),
                                            AddSevenArg]);
      && twelve.Ok?
      && Invoke(twelve.value.store, [Arg("GetAccount", Json(false, "", None)), BobArg]).Ok?
      && Invoke(twelve.value.store, [Arg("GetAccount", Json(false, "", None)), BobArg]).value.payload ==
         Some(Account("bob", [Asset("AAA", "A1", 12)]))
  {
    BobOpens();
    BobAddsFive();
    BobAddsSeven();
  }
}
