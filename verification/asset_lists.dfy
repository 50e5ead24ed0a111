/**
 * Lists of {issuer, code, amount} entries, as embedded in an account of the embedded variant,
 * and the per-class quantities they denote.
 */
module AssetLists {
  import opened Ledger

  /** What one entry contributes to the holding of class (issuer, code). */
  function Share(a: Asset, issuer: string, code: string): int {
    if OfClass(a, issuer, code) then a.amount else 0
  }

  /** The quantity of class (issuer, code) a list records: the sum over its matching entries. */
  function Holding(list: seq<Asset>, issuer: string, code: string): int {
    if |list| == 0 then 0 else Share(list[0], issuer, code) + Holding(list[1..], issuer, code)
  }

  /** The number of entries of class (issuer, code); zero exactly when the class is not held. */
  function MatchCount(list: seq<Asset>, issuer: string, code: string): (n: nat)
    ensures n == 0 <==> forall i | 0 <= i < |list| :: !OfClass(list[i], issuer, code)
    ensures n <= |list|
  {
    if |list| == 0 then 0
    else
      var rest := MatchCount(list[1..], issuer, code);
      assert forall i | 1 <= i < |list| :: list[i] == list[1..][i - 1];
      (if OfClass(list[0], issuer, code) then 1 else 0) + rest
  }

  /** At most one entry per (issuer, code). */
  predicate Unique(list: seq<Asset>) {
    forall i, j | 0 <= i < j < |list| :: !OfClass(list[j], list[i].issuer, list[i].code)
  }

  predicate NonNegative(list: seq<Asset>) {
    forall i | 0 <= i < |list| :: list[i].amount >= 0
  }

  /** b has the same entries as a in the same order, up to their amounts. */
  predicate SameClasses(a: seq<Asset>, b: seq<Asset>) {
    |a| == |b| && forall i | 0 <= i < |a| :: a[i].issuer == b[i].issuer && a[i].code == b[i].code
  }

  lemma SameClassesUnique(a: seq<Asset>, b: seq<Asset>)
    requires SameClasses(a, b) && Unique(a)
    ensures Unique(b)
  {
    forall i, j | 0 <= i < j < |b| ensures !OfClass(b[j], b[i].issuer, b[i].code) {
      assert !OfClass(a[j], a[i].issuer, a[i].code);
    }
  }

  lemma {:induction false} UniqueMatchCount(list: seq<Asset>, issuer: string, code: string)
    requires Unique(list)
    ensures MatchCount(list, issuer, code) <= 1
  {
    if |list| > 0 {
      assert Unique(list[1..]) by {
        forall i, j | 0 <= i < j < |list[1..]| ensures !OfClass(list[1..][j], list[1..][i].issuer, list[1..][i].code) {
          assert list[1..][j] == list[j + 1] && list[1..][i] == list[i + 1];
        }
      }
      UniqueMatchCount(list[1..], issuer, code);
      if OfClass(list[0], issuer, code) {
        forall i | 0 <= i < |list[1..]| ensures !OfClass(list[1..][i], issuer, code) {
          assert list[1..][i] == list[i + 1];
        }
      }
    }
  }

  lemma {:induction false} HoldingAppend(list: seq<Asset>, e: Asset, issuer: string, code: string)
    ensures Holding(list + [e], issuer, code) == Holding(list, issuer, code) + Share(e, issuer, code)
  {
    if |list| == 0 {
      assert list + [e] == [e];
    } else {
      assert (list + [e])[1..] == list[1..] + [e];
      HoldingAppend(list[1..], e, issuer, code);
    }
  }

  lemma {:induction false} HoldingUpdate(list: seq<Asset>, k: nat, e: Asset, issuer: string, code: string)
    requires k < |list|
    ensures Holding(list[k := e], issuer, code) ==
      Holding(list, issuer, code) - Share(list[k], issuer, code) + Share(e, issuer, code)
  {
    if k == 0 {
      assert list[k := e][1..] == list[1..];
    } else {
      assert list[k := e][1..] == list[1..][k - 1 := e];
      HoldingUpdate(list[1..], k - 1, e, issuer, code);
    }
  }

  /** Every entry of class (issuer, code) has `delta` added to its amount; nothing else changes. */
  function Adjust(list: seq<Asset>, issuer: string, code: string, delta: int): (r: seq<Asset>)
    ensures |r| == |list|
    ensures forall i {:trigger r[i]} | 0 <= i < |list| ::
      && r[i].issuer == list[i].issuer && r[i].code == list[i].code
      && r[i].amount == list[i].amount + (if OfClass(list[i], issuer, code) then delta else 0)
  {
    if |list| == 0 then []
    else
      var head := if OfClass(list[0], issuer, code) then list[0].(amount := list[0].amount + delta) else list[0];
      var rest := Adjust(list[1..], issuer, code, delta);
      assert forall i | 1 <= i < |list| :: list[i] == list[1..][i - 1];
      [head] + rest
  }

  /** `a` added up `n` times: the change a per-entry adjustment makes over `n` entries. */
  function Times(a: int, n: nat): int {
    if n == 0 then 0 else a + Times(a, n - 1)
  }

  lemma {:induction false} TimesNeg(a: int, n: nat)
    ensures Times(-a, n) == -Times(a, n)
  {
    if n > 0 {
      TimesNeg(a, n - 1);
    }
  }

  /** Adjusting a class moves its holding by delta for each entry of that class. */
  lemma {:induction false} AdjustHolding(list: seq<Asset>, issuer: string, code: string, delta: int)
    ensures Holding(Adjust(list, issuer, code, delta), issuer, code) ==
      Holding(list, issuer, code) + Times(delta, MatchCount(list, issuer, code))
  {
    if |list| > 0 {
      AdjustHead(list, issuer, code, delta);
      AdjustHolding(list[1..], issuer, code, delta);
      var b := OfClass(list[0], issuer, code);
      var m := MatchCount(list[1..], issuer, code);
      TimesStep(delta, b, m, MatchCount(list, issuer, code));
    } else {
      assert Adjust(list, issuer, code, delta) == [];
      assert MatchCount(list, issuer, code) == 0;
    }
  }

  /** How Adjust, Holding and MatchCount treat the head of a non-empty list. */
  lemma AdjustHead(list: seq<Asset>, issuer: string, code: string, delta: int)
    requires |list| > 0
    ensures var b := OfClass(list[0], issuer, code);
      && Holding(Adjust(list, issuer, code, delta), issuer, code) ==
         Share(list[0], issuer, code) + (if b then delta else 0) + Holding(Adjust(list[1..], issuer, code, delta), issuer, code)
      && Holding(list, issuer, code) == Share(list[0], issuer, code) + Holding(list[1..], issuer, code)
      && MatchCount(list, issuer, code) == (if b then 1 else 0) + MatchCount(list[1..], issuer, code)
  {
    var r := Adjust(list, issuer, code, delta);
    assert r[1..] == Adjust(list[1..], issuer, code, delta);
  }

  lemma TimesStep(a: int, b: bool, m: nat, n: nat)
    requires n == (if b then 1 else 0) + m
    ensures Times(a, n) == (if b then a else 0) + Times(a, m)
  {
  }

  /** Adjusting a class leaves the holdings of every other class alone. */
  lemma {:induction false} AdjustOtherHolding(list: seq<Asset>, issuer: string, code: string, delta: int, i: string, c: string)
    requires !(i == issuer && c == code)
    ensures Holding(Adjust(list, issuer, code, delta), i, c) == Holding(list, i, c)
  {
    if |list| > 0 {
      var r := Adjust(list, issuer, code, delta);
      assert r[1..] == Adjust(list[1..], issuer, code, delta);
      AdjustOtherHolding(list[1..], issuer, code, delta, i, c);
      assert Share(r[0], i, c) == Share(list[0], i, c);
    }
  }

  /** Adjusting a class leaves the holdings of all other classes alone. */
  lemma AdjustOtherHoldings(list: seq<Asset>, issuer: string, code: string, delta: int)
    ensures forall i, c | !(i == issuer && c == code) ::
      Holding(Adjust(list, issuer, code, delta), i, c) == Holding(list, i, c)
  {
    forall i, c | !(i == issuer && c == code)
      ensures Holding(Adjust(list, issuer, code, delta), i, c) == Holding(list, i, c)
    {
      AdjustOtherHolding(list, issuer, code, delta, i, c);
    }
  }

  /** Both effects of Adjust on holdings, for every class at once. */
  lemma AdjustHoldings(list: seq<Asset>, issuer: string, code: string, delta: int)
    ensures Holding(Adjust(list, issuer, code, delta), issuer, code) ==
      Holding(list, issuer, code) + Times(delta, MatchCount(list, issuer, code))
    ensures forall i, c | !(i == issuer && c == code) ::
      Holding(Adjust(list, issuer, code, delta), i, c) == Holding(list, i, c)
  {
    AdjustHolding(list, issuer, code, delta);
    AdjustOtherHoldings(list, issuer, code, delta);
  }

  /** Appending an entry of a class the list does not hold yet. */
  lemma AppendNewClass(list: seq<Asset>, x: Asset)
    requires MatchCount(list, x.issuer, x.code) == 0
    ensures Holding(list + [x], x.issuer, x.code) == Holding(list, x.issuer, x.code) + x.amount
    ensures forall i, c | !(i == x.issuer && c == x.code) :: Holding(list + [x], i, c) == Holding(list, i, c)
    ensures MatchCount(list + [x], x.issuer, x.code) > 0
    ensures Unique(list) ==> Unique(list + [x])
    ensures NonNegative(list) && x.amount >= 0 ==> NonNegative(list + [x])
  {
    var r := list + [x];
    forall i, c ensures Holding(r, i, c) == Holding(list, i, c) + Share(x, i, c) {
      HoldingAppend(list, x, i, c);
    }
    assert OfClass(r[|list|], x.issuer, x.code);
  }

  /** Adding a non-negative amount to a class keeps every amount non-negative. */
  lemma AdjustUpNonNegative(list: seq<Asset>, issuer: string, code: string, delta: int)
    requires NonNegative(list) && delta >= 0
    ensures NonNegative(Adjust(list, issuer, code, delta))
  {
  }

  /** The index of the first entry of class (issuer, code), or |list| when there is none. */
  function FirstMatch(list: seq<Asset>, issuer: string, code: string): (k: nat)
    ensures k <= |list|
    ensures k < |list| ==> OfClass(list[k], issuer, code)
    ensures forall j | 0 <= j < k :: !OfClass(list[j], issuer, code)
  {
    if |list| == 0 then 0
    else if OfClass(list[0], issuer, code) then 0
    else
      var k := FirstMatch(list[1..], issuer, code);
      assert forall j | 1 <= j < k + 1 :: list[j] == list[1..][j - 1];
      1 + k
  }

  /**
   * The merge loop of addAsset: the first entry of x's class grows by x.amount, or x is
   * appended when the class is not held yet.
   */
  function Merge(list: seq<Asset>, x: Asset): (r: seq<Asset>)
    ensures Holding(r, x.issuer, x.code) == Holding(list, x.issuer, x.code) + x.amount
    ensures forall i, c | !(i == x.issuer && c == x.code) :: Holding(r, i, c) == Holding(list, i, c)
    ensures |r| == if MatchCount(list, x.issuer, x.code) > 0 then |list| else |list| + 1
    ensures forall i | 0 <= i < |list| && !OfClass(list[i], x.issuer, x.code) :: r[i] == list[i]
    ensures forall i | 0 <= i < |list| && i != FirstMatch(list, x.issuer, x.code) :: r[i] == list[i]
    ensures FirstMatch(list, x.issuer, x.code) == |list| ==> r == list + [x]
    ensures FirstMatch(list, x.issuer, x.code) < |list| ==>
      r[FirstMatch(list, x.issuer, x.code)].amount == list[FirstMatch(list, x.issuer, x.code)].amount + x.amount
    ensures Unique(list) ==> Unique(r)
    ensures NonNegative(list) && x.amount >= 0 ==> NonNegative(r)
  {
    var k := FirstMatch(list, x.issuer, x.code);
    if k < |list| then
      var e := list[k].(amount := list[k].amount + x.amount);
      var r := list[k := e];
      assert forall i, c :: Holding(r, i, c) == Holding(list, i, c) - Share(list[k], i, c) + Share(e, i, c) by {
        forall i, c ensures Holding(r, i, c) == Holding(list, i, c) - Share(list[k], i, c) + Share(e, i, c) {
          HoldingUpdate(list, k, e, i, c);
        }
      }
      assert SameClasses(list, r);
      assert Unique(list) ==> Unique(r) by {
        if Unique(list) { SameClassesUnique(list, r); }
      }
      r
    else
      AppendNewClass(list, x);
      list + [x]
  }
}
