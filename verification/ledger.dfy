/** Concepts shared by every chaincode variant: the asset record and the failure taxonomy. */
module Ledger {

  /**
   * Why an invocation returned an error response. Every error response discards the
   * invocation's buffered writes, so the ledger is left as it was.
   */
  datatype Error =
    | InvalidArgument     // missing, empty, unparsable or non-positive argument
    | AlreadyExists       // the record to be created is already present
    | NotFound            // a record the operation needs is absent
    | InsufficientFunds   // balance or held amount below the requested count
    | InsufficientSupply  // remaining supply of an asset class below the count
    | AssetNotHeld        // the source account holds no entry of the asset class
    | CorruptRecord       // stored bytes that do not decode as the expected record
    | Panic               // a Go runtime panic (nil dereference, index out of range)
    | UnknownFunction     // the invoked function name is not dispatched

  /** An amount of the fungible asset class identified by (issuer, code). */
  datatype Asset = Asset(issuer: string, code: string, amount: int)

  predicate OfClass(a: Asset, issuer: string, code: string) {
    a.issuer == issuer && a.code == code
  }

  /** The world state t agrees with s on every key outside `changed`. */
  ghost predicate SameExcept<K(!new), V>(s: map<K, V>, t: map<K, V>, changed: set<K>) {
    forall k | k !in changed :: (k in s <==> k in t) && (k in s ==> s[k] == t[k])
  }
}
