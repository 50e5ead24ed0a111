# Asset ledger chaincode, modelled in Dafny

This project models the ledger state-transition engine of a set of Hyperledger Fabric sample
chaincodes that issue, buy and move assets between accounts. The model covers three designs.

- **Indexed variant** (`cc2/cc2.go`). An account carries a scalar balance. An asset class
  (issuer, code) carries its remaining supply. Each account's holding of a class is decimal text
  under a composite key `AccountAsset~id~issuer~code`. Operations: Init seeding, createAccount,
  createAsset, buy, transfer, accountInfo, assetInfo, and the two prefix scans myAssets and
  issuerAssets, plus Invoke dispatch.
- **Embedded variant** (`chaincode/asset/cc1/cc1.go`, and the logically identical
  `cc1/cc1.go`). An account record carries its own list of `{issuer, code, amount}` entries.
  Operations: createAccount, addAsset (merge or append), transferAsset and getAccount, plus Invoke.
- **Create-only variant** (`chaincode/asset/cc0/cc.go`). Only createAccount is dispatched.

Shared modelling choices:

- The world state is a finite map from keys to stored values.
- Each operation is a pure function from a state and its arguments to a `Result`. An error
  result stands for `shim.Error`, whose buffered writes the host discards, so the state stays
  unchanged.
- All reads of one invocation see the state as it was when the invocation started. Writes
  are map updates in source order, so when two writes hit one key the later one wins.
- Existence follows the source exactly:
  - an account exists iff its decoded id is non-empty;
  - an indexed asset class exists iff its decoded code is non-empty;
  - absent or empty bytes decode to the zero record;
  - other bytes that do not decode are an error.
- JSON decoding of an argument is given as what the decoder leaves in the parameter struct
  (`Json`), together with whether it reported an error. A missing `"asset"` leaves the asset field nil,
  and the source dereferences it. That is the `Panic` error.

Modules:

- `Wrappers`: `Option` and `Result`.
- `Ledger`: the error kinds and the `Asset` record.
- `Strconv`: decimal text to and from integers.
- `Sums`: sums over finite sets of account ids.
- `IndexedLedger`, `IndexedQueries`, `IndexedProofs`: the indexed variant.
- `AssetLists`: the theory of holding lists.
- `EmbeddedLedger`, `EmbeddedProofs`: the embedded variant.
- `AccountRegistry`: the create-only variant.

## Model

| member | source | states |
|---|---|---|
| Strconv.Atoi | cc2/cc2.go:122 | a text is accepted exactly when it is an optional '+' or '-' followed by one or more decimal digits; the value is the digits' decimal value, negated after a '-' |
| Strconv.Itoa | cc2/cc2.go:266 | the text written for any integer reads back as that integer, so holding counts survive the round trip through storage |
| IndexedLedger.LoadAccount | cc2/cc2.go:480-491 | decoding fails exactly on non-empty bytes that are not a record; an account exists exactly when the key holds an account record with a non-empty id, and then it is that record |
| IndexedLedger.LoadAsset | cc2/cc2.go:493-506 | the same for asset classes, where existence is a non-empty code |
| IndexedLedger.Init | cc2/cc2.go:35-87 | seeding succeeds iff neither AAA/A1 nor BBB/B1 exists and both read cleanly; it then stores both with supply 10000 and nothing else |
| IndexedLedger.CreateAccount | cc2/cc2.go:115-151 | succeeds iff the id is non-empty, the balance positive and no account exists; an empty id or non-positive balance is InvalidArgument, an existing account AlreadyExists; on success only the account key changes and it holds {id, balance} |
| IndexedLedger.CreateAsset | cc2/cc2.go:153-192 | succeeds iff issuer and code are non-empty, the amount positive and the class absent; on success only that class's key changes |
| IndexedLedger.HoldingOf | cc2/cc2.go:508-518 | a holding reads 0 when its key is absent or its text does not parse, because the parse error is dropped; otherwise it reads the parsed count |
| IndexedLedger.Buy | cc2/cc2.go:194-274 | succeeds iff arguments are non-empty and positive, the account and class exist, and balance and supply both cover count; on a well-keyed store (records sit under their own ids, which buy writes back to) success drops balance and supply by count, grows the holding by count, and changes no other key |
| IndexedProofs.BuyFailures | cc2/cc2.go:220-240 | past the argument check, a missing asset class is NotFound, a balance below count InsufficientFunds, and a supply below count InsufficientSupply |
| IndexedLedger.Transfer | cc2/cc2.go:276-348 | succeeds iff arguments are non-empty and positive, both accounts exist, and the sender's holding covers count; a missing sender or receiver is NotFound and a short holding InsufficientFunds; on success only the two holding keys of the stored account ids are written and every other key keeps its value |
| IndexedLedger.MoveHolding | cc2/cc2.go:314-345 | the holding step of transfer fails with InsufficientFunds exactly when the sender's holding is below count, and otherwise writes only the two holding keys, every other key keeping its value |
| IndexedLedger.AccountInfo | cc2/cc2.go:350-369 | succeeds iff the account exists and returns exactly the stored record; an absent account is NotFound |
| IndexedLedger.AssetInfo | cc2/cc2.go:371-390 | succeeds iff the class exists and returns exactly the stored record |
| IndexedQueries.CollectHoldings | cc2/cc2.go:410-429 | an entry is produced for a scanned key exactly when the key is a holding of the owner whose text parses, with issuer and code taken from the key |
| IndexedQueries.MyAssets | cc2/cc2.go:392-439 | the result lists exactly the owner's holdings whose text parses, each once, with the parsed count; unparsable values are skipped |
| IndexedQueries.CollectAssets | cc2/cc2.go:458-469 | an entry is produced exactly for scanned values that decode as JSON (a record of another kind yields the zero asset); text that does not decode is skipped |
| IndexedQueries.IssuerAssets | cc2/cc2.go:441-478 | the result lists exactly the decodable values under that issuer's asset keys; in a well-typed, well-keyed store these are exactly the stored asset classes of that issuer |
| IndexedQueries.Update | cc2/cc2.go:93-100 | each of the four state-changing names first checks its arity (2, 3, 4, 5 arguments) and then parses its numeric argument, rejecting either failure with InvalidArgument; otherwise the outcome is exactly that of createAccount, createAsset, buy or transfer on those arguments, with no payload |
| IndexedQueries.Query | cc2/cc2.go:101-108 | each of the four query names checks its arity; accountInfo and assetInfo succeed exactly when the record exists, returning it, and fail with the lookup's error otherwise; myAssets and issuerAssets return the owner's or issuer's list; the store never changes |
| IndexedQueries.Invoke | cc2/cc2.go:90-113 | unknown names are UnknownFunction; every known name reaches its own operation (the state-changing ones through Update, the queries through Query), so too few arguments or a non-numeric count is InvalidArgument, queries never change the state, and updates return no payload |
| IndexedProofs.ClassTotalAfterHoldingWrite | cc2/cc2.go:508-518 | writing one holding changes the class total by exactly the change in that holding |
| IndexedProofs.BuyConserves | cc2/cc2.go:231-271 | buy keeps the class supply plus all holdings of the class constant, and keeps the buyer's balance plus holding constant |
| IndexedProofs.TransferConserves | cc2/cc2.go:292-345 | between two distinct accounts the sender loses count, the receiver gains count, no other key changes and the class total is unchanged |
| IndexedProofs.SelfTransferMints | cc2/cc2.go:318-345 | a transfer to oneself raises the holding and the class total by count, because the second write overwrites the first |
| IndexedProofs.HoldingReadsBack | cc2/cc2.go:508-518 | a holding stored as the decimal text of n reads back as n |
| IndexedProofs.HoldingNonNegative | cc2/cc2.go:508-518 | in a store without negative counts every holding read is non-negative |
| IndexedProofs.InitValid | cc2/cc2.go:35-87 | seeding keeps the store well typed, well keyed and non-negative |
| IndexedProofs.CreateAccountValid | cc2/cc2.go:115-151 | opening an account keeps the store well typed, well keyed and non-negative |
| IndexedProofs.CreateAssetValid | cc2/cc2.go:153-192 | declaring an asset class keeps the store well typed, well keyed and non-negative |
| IndexedProofs.BuyValid | cc2/cc2.go:194-274 | buy keeps the store well typed, well keyed and non-negative |
| IndexedProofs.TransferValid | cc2/cc2.go:276-348 | transfer keeps the store well typed, well keyed and non-negative |
| IndexedProofs.InvokeValid | cc2/cc2.go:90-113 | every successful invocation keeps the invariant |
| IndexedProofs.MyAssetsOrderIndependent | cc2/cc2.go:398-429 | any two enumerations of the owner's holding keys yield the same entries up to order |
| IndexedProofs.AliceBuysThirty | cc2/cc2.go:194-274 | after seeding, opening alice with 100 and buying 30 of AAA/A1: balance 70, supply 9970, and myAssets lists AAA/A1 with 30 |
| AssetLists.UniqueMatchCount | chaincode/asset/cc1/cc1.go:138-147 | a list with at most one entry per class has at most one entry matching any class |
| AssetLists.Adjust | chaincode/asset/cc1/cc1.go:209-219 | every entry of the class moves by delta, every other entry keeps its amount, and no entry changes class |
| AssetLists.AdjustHolding | chaincode/asset/cc1/cc1.go:209-219 | the class's holding moves by delta once for each of its entries |
| AssetLists.AdjustOtherHolding | chaincode/asset/cc1/cc1.go:209-219 | adjusting one class leaves every other class's holding unchanged |
| AssetLists.AppendNewClass | chaincode/asset/cc1/cc1.go:145-147 | appending an entry of a class not yet held adds its amount to that class only and keeps entries unique per class |
| AssetLists.FirstMatch | chaincode/asset/cc1/cc1.go:138-143 | the index found is the first entry of the class, or the list length when the class is not held |
| AssetLists.Merge | chaincode/asset/cc1/cc1.go:134-147 | only the first entry of the class changes, growing by the added amount; the class's holding grows by the added amount and other classes are unchanged; the length is unchanged if the class was held, else the result is exactly the list with the new entry appended; entries of other classes are untouched; uniqueness and non-negativity are preserved; the second copy has it at cc1/cc1.go:123-133 |
| EmbeddedLedger.LoadAccount | chaincode/asset/cc1/cc1.go:292-303 | decoding fails exactly on non-empty bytes that are not a record; an account exists exactly when the key holds a record with a non-empty id, and then it is that record |
| EmbeddedLedger.Debit | chaincode/asset/cc1/cc1.go:205-224 | succeeds iff the class is held and every entry of it covers the amount; otherwise AssetNotHeld or InsufficientFunds; on success each entry of the class drops by the amount and stays non-negative, every entry of another class is the same entry at the same position, and other classes' holdings are unchanged; the second copy has it at cc1/cc1.go:184-200 |
| EmbeddedLedger.Credit | chaincode/asset/cc1/cc1.go:226-238 | the intended credit: on a list unique per class the destination's holding grows by the amount, other classes are unchanged, and uniqueness is kept |
| EmbeddedLedger.CreditAsWritten | chaincode/asset/cc1/cc1.go:230-235 | the credit loop as written: it panics iff the destination holds the class at an index beyond the source list; otherwise source entry k becomes destination entry k plus the amount at each such index, keeping its class; the second copy has it at cc1/cc1.go:202-208 |
| EmbeddedLedger.CreateAccount | chaincode/asset/cc1/cc1.go:59-100 | succeeds iff the argument decodes with a non-empty id that has no account; on success only that key changes and it holds the id with an empty list; the second copy has it at cc1/cc1.go:54-93 |
| EmbeddedLedger.AddAsset | chaincode/asset/cc1/cc1.go:104-158 | an empty id is InvalidArgument, then a missing asset panics, then empty issuer or code, a decode error or a non-positive amount is InvalidArgument, and a missing account is NotFound; on a store satisfying the invariant (records under their own ids), success changes only the account's key and its list is the merge of the asset; the second copy has it at cc1/cc1.go:95-143 |
| EmbeddedLedger.TransferDebit | chaincode/asset/cc1/cc1.go:163-224 | the argument checks, both account loads and the debit, in source order; it succeeds iff all pass and yields both records and the debited list; an empty id gives InvalidArgument, a missing asset panics, a malformed asset gives InvalidArgument, a missing sender and then a missing receiver give NotFound, and a failing debit gives the debit's error |
| EmbeddedLedger.TransferAsset | chaincode/asset/cc1/cc1.go:163-256 | the corrected transfer succeeds exactly when the checks and the debit do, fails with their error, and writes only the two account keys, every other key keeping its value; the second copy has it at cc1/cc1.go:145-227 |
| EmbeddedLedger.TransferAssetAsWritten | chaincode/asset/cc1/cc1.go:163-256 | the transfer as written succeeds iff the checks and debit pass and no destination entry of the class sits past the end of the source list; otherwise it fails with their error or panics; on success only the two account keys change, the sender's record holds the debited list with the credit as written applied to it, and the receiver's record is its old list with the asset appended when it lacked the class and its old list unchanged otherwise; the second copy has it at cc1/cc1.go:145-227 |
| EmbeddedLedger.GetAccount | chaincode/asset/cc1/cc1.go:260-289 | succeeds iff the argument decodes with an existing id, and returns exactly the stored record; the second copy has it at cc1/cc1.go:229-257 |
| EmbeddedLedger.Invoke | chaincode/asset/cc1/cc1.go:38-55 | an empty argument list panics, unknown names are UnknownFunction, too few arguments is InvalidArgument; CreateAccount, AddAsset and TransferAsset give exactly the outcome of their operation on the decoded arguments; getAccount succeeds exactly when the account lookup does, leaves the state unchanged and returns the record stored under the requested id; the second copy has it at cc1/cc1.go:36-52 |
| EmbeddedProofs.CreateAccountValid | chaincode/asset/cc1/cc1.go:59-100 | opening an account keeps every record under its own id, unique per class and non-negative |
| EmbeddedProofs.AddAssetValid | chaincode/asset/cc1/cc1.go:134-150 | adding an asset keeps the invariant |
| EmbeddedProofs.TransferAssetValid | chaincode/asset/cc1/cc1.go:205-254 | the corrected transfer keeps the invariant, including at most one entry per class |
| EmbeddedProofs.TransferAssetAsWrittenValid | chaincode/asset/cc1/cc1.go:226-254 | the transfer as written also keeps the invariant: it only appends to a destination that lacks the class and never changes an entry's class |
| EmbeddedProofs.InvokeValid | chaincode/asset/cc1/cc1.go:38-55 | every successful invocation keeps the invariant |
| EmbeddedProofs.ClassTotalAfterWrite | chaincode/asset/cc1/cc1.go:306-316 | saving one record changes a class total by exactly the change of that account's holding |
| EmbeddedProofs.DebitOnce | chaincode/asset/cc1/cc1.go:209-219 | on a list unique per class, the debit lowers the holding by exactly the amount |
| EmbeddedProofs.TransferConserves | chaincode/asset/cc1/cc1.go:205-254 | between two distinct accounts the corrected transfer moves the amount of its class from sender to receiver, leaves other classes and keys alone, and keeps every class total |
| EmbeddedProofs.SelfTransferMints | chaincode/asset/cc1/cc1.go:240-254 | a corrected transfer to oneself raises the holding and the class total by the amount, because the destination save overwrites the source save |
| EmbeddedProofs.AddAssetMints | chaincode/asset/cc1/cc1.go:134-150 | adding an asset raises the account's holding and the class total by its amount, and no other class |
| EmbeddedProofs.CreateAccountConserves | chaincode/asset/cc1/cc1.go:87-92 | opening an account changes no class total |
| EmbeddedProofs.AsWrittenDestinationUnchanged | chaincode/asset/cc1/cc1.go:230-238 | as written, a destination that already holds the class is saved back unchanged |
| EmbeddedProofs.AsWrittenSelfTransferNoOp | chaincode/asset/cc1/cc1.go:226-254 | as written, a transfer to oneself leaves the state exactly as it was |
| EmbeddedProofs.AsWrittenAgreesWithoutDefect | chaincode/asset/cc1/cc1.go:226-254 | when the receiver does not yet hold the class, the transfer as written and the corrected transfer give the same result, so the two differ only on the defect |
| EmbeddedProofs.CreditDefectExample | chaincode/asset/cc1/cc1.go:232 | A holds 10 and B holds 5 of AAA/A1; as written, sending 3 leaves A with 8 and B with 5, so the class total drops by 2; corrected, A has 7 and B 8 |
| EmbeddedProofs.CreditPanicExample | chaincode/asset/cc1/cc1.go:232 | as written, a destination whose matching entry is at an index the source list lacks makes the transfer panic, while the corrected transfer succeeds |
| EmbeddedProofs.CreditCrossesClassesExample | chaincode/asset/cc1/cc1.go:232 | as written, the overwritten source entry can be of another class: A's 4 of BBB/B1 become 8 |
| EmbeddedProofs.BobHoldsTwelve | chaincode/asset/cc1/cc1.go:134-147 | opening bob and adding 5 and then 7 of AAA/A1 gives one entry of 12, which getAccount returns |
| AccountRegistry.Invoke | chaincode/asset/cc0/cc.go:38-94 | an empty argument list panics and any name but CreateAccount is UnknownFunction; a missing argument is InvalidArgument; success iff the argument decodes with a non-empty id that has no account, which then holds the id with an empty list while nothing else changes |
| AccountRegistry.AgreesWithEmbedded | chaincode/asset/cc0/cc.go:53-94 | on CreateAccount the create-only dispatcher and the embedded one succeed together, write the same state and fail with the same error |
| AccountRegistry.InvokeValid | chaincode/asset/cc0/cc.go:81-93 | every successful invocation keeps the embedded variant's invariant |

## Left out

- Host plumbing is not modelled: state reads and writes, range-scan iterators and `Close`, argument retrieval, `shim.Start` and `main`. The state is a map, and an error result stands for the discarded writes.
- Storage errors from the host, concurrency between invocations, logging and error-message text are not modelled. Every error is an `Error` kind.
- Composite-key encoding is not modelled, and neither are `CreateCompositeKey` and `SplitCompositeKey` errors. Keys are a datatype, so they are injective and prefix matching holds by construction.
- The order of a range scan is not modelled. It is a parameter that must list the matching keys once each. IndexedQueries.Invoke requires such a scan, and IndexedProofs.MyAssetsOrderIndependent shows the order affects only the order of the result.
- A failed range scan is not modelled. There the source ignores the error and goes on to call `Close` and `HasNext` on a nil iterator, which panics.
- JSON encoding is not modelled byte for byte. Stored records are assumed to round-trip every field.
- The malformed field tag on `Account.AccountId` is not modelled. It only changes the field's name on the wire.
- A `"null"` document and wrong-typed fields are not modelled apart from the decoder's error flag.
- nil entries inside a stored holdings list are not modelled.
- Strconv.Atoi: accepts any length of digits. It does not model the 64-bit range error.
- Integers are unbounded, so machine-integer overflow of `int` and `int64` is not modelled. IndexedLedger.Buy, IndexedLedger.Transfer, AssetLists.Merge and EmbeddedLedger.Credit add without wrap-around.
- The `Init` of the embedded and create-only variants is not modelled, because it writes nothing.
- EmbeddedLedger.Invoke: dispatches TransferAsset to the corrected credit (see Findings). The as-written behaviour stays available as EmbeddedLedger.TransferAssetAsWritten.
- IndexedProofs.SelfTransferMints and EmbeddedProofs.SelfTransferMints state the minting self-transfer as the source behaves. Neither variant's source shows whether a self-transfer was meant to be refused, so it is not treated as a finding.
- Raw bytes under an embedded-variant account id are treated as undecodable. A JSON document of another shape, which would decode to the zero account, is not distinguished.

## Findings

| source | as written | input that shows it | evidently intended | confidence | as-written member | corrected member |
|---|---|---|---|---|---|---|
| chaincode/asset/cc1/cc1.go:232 | the credit loop over the destination list assigns `accountF.Assets[k].Amount`, overwriting the source's entry k with the destination's amount plus the transferred amount; the destination is never credited when it already holds the class | A holds [AAA/A1 10], B holds [AAA/A1 5], A sends 3 of AAA/A1 to B: A ends with 8, B with 5, and 2 units vanish; with B holding [BBB/B1 1, AAA/A1 5] the loop indexes past A's list and panics | assign `accountT.Assets[k].Amount`, so the destination gains the amount and every class total is conserved | high (not executed) | EmbeddedProofs.CreditDefectExample | EmbeddedProofs.TransferConserves |
| cc1/cc1.go:205 | the same assignment to `accountF.Assets[k].Amount` in the second copy | the same two inputs as above | assign `accountT.Assets[k].Amount` | high (not executed) | EmbeddedProofs.CreditPanicExample | EmbeddedLedger.TransferAsset |
