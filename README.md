# Plasma client utilities, modelled in Dafny

This project models `src/planeta/plasma-utils.js`, the client-side helper module of a Plasma
(leap) burner wallet. It covers four pieces of logic:

- **UTXO consolidation** (`consolidateUTXOs`). A list of UTXOs becomes one transfer with one input
  per UTXO and a single output. That output holds the exact decimal sum of the UTXO values, at the
  first UTXO's address lower-cased and in its colour. The transfer is signed and submitted with
  `eth_sendRawTransaction`. Then `getTransaction` is polled for at most 5 rounds, with a 1000 ms
  sleep after every unsuccessful round.
- **Partial signing** (`signMatching`). This signs, in place, exactly the inputs whose claimed
  address is the signing key's address.
- **The spending-condition protocol** (`PlasmaMethodCall.send`). It builds a spend-condition
  transaction and puts the call data on input 0. It signs, then has the node check the
  transaction (`checkSpendingCondition`). It replaces the outputs with the node's, puts the call
  data on again, signs again, submits, and returns the transaction hash.
- **The contract method table** (`PlasmaContract`). This maps every ABI entry of type "function"
  to a method that ABI-encodes a call and returns a `PlasmaMethodCall` bound to the same node.

The collaborators are parameters, given as datatypes of total functions, so every property holds
for every possible behaviour of each one:

- `Tx.Crypto`: key-to-address derivation, the signing digest, `ecsign`;
- `Tx.Codec`: the chain library's `hex`, `hash`, `signAll` and `signWeb3` (only `signWeb3` is modelled as able to reject);
- `Rpc.Plasma`: the node's three RPC calls, with `getTransaction` indexed by poll round;
- the ABI encoder.

Each operation that talks to the node returns a log (`Rpc.Event`) of what it did. For
`Consolidate` and `AwaitInclusion` the log holds the requests and the sleeps. For `Send` it also
holds the local steps on the transaction. The retry budget and the ordering are stated on these
logs.

Modules: `Wrappers` (Option, Result), `Decimal` (`BN.toString(10)` and its inverse), `Text`
(ASCII lower-casing), `Tx` (transactions, the `Transaction` object), `Signing`, `Rpc`,
`Consolidation`, `MethodCall`, `Contract`.

## Model

| member | source | states |
|---|---|---|
| `Decimal.ToDecimal` | src/planeta/plasma-utils.js:10 | `toString(10)` yields a canonical numeral (digits only, no leading zero); it has one digit exactly for values below 10 |
| `Decimal.FromToDecimal` | src/planeta/plasma-utils.js:8-10 | reading the decimal rendering back gives the same number: the amount loses nothing |
| `Decimal.ToFromDecimal` | src/planeta/plasma-utils.js:10 | every canonical numeral is the rendering of its value, so the rendering is a bijection onto canonical numerals |
| `Text.ToLower` | src/planeta/plasma-utils.js:11 | `toLowerCase` keeps the length and every character that is not an upper-case letter; each upper-case letter becomes its lower-case letter, so none is left |
| `Text.LowerIsFixpoint` | src/planeta/plasma-utils.js:11 | lower-casing is idempotent |
| `Consolidation.Total` | src/planeta/plasma-utils.js:8-9 | the `reduce` sum is 0 exactly when every UTXO is worth 0, and it is at least the last UTXO's value |
| `Consolidation.TotalAppend` | src/planeta/plasma-utils.js:8-9 | the accumulated sum of a concatenation is the sum of the parts' sums |
| `Consolidation.TotalBounds` | src/planeta/plasma-utils.js:8-9 | no UTXO's value exceeds the total |
| `Consolidation.TotalFirst` | src/planeta/plasma-utils.js:8-9 | the left-to-right accumulation equals the first value plus the rest's total |
| `Consolidation.ConsolidationTx` | src/planeta/plasma-utils.js:6-12 | a transfer with exactly one unsigned input per UTXO, in order, from its outpoint, and exactly one output whose decimal value reads back as the total, at the first UTXO's address lower-cased, in its colour |
| `Consolidation.ThreeUtxoExample` | src/planeta/plasma-utils.js:6-11 | UTXOs worth 10, 20 and 5 give three inputs and the single output "35" |
| `Consolidation.SignForSubmit` | src/planeta/plasma-utils.js:14-16 | a present, non-empty private key signs with `signAll`; an absent or empty key takes `signWeb3`'s result, rejection included |
| `Rpc.LookupCases` | src/planeta/plasma-utils.js:44-45 | each lookup is exactly one of rejected, pending or included; included means a record with a non-empty block hash; a `null` result or an empty block hash is pending |
| `Consolidation.FirstSettled` | src/planeta/plasma-utils.js:43-48 | the first round below the 5-round budget whose lookup rejected or shows a block hash; every earlier round was pending |
| `Consolidation.PendingRoundsCounts` | src/planeta/plasma-utils.js:43-50 | n unsuccessful rounds make n queries and n sleeps |
| `Consolidation.PollBudget` | src/planeta/plasma-utils.js:40-54 | at most 5 queries; a poll settled at round k makes k+1 queries and k sleeps; it fails "wasn't included" iff all 5 rounds were pending, after 5 queries and 5 sleeps |
| `Consolidation.PollFindsFirstReceipt` | src/planeta/plasma-utils.js:43-48 | if round j shows a block hash and all earlier rounds were pending, the poll returns that record after j+1 queries |
| `Consolidation.AwaitInclusion` | src/planeta/plasma-utils.js:40-54 | the countdown loop returns the poll's outcome and makes exactly its queries and sleeps |
| `Consolidation.Consolidate` | src/planeta/plasma-utils.js:5-55 | an empty list fails (TypeError); a signing rejection passes through with nothing sent; a submission error gives "Consolidate failed." with no query; otherwise the result is the poll's outcome; never more than 5 queries |
| `Tx.WithMsgData` | src/planeta/plasma-utils.js:84 | setting msgData changes only that input's msgData |
| `Tx.Transaction.constructor` | src/planeta/plasma-utils.js:77-83 | a fresh transaction object holding the given inputs and outputs |
| `Tx.Transaction.SetMsgData` | src/planeta/plasma-utils.js:84 | in place, the new value is the old one with that input's msgData set |
| `Signing.SignFirst` | src/planeta/plasma-utils.js:60-66 | visiting inputs never changes the kind, the outputs or the number of inputs |
| `Signing.Signed` | src/planeta/plasma-utils.js:57-68 | the same for the whole loop |
| `Signing.SignFirstAt` | src/planeta/plasma-utils.js:60-66 | after n iterations, input k is signed iff k < n and the key owns it, with a signature over the state when k was reached; otherwise it is untouched |
| `Signing.SignedFrame` | src/planeta/plasma-utils.js:57-68 | owned inputs get the key's signature and only that; all other inputs, the outputs and the kind are unchanged |
| `Signing.SignedSet` | src/planeta/plasma-utils.js:60-66 | afterwards an input is signed iff it was signed before or the key owns it; new signatures name the key's address |
| `Signing.SignedNoMatch` | src/planeta/plasma-utils.js:57-68 | a key owning no input leaves the transaction unchanged |
| `Signing.SignedTwice` | src/planeta/plasma-utils.js:57-68 | signing twice leaves the same inputs signed as once, and non-owned inputs identical |
| `Signing.SignMatching` | src/planeta/plasma-utils.js:57-68 | the in-place loop leaves the transaction equal to `Signed` of its old value |
| `MethodCall.SpendCondTx` | src/planeta/plasma-utils.js:77-83 | a spend condition with no outputs and one unsigned input per given input, keeping outpoint and address |
| `MethodCall.PreSigned` | src/planeta/plasma-utils.js:77-85 | the validated transaction keeps one input per given input |
| `MethodCall.ValidatedTransaction` | src/planeta/plasma-utils.js:77-93 | the transaction sent for validation is a spend condition with no outputs and the call data on input 0; it keeps each input's outpoint and address in order; exactly the owned inputs are signed, each over a transaction that has no outputs yet |
| `MethodCall.RepeatedMsgDataIsNoOp` | src/planeta/plasma-utils.js:104 | setting the call data again after validation does not change the local transaction |
| `MethodCall.SubmittedTransaction` | src/planeta/plasma-utils.js:104-107 | the submitted transaction's outputs are exactly the validator's, input 0 carries the call data, inputs keep outpoint and address in order, inputs the key does not own stay unsigned |
| `MethodCall.FinalSignatureCoversFinalOutputs` | src/planeta/plasma-utils.js:104-107 | each owned input's final signature was made over a transaction already holding the validator's outputs and the call data |
| `MethodCall.PlasmaMethodCall.constructor` | src/planeta/plasma-utils.js:71-74 | binds the node and the call data |
| `MethodCall.PlasmaMethodCall.Send` | src/planeta/plasma-utils.js:76-126 | empty inputs fail before any request; the request order is set data, sign, validate, set data, replace outputs, sign, submit; a rejected validation or a null result ends the call right after validating, and a result without outputs ends it after the call data is set again, with nothing submitted in any of these cases; the submitted transaction is the re-signed rewrite; the result is its hash or the submission's rejection |
| `Contract.PlasmaContract.constructor` | src/planeta/plasma-utils.js:130-140 | the table's keys are exactly the names of the ABI's "function" entries, each bound to its own name |
| `Contract.PlasmaContract.Call` | src/planeta/plasma-utils.js:142-145 | succeeds iff the ABI has a function of that name; the call is bound to the same node and to the encoded call data |
| `Contract.PlasmaContract.Invoke` | src/planeta/plasma-utils.js:135-145 | calling through the table succeeds iff the name is an ABI function, with the same binding; otherwise it fails naming the missing method |

## Left out

- Cryptography (`privateToAddress`, `hashPersonalMessage`, `ecsign`, `signAll`, `signWeb3`) is taken as opaque functions. No property about signature validity or collision resistance is claimed. In particular, nothing proves that the final signature differs from the pre-validation one.
- The wire format (`hex()`, `hash()`, `sigDataBuf()`) is opaque, so no encode/decode round trip is claimed. `Tx.spendCond` and `new Input(input)` are modelled only as keeping the outpoint and the claimed address.
- The JSON-RPC envelope (`jsonrpc`, `id: 42`), `console.log` and the real 1000 ms `setTimeout` are left out. Each sleep is recorded as an event, with no wall-clock time.
- The node's answers are oracles. A `getTransaction` answer depends only on the hash and the round. A `checkSpendingCondition` answer either carries an output list or lacks one.
- `new Output(o)` on the validator's outputs is taken as the identity.
- `Text.ToLower`: lower-casing is modelled for ASCII only. `toLowerCase` also maps non-ASCII letters, which hex addresses do not contain.
- The reject values of the collaborators are plain strings. JavaScript's TypeErrors become named error cases: empty UTXO list, empty spend inputs, a validation result that is null or lacks outputs, a name missing from the table.
- `Contract.PlasmaContract.Call`: the ABI encoder is taken as total. Web3's `encodeABI` throws when the arguments do not fit the method (a wrong count or type). In the source that rejection propagates, so "succeeds iff the name is an ABI function" holds only for arguments the encoder accepts. Web3 also accepts signature-form method names such as `transfer(address,uint256)`, which the model rejects.
- Key handling is taken as total. `privateToAddress`, `ecsign` and `signAll` throw on a malformed private key. In the source that error propagates unchanged out of `consolidateUTXOs` and `send`, which the model does not represent. `privateKey.replace("0x", "")` is not modelled either.
- `Contract.PlasmaContract.Invoke`: a plain JavaScript object also answers inherited names (for example `toString`). This is not modelled.
- Concurrency is left out. Calls share no state, and the async suspension points become sequential steps.
