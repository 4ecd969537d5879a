/** The JSON-RPC node as this client sees it, and the record of what the client did. */
module Rpc {
  import opened Wrappers
  import opened Tx

  /** What `getTransaction` resolves to (`null` when the node does not know the hash). */
  datatype TxRecord = TxRecord(hash: Hash, blockHash: Option<string>)

  /** One `getTransaction` lookup: it rejects, or it resolves to a record or to nothing. */
  datatype Lookup = LookupFailed(cause: TransportError) | Resolved(record: Option<TxRecord>)

  /** `res && res.blockHash` is truthy: a record whose block hash is present and non-empty. */
  predicate Included(l: Lookup) {
    l.Resolved? && l.record.Some? && l.record.value.blockHash.Some? && l.record.value.blockHash.value != ""
  }

  /** A lookup that neither rejected nor found the transaction in a block. */
  predicate Pending(l: Lookup) {
    l.Resolved? && !Included(l)
  }

  /** Every lookup is exactly one of: rejected, pending, included; an included lookup holds a
      record whose block hash is a non-empty string, and a resolved `null` is pending. */
  lemma LookupCases(l: Lookup)
    ensures l.LookupFailed? || Pending(l) || Included(l)
    ensures !(Pending(l) && Included(l)) && !(l.LookupFailed? && (Pending(l) || Included(l)))
    ensures Included(l) ==> l.record.Some? && l.record.value.blockHash.Some? && |l.record.value.blockHash.value| > 0
    ensures l == Resolved(None) ==> Pending(l)
    ensures forall rec: TxRecord :: rec.blockHash == Some("") ==> Pending(Resolved(Some(rec)))
  {
  }

  /** What `checkSpendingCondition` resolves to: no result object, a result without
      `outputs`, or the outputs the node computed. */
  datatype Validation = NullResult | MissingOutputs | WithOutputs(outputs: seq<Output>)

  /** The node: `eth_sendRawTransaction` and `checkSpendingCondition` through the provider's
      `send` (each either calls back with an error or resolves), and `eth.getTransaction(hash)`
      at a given poll round. */
  datatype Plasma = Plasma(
    sendRawTransaction: Hex -> Result<(), TransportError>,
    checkSpendingCondition: Hex -> Result<Validation, TransportError>,
    getTransaction: (Hash, nat) -> Lookup)

  /** Every request made to the node, every sleep, and the local steps on a transaction
      (`Sign` records the outputs the transaction had when it was signed). */
  datatype Event =
    | SendRawTransaction(raw: Hex)
    | CheckSpendingCondition(raw: Hex)
    | GetTransaction(hash: Hash, round: nat)
    | Sleep(ms: nat)
    | SetMsgData(data: Hex)
    | Sign(outputs: seq<Output>)
    | ReplaceOutputs(outputs: seq<Output>)

  /** The number of `getTransaction` queries in a log. */
  function Queries(log: seq<Event>): nat {
    if log == [] then 0
    else Queries(log[..|log| - 1]) + (if log[|log| - 1].GetTransaction? then 1 else 0)
  }

  /** The number of sleeps in a log. */
  function Sleeps(log: seq<Event>): nat {
    if log == [] then 0
    else Sleeps(log[..|log| - 1]) + (if log[|log| - 1].Sleep? then 1 else 0)
  }

  lemma {:induction false} CountsAppend(a: seq<Event>, b: seq<Event>)
    ensures Queries(a + b) == Queries(a) + Queries(b)
    ensures Sleeps(a + b) == Sleeps(a) + Sleeps(b)
    decreases |b|
  {
    if b != [] {
      CountsAppend(a, b[..|b| - 1]);
      assert (a + b)[..|a + b| - 1] == a + b[..|b| - 1];
    } else {
      assert a + b == a;
    }
  }
}
