/** Transactions of the child chain as this client builds them, and the opaque collaborators
    (key handling, signing digests, the wire codec) it hands them to. */
module Tx {
  import opened Wrappers

  type Hash = string
  type Addr = string
  type Key = string
  /** A hex-encoded byte string ("0x…"): raw transactions, call data, signature parts. */
  type Hex = string
  /** The error a collaborator rejects with; it is passed on as it is. */
  type TransportError = string

  /** Which output of which earlier transaction an input spends. */
  datatype Outpoint = Outpoint(txHash: Hash, index: nat)

  /** What `ecsign` returns. */
  datatype EcSig = EcSig(r: Hex, s: Hex, v: nat)

  /** The signature `setSig(r, s, v, address)` attaches to an input. */
  datatype Sig = Sig(r: Hex, s: Hex, v: nat, signer: Addr)

  /** An input: the outpoint it spends, the address that claims it (absent when the input was
      built from an outpoint alone), its signature (absent until signed) and its msgData. */
  datatype Input = Input(prevout: Outpoint, address: Option<Addr>, sig: Option<Sig>, msgData: Option<Hex>)

  datatype Output = Output(value: string, address: Addr, color: nat)

  datatype TxKind = Transfer | SpendCond

  /** The value of a transaction at one moment. */
  datatype TxValue = TxValue(kind: TxKind, inputs: seq<Input>, outputs: seq<Output>)

  /** Key and signature primitives: `bufferToHex(privateToAddress(key))`, the signing digest
      `hashPersonalMessage(tx.sigDataBuf())` of the transaction as it stands, and `ecsign`. */
  datatype Crypto = Crypto(
    privateToAddress: Key -> Addr,
    sigHash: TxValue -> Hash,
    ecsign: (Hash, Key) -> EcSig)

  /** The transaction codec and signers of the chain library: `hex()`, `hash()`,
      `signAll(privateKey)` and `signWeb3(web3)` (the last may reject). */
  datatype Codec = Codec(
    hex: TxValue -> Hex,
    hash: TxValue -> Hash,
    signAll: (TxValue, Key) -> TxValue,
    signWeb3: TxValue -> Result<TxValue, TransportError>)

  /** `input.setMsgData(data)` on input `i`. */
  function WithMsgData(t: TxValue, i: nat, data: Hex): (r: TxValue)
    requires i < |t.inputs|
    ensures r.kind == t.kind && r.outputs == t.outputs && |r.inputs| == |t.inputs|
    ensures r.inputs[i].msgData == Some(data)
    ensures forall k :: 0 <= k < |t.inputs| && k != i ==> r.inputs[k] == t.inputs[k]
    ensures r.inputs[i].(msgData := t.inputs[i].msgData) == t.inputs[i]
  {
    t.(inputs := t.inputs[i := t.inputs[i].(msgData := Some(data))])
  }

  /** A transaction object: its inputs are objects updated in place (an array whose elements are
      replaced), its output list is a field that is reassigned. */
  class Transaction {
    const kind: TxKind
    const inputs: array<Input>
    var outputs: seq<Output>

    function Value(): TxValue
      reads this, inputs
    {
      TxValue(kind, inputs[..], outputs)
    }

    constructor (kind: TxKind, ins: seq<Input>, outs: seq<Output>)
      ensures Value() == TxValue(kind, ins, outs)
      ensures fresh(inputs)
    {
      this.kind := kind;
      inputs := new Input[|ins|](i requires 0 <= i < |ins| => ins[i]);
      outputs := outs;
      new;
      assert inputs[..] == ins;
    }

    method SetMsgData(i: nat, data: Hex)
      requires i < inputs.Length
      modifies inputs
      ensures Value() == WithMsgData(old(Value()), i, data)
    {
      inputs[i] := inputs[i].(msgData := Some(data));
    }
  }
}
