/** `PlasmaMethodCall.send`: the spending-condition protocol. Build a spend-condition transaction,
    attach the call data to input 0, sign, have the node check it, take the node's outputs,
    attach the call data again, sign again, submit, and return the transaction's hash. */
module MethodCall {
  import opened Wrappers
  import opened Tx
  import opened Rpc
  import opened Signing

  /** An input as the caller hands it over: an outpoint and the address that claims it. */
  datatype SpendInput = SpendInput(prevout: Outpoint, address: Option<Addr>)

  /** How `send` fails: `transaction.inputs[0]` of an empty input list (a TypeError), a
      validation result that is absent or has no outputs (a TypeError), or a rejection
      of either request passed on unchanged. */
  datatype SendError = NoInputs | MalformedValidation | Rejected(cause: TransportError)

  /** `Tx.spendCond(inputs.map(…))`: unsigned inputs keeping only outpoint and address, no outputs. */
  function SpendCondTx(inputs: seq<SpendInput>): (t: TxValue)
    ensures t.kind == SpendCond && t.outputs == [] && |t.inputs| == |inputs|
    ensures forall k :: 0 <= k < |inputs| ==>
      t.inputs[k] == Input(inputs[k].prevout, inputs[k].address, None, None)
  {
    TxValue(SpendCond, seq(|inputs|, k requires 0 <= k < |inputs| => Input(inputs[k].prevout, inputs[k].address, None, None)), [])
  }

  /** The transaction sent to `checkSpendingCondition`: call data on input 0, then signed. */
  function PreSigned(c: Crypto, key: Key, data: Hex, inputs: seq<SpendInput>): (t: TxValue)
    requires |inputs| > 0
    ensures |t.inputs| == |inputs|
  {
    Signed(c, key, WithMsgData(SpendCondTx(inputs), 0, data))
  }

  /** The pre-signed transaction after the call data is set again and the outputs replaced. */
  function Rewritten(pre: TxValue, data: Hex, outs: seq<Output>): TxValue
    requires |pre.inputs| > 0
  {
    WithMsgData(pre, 0, data).(outputs := outs)
  }

  /** The transaction submitted with `eth_sendRawTransaction`. */
  function Final(c: Crypto, key: Key, data: Hex, inputs: seq<SpendInput>, outs: seq<Output>): TxValue
    requires |inputs| > 0
  {
    Signed(c, key, Rewritten(PreSigned(c, key, data, inputs), data, outs))
  }

  /** The transaction sent for validation: a spend condition with no outputs, the call data on
      input 0, the caller's outpoints and addresses in order; exactly the inputs the key owns
      are signed, each over a transaction that still has no outputs. */
  lemma ValidatedTransaction(c: Crypto, key: Key, data: Hex, inputs: seq<SpendInput>)
    requires |inputs| > 0
    ensures var built := WithMsgData(SpendCondTx(inputs), 0, data);
      var pre := PreSigned(c, key, data, inputs);
      && pre.kind == SpendCond && pre.outputs == [] && pre.inputs[0].msgData == Some(data)
      && (forall k :: 0 <= k < |inputs| ==>
            pre.inputs[k].prevout == inputs[k].prevout && pre.inputs[k].address == inputs[k].address)
      && (forall k :: 0 <= k < |inputs| ==>
            (pre.inputs[k].sig.Some? <==> inputs[k].address == Some(c.privateToAddress(key))))
      && (forall k :: 0 <= k < |inputs| && inputs[k].address == Some(c.privateToAddress(key)) ==>
            pre.inputs[k].sig == Some(SigOver(c, key, SignFirst(c, key, built, k)))
            && SignFirst(c, key, built, k).outputs == [])
  {
    SignedFrame(c, key, WithMsgData(SpendCondTx(inputs), 0, data));
  }

  /** Setting the call data again after validation changes nothing in the local transaction:
      input 0 already carries it (the validator only sees a serialised copy). */
  lemma RepeatedMsgDataIsNoOp(c: Crypto, key: Key, data: Hex, inputs: seq<SpendInput>)
    requires |inputs| > 0
    ensures var pre := PreSigned(c, key, data, inputs); WithMsgData(pre, 0, data) == pre
  {
    var built := WithMsgData(SpendCondTx(inputs), 0, data);
    var pre := PreSigned(c, key, data, inputs);
    SignedFrame(c, key, built);
    assert pre.inputs[0].msgData == Some(data);
    assert WithMsgData(pre, 0, data).inputs == pre.inputs;
  }

  /** The submitted transaction: it is a spend condition over the caller's inputs in order,
      its outputs are exactly the validator's, input 0 carries the call data, the inputs the key
      does not own are unsigned, and each input the key owns carries the key's signature made
      over a transaction whose outputs are already the validator's and whose input 0 carries
      the call data: the final signing happens after the outputs were replaced. */
  lemma SubmittedTransaction(c: Crypto, key: Key, data: Hex, inputs: seq<SpendInput>, outs: seq<Output>)
    requires |inputs| > 0
    ensures var fin := Final(c, key, data, inputs, outs);
      && fin.kind == SpendCond && fin.outputs == outs && |fin.inputs| == |inputs|
      && fin.inputs[0].msgData == Some(data)
      && (forall k :: 0 <= k < |inputs| ==>
            fin.inputs[k].prevout == inputs[k].prevout && fin.inputs[k].address == inputs[k].address)
      && (forall k :: 0 <= k < |inputs| && inputs[k].address != Some(c.privateToAddress(key)) ==>
            fin.inputs[k].sig == None)
  {
    var built := WithMsgData(SpendCondTx(inputs), 0, data);
    var pre := PreSigned(c, key, data, inputs);
    var rw := Rewritten(pre, data, outs);
    SignedFrame(c, key, built);
    SignedFrame(c, key, rw);
  }

  /** The signature the final transaction carries on an input the key owns was made over the
      transaction with the validator's outputs and the call data in place. */
  lemma FinalSignatureCoversFinalOutputs(c: Crypto, key: Key, data: Hex, inputs: seq<SpendInput>,
                                         outs: seq<Output>, k: nat)
    requires k < |inputs| && inputs[k].address == Some(c.privateToAddress(key))
    ensures var rw := Rewritten(PreSigned(c, key, data, inputs), data, outs);
      var signedOver := SignFirst(c, key, rw, k);
      && Final(c, key, data, inputs, outs).inputs[k].sig == Some(SigOver(c, key, signedOver))
      && signedOver.outputs == outs
      && signedOver.inputs[0].msgData == Some(data)
  {
    var built := WithMsgData(SpendCondTx(inputs), 0, data);
    var pre := PreSigned(c, key, data, inputs);
    var rw := Rewritten(pre, data, outs);
    SignedFrame(c, key, built);
    SignedFrame(c, key, rw);
    SignFirstAt(c, key, rw, k, 0);
  }

  class PlasmaMethodCall {
    const plasma: Plasma
    const data: Hex

    constructor (plasma: Plasma, data: Hex)
      ensures this.plasma == plasma && this.data == data
    {
      this.plasma := plasma;
      this.data := data;
    }

    /** `send(inputs, privateKey)`: returns the hash of the submitted transaction. A rejected
        validation ends the call before anything is submitted; no step is retried. */
    method Send(inputs: seq<SpendInput>, key: Key, c: Crypto, codec: Codec)
      returns (r: Result<Hash, SendError>, log: seq<Event>)
      ensures |inputs| == 0 ==> r == Failure(NoInputs) && log == []
      ensures |inputs| > 0 ==>
        var pre := PreSigned(c, key, data, inputs);
        var checked := [SetMsgData(data), Sign([]), CheckSpendingCondition(codec.hex(pre))];
        match plasma.checkSpendingCondition(codec.hex(pre))
        case Failure(e) => r == Failure(Rejected(e)) && log == checked
        case Success(NullResult) => r == Failure(MalformedValidation) && log == checked
        case Success(MissingOutputs) => r == Failure(MalformedValidation) && log == checked + [SetMsgData(data)]
        case Success(WithOutputs(outs)) =>
          var fin := Final(c, key, data, inputs, outs);
          && log == checked + [SetMsgData(data), ReplaceOutputs(outs), Sign(outs), SendRawTransaction(codec.hex(fin))]
          && r == (match plasma.sendRawTransaction(codec.hex(fin))
                   case Failure(e) => Failure(Rejected(e))
                   case Success(_) => Success(codec.hash(fin)))
    {
      if |inputs| == 0 {
        return Failure(NoInputs), [];
      }
      var transaction := new Transaction(SpendCond, SpendCondTx(inputs).inputs, []);
      transaction.SetMsgData(0, data);
      SignMatching(transaction, c, key);
      log := [SetMsgData(data), Sign(transaction.outputs)];

      var request := codec.hex(transaction.Value());
      log := log + [CheckSpendingCondition(request)];
      var validation := plasma.checkSpendingCondition(request);
      if validation.Failure? {
        return Failure(Rejected(validation.error)), log;
      }
      if validation.value.NullResult? {
        return Failure(MalformedValidation), log;
      }
      transaction.SetMsgData(0, data);
      log := log + [SetMsgData(data)];
      if validation.value.MissingOutputs? {
        return Failure(MalformedValidation), log;
      }
      var outputs := validation.value.outputs;
      transaction.outputs := outputs;
      log := log + [ReplaceOutputs(outputs)];

      SignMatching(transaction, c, key);
      log := log + [Sign(transaction.outputs)];
      var raw := codec.hex(transaction.Value());
      log := log + [SendRawTransaction(raw)];
      var submission := plasma.sendRawTransaction(raw);
      if submission.Failure? {
        return Failure(Rejected(submission.error)), log;
      }
      r := Success(codec.hash(transaction.Value()));
    }
  }
}
