/** `consolidateUTXOs`: merge UTXOs into one output, submit the transfer, then wait a bounded
    number of rounds for it to be included in a block. */
module Consolidation {
  import opened Wrappers
  import opened Tx
  import opened Rpc
  import Decimal
  import Text

  datatype UtxoOutput = UtxoOutput(address: Addr, color: nat, value: nat)
  datatype Utxo = Utxo(outpoint: Outpoint, output: UtxoOutput)

  /** How consolidation fails: reading `utxos[0]` of an empty list (a TypeError), a rejection
      passed on unchanged (from `signWeb3` or `getTransaction`), the wrapped submission error,
      and the exhausted poll budget. */
  datatype ConsolidateError = NoUtxos | Thrown(cause: TransportError) | SubmitFailed | NotIncluded {
    function Message(): string {
      match this
      case NoUtxos => "TypeError: the UTXO list has no first element"
      case Thrown(cause) => cause
      case SubmitFailed => "Consolidate failed."
      case NotIncluded => "Consolidate UTXOs wasn't included into a block."
    }
  }

  /** Number of `getTransaction` rounds, and the pause after each unsuccessful one. */
  const MaxRounds: nat := 5
  const PollIntervalMs: nat := 1000

  /** The sum of the values, accumulated from the first UTXO on, as the `reduce` does. */
  function Total(utxos: seq<Utxo>): (r: nat)
    ensures r == 0 <==> forall i :: 0 <= i < |utxos| ==> utxos[i].output.value == 0
    ensures |utxos| > 0 ==> r >= utxos[|utxos| - 1].output.value
  {
    if utxos == [] then 0 else Total(utxos[..|utxos| - 1]) + utxos[|utxos| - 1].output.value
  }

  lemma {:induction false} TotalAppend(a: seq<Utxo>, b: seq<Utxo>)
    ensures Total(a + b) == Total(a) + Total(b)
    decreases |b|
  {
    if b != [] {
      TotalAppend(a, b[..|b| - 1]);
      assert (a + b)[..|a + b| - 1] == a + b[..|b| - 1];
    } else {
      assert a + b == a;
    }
  }

  /** No UTXO is worth more than the total. */
  lemma {:induction false} TotalBounds(utxos: seq<Utxo>)
    ensures forall i :: 0 <= i < |utxos| ==> utxos[i].output.value <= Total(utxos)
    decreases |utxos|
  {
    if utxos != [] {
      var init := utxos[..|utxos| - 1];
      TotalBounds(init);
      assert forall i :: 0 <= i < |init| ==> utxos[i] == init[i];
    }
  }

  /** The total is also the first UTXO's value plus the total of the rest: the order in which
      the values are accumulated does not matter. */
  lemma TotalFirst(utxos: seq<Utxo>)
    requires |utxos| > 0
    ensures Total(utxos) == utxos[0].output.value + Total(utxos[1..])
  {
    TotalAppend([utxos[0]], utxos[1..]);
    assert [utxos[0]] + utxos[1..] == utxos;
    assert [utxos[0]][..0] == [];
  }

  /** The unsigned transfer: one input per UTXO from its outpoint, and a single output holding
      the whole sum in decimal, at the first UTXO's address lower-cased and in its colour. */
  function ConsolidationTx(utxos: seq<Utxo>): (t: TxValue)
    requires |utxos| > 0
    ensures t.kind == Transfer
    ensures |t.inputs| == |utxos|
    ensures forall i :: 0 <= i < |utxos| ==> t.inputs[i] == Input(utxos[i].outpoint, None, None, None)
    ensures |t.outputs| == 1
    ensures Decimal.Canonical(t.outputs[0].value) && Decimal.FromDecimal(t.outputs[0].value) == Total(utxos)
    ensures t.outputs[0].address == Text.ToLower(utxos[0].output.address)
    ensures t.outputs[0].color == utxos[0].output.color
  {
    var first := utxos[0].output;
    var inputs := seq(|utxos|, i requires 0 <= i < |utxos| => Input(utxos[i].outpoint, None, None, None));
    var amount := Decimal.ToDecimal(Total(utxos));
    Decimal.FromToDecimal(Total(utxos));
    TxValue(Transfer, inputs, [Output(amount, Text.ToLower(first.address), first.color)])
  }

  /** Three UTXOs worth 10, 20 and 5 at one address consolidate into one output worth "35". */
  lemma ThreeUtxoExample(o1: Outpoint, o2: Outpoint, o3: Outpoint, addr: Addr, color: nat)
    ensures var t := ConsolidationTx([Utxo(o1, UtxoOutput(addr, color, 10)),
                                      Utxo(o2, UtxoOutput(addr, color, 20)),
                                      Utxo(o3, UtxoOutput(addr, color, 5))]);
      |t.inputs| == 3 && t.outputs == [Output("35", Text.ToLower(addr), color)]
  {
    var utxos := [Utxo(o1, UtxoOutput(addr, color, 10)), Utxo(o2, UtxoOutput(addr, color, 20)),
                  Utxo(o3, UtxoOutput(addr, color, 5))];
    assert utxos[..2][..1][..0] == [];
    assert Total(utxos[..2][..1]) == 10;
    assert utxos[..2][..1] == utxos[..1] && Total(utxos[..2]) == 30;
    assert utxos[..3] == utxos && Total(utxos) == 35;
    Decimal.ToFromDecimal("35");
  }

  /** `privateKey ? transaction.signAll(privateKey) : transaction.signWeb3(web3)`. */
  function SignForSubmit(codec: Codec, privateKey: Option<Key>, t: TxValue): (r: Result<TxValue, TransportError>)
    ensures privateKey.Some? && privateKey.value != "" ==> r == Success(codec.signAll(t, privateKey.value))
    ensures privateKey == None || privateKey == Some("") ==> r == codec.signWeb3(t)
  {
    if privateKey.Some? && privateKey.value != "" then Success(codec.signAll(t, privateKey.value))
    else codec.signWeb3(t)
  }

  /** The first round, from `from` on and below the budget, whose lookup settles the poll
      (included, or rejected); `MaxRounds` when every remaining round is pending. */
  function FirstSettled(plasma: Plasma, h: Hash, from: nat): (k: nat)
    requires from <= MaxRounds
    ensures from <= k <= MaxRounds
    ensures forall j :: from <= j < k ==> Pending(plasma.getTransaction(h, j))
    ensures k < MaxRounds ==> !Pending(plasma.getTransaction(h, k))
    decreases MaxRounds - from
  {
    if from == MaxRounds || !Pending(plasma.getTransaction(h, from)) then from
    else FirstSettled(plasma, h, from + 1)
  }

  /** `round` unsuccessful rounds: each a query followed by a sleep. */
  function PendingRounds(h: Hash, rounds: nat): seq<Event> {
    if rounds == 0 then [] else PendingRounds(h, rounds - 1) + [GetTransaction(h, rounds - 1), Sleep(PollIntervalMs)]
  }

  /** The outcome of polling for `h`. */
  function PollOutcome(plasma: Plasma, h: Hash): Result<TxRecord, ConsolidateError> {
    var k := FirstSettled(plasma, h, 0);
    if k == MaxRounds then Failure(NotIncluded)
    else match plasma.getTransaction(h, k)
      case LookupFailed(e) => Failure(Thrown(e))
      case Resolved(rec) => Success(rec.value)
  }

  /** The requests and sleeps of polling for `h`. */
  function PollLog(plasma: Plasma, h: Hash): seq<Event> {
    var k := FirstSettled(plasma, h, 0);
    PendingRounds(h, k) + (if k < MaxRounds then [GetTransaction(h, k)] else [])
  }

  lemma {:induction false} PendingRoundsCounts(h: Hash, rounds: nat)
    ensures Queries(PendingRounds(h, rounds)) == rounds && Sleeps(PendingRounds(h, rounds)) == rounds
  {
    if rounds > 0 {
      var pre := PendingRounds(h, rounds - 1);
      PendingRoundsCounts(h, rounds - 1);
      CountsAppend(pre, [GetTransaction(h, rounds - 1), Sleep(PollIntervalMs)]);
      var pair := [GetTransaction(h, rounds - 1), Sleep(PollIntervalMs)];
      assert pair[..1] == [GetTransaction(h, rounds - 1)] && pair[..1][..0] == [];
      assert Queries(pair[..1]) == 1 && Sleeps(pair[..1]) == 0;
      assert Queries(pair) == 1 && Sleeps(pair) == 1;
    }
  }

  /** The poll budget: at most `MaxRounds` queries; it stops at the first round that settles
      it (a sleep after every earlier round, none after that one); it fails with NotIncluded
      exactly when all `MaxRounds` rounds were pending, after `MaxRounds` queries and sleeps. */
  lemma PollBudget(plasma: Plasma, h: Hash)
    ensures var log, k := PollLog(plasma, h), FirstSettled(plasma, h, 0);
      && Queries(log) <= MaxRounds
      && (k < MaxRounds ==> Queries(log) == k + 1 && Sleeps(log) == k)
      && (PollOutcome(plasma, h) == Failure(NotIncluded) <==>
            forall j :: 0 <= j < MaxRounds ==> Pending(plasma.getTransaction(h, j)))
      && (PollOutcome(plasma, h) == Failure(NotIncluded) ==> Queries(log) == MaxRounds && Sleeps(log) == MaxRounds)
  {
    var k := FirstSettled(plasma, h, 0);
    PendingRoundsCounts(h, k);
    CountsAppend(PendingRounds(h, k), if k < MaxRounds then [GetTransaction(h, k)] else []);
    assert [GetTransaction(h, k)][..0] == [];
  }

  /** The poll returns the first receipt that shows a block: when round `j` is included and
      every earlier round pending, polling succeeds with that round's record after `j + 1`
      queries. */
  lemma PollFindsFirstReceipt(plasma: Plasma, h: Hash, j: nat)
    requires j < MaxRounds && Included(plasma.getTransaction(h, j))
    requires forall i :: 0 <= i < j ==> Pending(plasma.getTransaction(h, i))
    ensures PollOutcome(plasma, h) == Success(plasma.getTransaction(h, j).record.value)
    ensures Queries(PollLog(plasma, h)) == j + 1
  {
    var k := FirstSettled(plasma, h, 0);
    assert k == j;
    PollBudget(plasma, h);
  }

  /** The `while (rounds--)` loop: query, stop at a record with a block hash, otherwise sleep;
      a rejected query ends the poll with that rejection. */
  method AwaitInclusion(plasma: Plasma, h: Hash) returns (r: Result<TxRecord, ConsolidateError>, log: seq<Event>)
    ensures r == PollOutcome(plasma, h)
    ensures log == PollLog(plasma, h)
  {
    var receipt: Option<TxRecord> := None;
    var rounds := MaxRounds;
    var round := 0;
    log := [];
    while rounds != 0
      invariant rounds + round == MaxRounds
      invariant FirstSettled(plasma, h, 0) == FirstSettled(plasma, h, round)
      invariant log == PendingRounds(h, round)
      decreases rounds
    {
      rounds := rounds - 1;
      var res := plasma.getTransaction(h, round);
      log := log + [GetTransaction(h, round)];
      if res.LookupFailed? {
        return Failure(Thrown(res.cause)), log;
      }
      if res.record.Some? && res.record.value.blockHash.Some? && res.record.value.blockHash.value != "" {
        receipt := res.record;
        break;
      }
      log := log + [Sleep(PollIntervalMs)];
      round := round + 1;
    }
    if receipt.None? {
      return Failure(NotIncluded), log;
    }
    r := Success(receipt.value);
  }

  /** `consolidateUTXOs(utxos, plasma, web3, privateKey)`: build, sign, submit (a submission
      error becomes "Consolidate failed." and nothing is polled), then poll. */
  method Consolidate(utxos: seq<Utxo>, plasma: Plasma, codec: Codec, privateKey: Option<Key>)
    returns (r: Result<(), ConsolidateError>, log: seq<Event>)
    ensures |utxos| == 0 ==> r == Failure(NoUtxos) && log == []
    ensures |utxos| > 0 ==>
      match SignForSubmit(codec, privateKey, ConsolidationTx(utxos))
      case Failure(e) => r == Failure(Thrown(e)) && log == []
      case Success(signed) =>
        var raw, h := codec.hex(signed), codec.hash(signed);
        if plasma.sendRawTransaction(raw).Failure? then
          r == Failure(SubmitFailed) && log == [SendRawTransaction(raw)]
        else
          log == [SendRawTransaction(raw)] + PollLog(plasma, h)
          && r == (if PollOutcome(plasma, h).Success? then Success(()) else Failure(PollOutcome(plasma, h).error))
    ensures Queries(log) <= MaxRounds
  {
    if |utxos| == 0 {
      return Failure(NoUtxos), [];
    }
    var transaction := ConsolidationTx(utxos);
    var signing := SignForSubmit(codec, privateKey, transaction);
    if signing.Failure? {
      return Failure(Thrown(signing.error)), [];
    }
    var signedTx := signing.value;
    var rawTx := codec.hex(signedTx);
    log := [SendRawTransaction(rawTx)];
    assert Queries(log) == 0 by { assert log[..0] == []; }
    if plasma.sendRawTransaction(rawTx).Failure? {
      return Failure(SubmitFailed), log;
    }
    var poll, pollLog := AwaitInclusion(plasma, codec.hash(signedTx));
    PollBudget(plasma, codec.hash(signedTx));
    CountsAppend(log, pollLog);
    log := log + pollLog;
    r := if poll.Success? then Success(()) else Failure(poll.error);
  }
}
