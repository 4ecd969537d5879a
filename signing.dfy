/** Partial signing by address ownership: `signMatching` signs exactly the inputs whose claimed
    address is the key's address, each over the transaction as it stands when it is reached. */
module Signing {
  import opened Wrappers
  import opened Tx

  predicate Owns(c: Crypto, key: Key, inp: Input) {
    inp.address == Some(c.privateToAddress(key))
  }

  /** The signature `setSig` attaches for `key` when the transaction stands at `t`. */
  function SigOver(c: Crypto, key: Key, t: TxValue): Sig {
    var e := c.ecsign(c.sigHash(t), key);
    Sig(e.r, e.s, e.v, c.privateToAddress(key))
  }

  /** One iteration of the loop: sign input `k` if the key owns it. */
  function SignAt(c: Crypto, key: Key, t: TxValue, k: nat): TxValue
    requires k < |t.inputs|
  {
    if Owns(c, key, t.inputs[k]) then
      t.(inputs := t.inputs[k := t.inputs[k].(sig := Some(SigOver(c, key, t)))])
    else t
  }

  /** The transaction after the loop has visited its first `n` inputs. */
  function SignFirst(c: Crypto, key: Key, t: TxValue, n: nat): (r: TxValue)
    requires n <= |t.inputs|
    ensures r.kind == t.kind && r.outputs == t.outputs && |r.inputs| == |t.inputs|
    decreases n
  {
    if n == 0 then t else SignAt(c, key, SignFirst(c, key, t, n - 1), n - 1)
  }

  /** The transaction after `signMatching(t, key)`. */
  function Signed(c: Crypto, key: Key, t: TxValue): (r: TxValue)
    ensures r.kind == t.kind && r.outputs == t.outputs && |r.inputs| == |t.inputs|
  {
    SignFirst(c, key, t, |t.inputs|)
  }

  /** What the first `n` iterations do to input `k`: its outpoint, address and msgData stay;
      it is signed iff it was visited and the key owns it, over the state before its visit. */
  lemma {:induction false} SignFirstAt(c: Crypto, key: Key, t: TxValue, n: nat, k: nat)
    requires n <= |t.inputs| && k < |t.inputs|
    ensures k < n && Owns(c, key, t.inputs[k]) ==>
      SignFirst(c, key, t, n).inputs[k]
        == t.inputs[k].(sig := Some(SigOver(c, key, SignFirst(c, key, t, k))))
    ensures !(k < n && Owns(c, key, t.inputs[k])) ==> SignFirst(c, key, t, n).inputs[k] == t.inputs[k]
    decreases n
  {
    if n > 0 {
      SignFirstAt(c, key, t, n - 1, k);
      if k == n - 1 {
        SignFirstAt(c, key, t, n - 1, n - 1);
      }
    }
  }

  /** The frame of `signMatching`: an input the key owns gets the key's signature (made over the
      transaction as it stood when the loop reached that input) and nothing else of it changes;
      every other input, the outputs and the kind are left as they were. */
  lemma SignedFrame(c: Crypto, key: Key, t: TxValue)
    ensures var r := Signed(c, key, t);
      && r.kind == t.kind && r.outputs == t.outputs && |r.inputs| == |t.inputs|
      && (forall k :: 0 <= k < |t.inputs| && !Owns(c, key, t.inputs[k]) ==> r.inputs[k] == t.inputs[k])
      && (forall k :: 0 <= k < |t.inputs| && Owns(c, key, t.inputs[k]) ==>
            r.inputs[k] == t.inputs[k].(sig := Some(SigOver(c, key, SignFirst(c, key, t, k)))))
  {
    forall k | 0 <= k < |t.inputs| {
      SignFirstAt(c, key, t, |t.inputs|, k);
    }
  }

  /** Which inputs carry a signature afterwards: those signed before, and those the key owns;
      every new signature names the key's address as its signer. */
  lemma SignedSet(c: Crypto, key: Key, t: TxValue)
    ensures forall k :: 0 <= k < |t.inputs| ==>
      (Signed(c, key, t).inputs[k].sig.Some? <==> t.inputs[k].sig.Some? || Owns(c, key, t.inputs[k]))
    ensures forall k :: 0 <= k < |t.inputs| && Owns(c, key, t.inputs[k]) ==>
      Signed(c, key, t).inputs[k].sig.value.signer == c.privateToAddress(key)
  {
    SignedFrame(c, key, t);
  }

  /** A key that owns no input leaves the transaction exactly as it was. */
  lemma SignedNoMatch(c: Crypto, key: Key, t: TxValue)
    requires forall k :: 0 <= k < |t.inputs| ==> !Owns(c, key, t.inputs[k])
    ensures Signed(c, key, t) == t
  {
    SignedFrame(c, key, t);
    assert Signed(c, key, t).inputs == t.inputs;
  }

  /** Signing twice with the same key leaves the same inputs signed as signing once, and the
      inputs the key does not own identical. */
  lemma SignedTwice(c: Crypto, key: Key, t: TxValue)
    ensures var once, twice := Signed(c, key, t), Signed(c, key, Signed(c, key, t));
      && |twice.inputs| == |once.inputs| && twice.outputs == once.outputs
      && (forall k :: 0 <= k < |t.inputs| ==> (twice.inputs[k].sig.Some? <==> once.inputs[k].sig.Some?))
      && (forall k :: 0 <= k < |t.inputs| && !Owns(c, key, t.inputs[k]) ==> twice.inputs[k] == once.inputs[k])
  {
    var once := Signed(c, key, t);
    SignedFrame(c, key, t);
    SignedFrame(c, key, once);
    SignedSet(c, key, once);
    SignedSet(c, key, t);
    assert forall k :: 0 <= k < |t.inputs| ==> (Owns(c, key, once.inputs[k]) <==> Owns(c, key, t.inputs[k]));
  }

  /** `signMatching(transaction, privateKey)`: walks the inputs in order and signs, in place, each
      one whose address is the key's address. */
  method SignMatching(tx: Transaction, c: Crypto, key: Key)
    modifies tx.inputs
    ensures tx.Value() == Signed(c, key, old(tx.Value()))
  {
    var address := c.privateToAddress(key);
    ghost var t0 := tx.Value();
    for i := 0 to tx.inputs.Length
      invariant tx.Value() == SignFirst(c, key, t0, i)
    {
      if tx.inputs[i].address == Some(address) {
        var digest := c.sigHash(tx.Value());
        var e := c.ecsign(digest, key);
        tx.inputs[i] := tx.inputs[i].(sig := Some(Sig(e.r, e.s, e.v, address)));
      }
    }
  }
}
