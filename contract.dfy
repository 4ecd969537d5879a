/** `PlasmaContract`: a name-to-method table built from a contract's ABI, each method producing
    a `PlasmaMethodCall` over the ABI-encoded call. */
module Contract {
  import opened Wrappers
  import opened Tx
  import opened Rpc
  import opened MethodCall

  /** An ABI entry: its `type` ("function", "event", "constructor", …) and its `name`. */
  datatype AbiEntry = AbiEntry(kind: string, name: string)

  /** An argument of a contract call, as the ABI encoder receives it. */
  type Arg = string

  /** `this.methodCall.bind(this, name)`: the table's entry for `name`. */
  datatype BoundMethod = BoundMethod(name: string)

  /** Why a call through the table fails: the name has no callable entry (a TypeError). */
  datatype CallError = NotAFunction(name: string)

  /** The names of the ABI's entries of type "function". */
  function FunctionNames(abi: seq<AbiEntry>): set<string> {
    set i | 0 <= i < |abi| && abi[i].kind == "function" :: abi[i].name
  }

  lemma FunctionNamesExtend(abi: seq<AbiEntry>, i: nat)
    requires i < |abi|
    ensures FunctionNames(abi[..i + 1])
      == FunctionNames(abi[..i]) + (if abi[i].kind == "function" then {abi[i].name} else {})
  {
    var pre, ext := abi[..i], abi[..i + 1];
    assert forall j :: 0 <= j < i ==> ext[j] == pre[j];
    if abi[i].kind == "function" {
      assert ext[i].name in FunctionNames(ext);
    }
  }

  class PlasmaContract {
    const plasma: Plasma
    const abi: seq<AbiEntry>
    /** `contract.methods[name](...params).encodeABI()` of `new plasma.eth.Contract(abi)`. */
    const encodeABI: (string, seq<Arg>) -> Hex
    var methods: map<string, BoundMethod>

    /** The table holds exactly the ABI's function names, each bound to its own name. */
    ghost predicate Valid()
      reads this
    {
      && methods.Keys == FunctionNames(abi)
      && forall name :: name in methods ==> methods[name] == BoundMethod(name)
    }

    constructor (plasma: Plasma, abi: seq<AbiEntry>, encodeABI: (string, seq<Arg>) -> Hex)
      ensures Valid()
      ensures this.plasma == plasma && this.abi == abi && this.encodeABI == encodeABI
    {
      this.plasma := plasma;
      this.abi := abi;
      this.encodeABI := encodeABI;
      this.methods := map[];
      new;
      for i := 0 to |abi|
        invariant methods.Keys == FunctionNames(abi[..i])
        invariant forall name :: name in methods ==> methods[name] == BoundMethod(name)
      {
        FunctionNamesExtend(abi, i);
        if abi[i].kind == "function" {
          methods := methods[abi[i].name := BoundMethod(abi[i].name)];
        }
      }
      assert abi[..|abi|] == abi;
    }

    /** `methodCall(name, ...params)`: a `PlasmaMethodCall` bound to the same node and to the
        encoded call; a name the ABI has no function for has no encoder to call. */
    method Call(name: string, params: seq<Arg>) returns (r: Result<PlasmaMethodCall, CallError>)
      ensures r.Success? <==> name in FunctionNames(abi)
      ensures r.Success? ==> r.value.plasma == plasma && r.value.data == encodeABI(name, params)
      ensures r.Failure? ==> r.error == NotAFunction(name)
    {
      if name !in FunctionNames(abi) {
        return Failure(NotAFunction(name));
      }
      var call := new PlasmaMethodCall(plasma, encodeABI(name, params));
      r := Success(call);
    }

    /** `contract.methods[name](...params)`: look the name up in the table and call what it is
        bound to. */
    method Invoke(name: string, params: seq<Arg>) returns (r: Result<PlasmaMethodCall, CallError>)
      requires Valid()
      ensures r.Success? <==> name in FunctionNames(abi)
      ensures r.Success? ==> r.value.plasma == plasma && r.value.data == encodeABI(name, params)
      ensures r.Failure? ==> r.error == NotAFunction(name)
    {
      if name !in methods {
        return Failure(NotAFunction(name));
      }
      r := Call(methods[name].name, params);
    }
  }
}
