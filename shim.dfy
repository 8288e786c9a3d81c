/**
 * The ledger stub (`shim.ChaincodeStubInterface`) as far as the chaincode
 * uses it: `PutState` and `GetState` on a string-keyed store of byte values.
 * Whether a call fails is decided by an explicit oracle fixed when the stub
 * is made; the chaincode only ever looks at whether the returned error is nil.
 */
module Shim {
  import opened Wrappers
  import opened Encoding

  /** An error value returned by the stub; its content belongs to the host. */
  datatype Fault = Fault(cause: string)

  /**
   * Which calls fail: `putFaults[k]` is the error `PutState(k, _)` returns,
   * `getFaults[k]` the error `GetState(k)` returns. `absent` is what a
   * successful `GetState` hands back for a key the state does not hold,
   * which the model leaves to the host.
   */
  datatype Oracle = Oracle(putFaults: map<string, Fault>, getFaults: map<string, Fault>, absent: Bytes)

  /** One call made on the stub. */
  datatype Call = PutCall(key: string, value: Bytes) | GetCall(key: string)

  /** What a successful `GetState(key)` returns on `state`. */
  function Lookup(state: map<string, Bytes>, oracle: Oracle, key: string): (v: Bytes)
    ensures key in state ==> v == state[key]
    ensures key !in state ==> v == oracle.absent
  {
    if key in state then state[key] else oracle.absent
  }

  class Stub {
    /** The world state the chaincode sees. */
    var state: map<string, Bytes>
    const oracle: Oracle
    /** Every call made on the stub so far, oldest first. */
    ghost var calls: seq<Call>

    constructor (state0: map<string, Bytes>, oracle: Oracle)
      ensures state == state0 && this.oracle == oracle && calls == []
    {
      state := state0;
      this.oracle := oracle;
      calls := [];
    }

    /** A put that fails leaves the state as it was. */
    method PutState(key: string, value: Bytes) returns (err: Option<Fault>)
      modifies this`state, this`calls
      ensures calls == old(calls) + [PutCall(key, value)]
      ensures key in oracle.putFaults ==> err == Some(oracle.putFaults[key]) && state == old(state)
      ensures key !in oracle.putFaults ==> err == None && state == old(state)[key := value]
    {
      calls := calls + [PutCall(key, value)];
      if key in oracle.putFaults {
        err := Some(oracle.putFaults[key]);
      } else {
        state := state[key := value];
        err := None;
      }
    }

    method GetState(key: string) returns (value: Bytes, err: Option<Fault>)
      modifies this`calls
      ensures calls == old(calls) + [GetCall(key)]
      ensures key in oracle.getFaults ==> err == Some(oracle.getFaults[key])
      ensures key !in oracle.getFaults ==> err == None && value == Lookup(state, oracle, key)
    {
      calls := calls + [GetCall(key)];
      if key in oracle.getFaults {
        value, err := [], Some(oracle.getFaults[key]);
      } else {
        value, err := Lookup(state, oracle, key), None;
      }
    }
  }
}
