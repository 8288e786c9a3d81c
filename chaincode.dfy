/**
 * `SimpleChaincode`: the request handler. It holds no state of its own; every
 * entry point works on the stub it is handed, through `PutState` and
 * `GetState`, and returns early on the first error.
 */
module Chaincode {
  import opened Encoding
  import opened Shim
  import opened ChaincodeSpec

  /** `Invoke`: the entry point for calls that may change the ledger. */
  method Invoke(stub: Stub, name: string, args: seq<string>) returns (r: Reply)
    modifies stub`state, stub`calls
    ensures var o := InvokeOutcome(old(stub.state), stub.oracle, name, args);
      r == o.reply && stub.state == o.state && stub.calls == old(stub.calls) + o.calls
  {
    if name == "init" {
      r := Init(stub, "init", args);
    } else if name == "write" {
      r := Write(stub, args);
    } else {
      r := Failed(Raised(UnknownInvocation));
    }
  }

  /** `Query`: the entry point for reads; it never changes the ledger state. */
  method Query(stub: Stub, name: string, args: seq<string>) returns (r: Reply)
    modifies stub`calls
    ensures stub.state == old(stub.state)
    ensures var o := QueryOutcome(old(stub.state), stub.oracle, name, args);
      r == o.reply && stub.calls == old(stub.calls) + o.calls
  {
    if name == "dummy_query" {
      r := Done([]);
    } else if name == "read" {
      r := Read(stub, args);
    } else {
      r := Failed(Raised(UnknownQuery));
    }
  }

  /**
   * `Init`: puts its single argument under `hello_world`, `financial_instrument`
   * and `ISIN` in turn. The name it is called with plays no part.
   */
  method Init(stub: Stub, name: string, args: seq<string>) returns (r: Reply)
    modifies stub`state, stub`calls
    ensures var o := InitOutcome(old(stub.state), stub.oracle, args);
      r == o.reply && stub.state == o.state && stub.calls == old(stub.calls) + o.calls
  {
    if |args| != 1 {
      return Failed(Raised(ExpectOne));
    }
    var value := ToBytes(args[0]);
    ghost var before := stub.state;
    var err := stub.PutState(HelloWorld, value);
    if err.Some? {
      return Failed(Store(err.value));
    }
    PutAllSnoc(before, [], HelloWorld, value);
    err := stub.PutState(FinancialInstrument, value);
    if err.Some? {
      assert InitKeys[..1] == [HelloWorld];
      assert FirstFailing(InitKeys[1..], stub.oracle.putFaults) == 0;
      return Failed(Store(err.value));
    }
    PutAllSnoc(before, [HelloWorld], FinancialInstrument, value);
    err := stub.PutState(Isin, value);
    if err.Some? {
      assert InitKeys[..2] == [HelloWorld, FinancialInstrument];
      return Failed(Store(err.value));
    }
    PutAllSnoc(before, [HelloWorld, FinancialInstrument], Isin, value);
    assert [HelloWorld, FinancialInstrument] + [Isin] == InitKeys;
    return Done([]);
  }

  /** `write`: puts `args[1]` under the key `args[0]`. */
  method Write(stub: Stub, args: seq<string>) returns (r: Reply)
    modifies stub`state, stub`calls
    ensures var o := WriteOutcome(old(stub.state), stub.oracle, args);
      r == o.reply && stub.state == o.state && stub.calls == old(stub.calls) + o.calls
  {
    if |args| != 2 {
      return Failed(Raised(ExpectKeyAndValue));
    }
    var key, value := args[0], args[1];
    var err := stub.PutState(key, ToBytes(value));
    if err.Some? {
      return Failed(Store(err.value));
    }
    return Done([]);
  }

  /** `read`: gets the value stored under the key `args[0]`. */
  method Read(stub: Stub, args: seq<string>) returns (r: Reply)
    modifies stub`calls
    ensures stub.state == old(stub.state)
    ensures var o := ReadOutcome(old(stub.state), stub.oracle, args);
      r == o.reply && stub.calls == old(stub.calls) + o.calls
  {
    if |args| != 1 {
      return Failed(Raised(ExpectKeyName));
    }
    var key := args[0];
    var value, err := stub.GetState(key);
    if err.Some? {
      return Failed(Raised(GetFailedMessage(key)));
    }
    return Done(value);
  }
}
