/**
 * What the chaincode promises, proved of the functions that specify its entry
 * points: which keys `Init` and `write` change and to what, what survives a
 * failed put, what `read` hands back, and that arity and name errors are
 * raised before the stub is called.
 */
module ChaincodeProperties {
  import opened Wrappers
  import opened Encoding
  import opened Shim
  import opened ChaincodeSpec

  /** After a run of successful puts, every key put holds the value. */
  lemma {:induction false} PutAllStores(state: map<string, Bytes>, keys: seq<string>, value: Bytes, key: string)
    requires key in keys
    ensures key in PutAll(state, keys, value) && PutAll(state, keys, value)[key] == value
    decreases keys
  {
    if key in keys[1..] {
      PutAllStores(state[keys[0] := value], keys[1..], value, key);
    } else {
      PutAllKeeps(state[keys[0] := value], keys[1..], value, key);
    }
  }

  /** A key not among those put keeps its value. */
  lemma {:induction false} PutAllKeeps(state: map<string, Bytes>, keys: seq<string>, value: Bytes, key: string)
    requires key !in keys
    ensures SameAt(state, PutAll(state, keys, value), key)
    decreases keys
  {
    if keys != [] {
      PutAllKeeps(state[keys[0] := value], keys[1..], value, key);
    }
  }

  /** `Init` whose three puts all succeed: the three keys hold the argument and nothing else changes. */
  lemma InitAllPutsSucceed(state: map<string, Bytes>, oracle: Oracle, args: seq<string>)
    requires |args| == 1
    requires forall i :: 0 <= i < |InitKeys| ==> InitKeys[i] !in oracle.putFaults
    ensures var o := InitOutcome(state, oracle, args);
      && o.reply == Done([])
      && (forall key :: key in InitKeys ==> key in o.state && o.state[key] == ToBytes(args[0]))
      && (forall key :: key !in InitKeys ==> SameAt(state, o.state, key))
      && o.calls == [PutCall(HelloWorld, ToBytes(args[0])), PutCall(FinancialInstrument, ToBytes(args[0])), PutCall(Isin, ToBytes(args[0]))]
  {
    var o := InitOutcome(state, oracle, args);
    var value := ToBytes(args[0]);
    assert FirstFailing(InitKeys, oracle.putFaults) == |InitKeys|;
    forall key
      ensures key in InitKeys ==> key in o.state && o.state[key] == value
      ensures key !in InitKeys ==> SameAt(state, o.state, key)
    {
      if key in InitKeys {
        PutAllStores(state, InitKeys, value, key);
      } else {
        PutAllKeeps(state, InitKeys, value, key);
      }
    }
  }

  /**
   * `Init` whose `k`-th put fails (counting from 0): the puts before it have
   * taken effect and are not undone, the failing key and those after it are
   * untouched, and the stub's error is returned as it is.
   */
  lemma InitStopsAtFailedPut(state: map<string, Bytes>, oracle: Oracle, args: seq<string>, k: nat)
    requires |args| == 1
    requires k < |InitKeys| && InitKeys[k] in oracle.putFaults
    requires forall i :: 0 <= i < k ==> InitKeys[i] !in oracle.putFaults
    ensures var o := InitOutcome(state, oracle, args);
      && o.reply == Failed(Store(oracle.putFaults[InitKeys[k]]))
      && (forall i :: 0 <= i < k ==> InitKeys[i] in o.state && o.state[InitKeys[i]] == ToBytes(args[0]))
      && (forall i :: k <= i < |InitKeys| ==> SameAt(state, o.state, InitKeys[i]))
      && (forall key :: key !in InitKeys ==> SameAt(state, o.state, key))
      && o.calls == Puts(InitKeys[..k + 1], ToBytes(args[0]))
  {
    var o := InitOutcome(state, oracle, args);
    var value := ToBytes(args[0]);
    assert FirstFailing(InitKeys, oracle.putFaults) == k;
    assert o.state == PutAll(state, InitKeys[..k], value);
    forall i | 0 <= i < k
      ensures InitKeys[i] in o.state && o.state[InitKeys[i]] == value
    {
      PutAllStores(state, InitKeys[..k], value, InitKeys[i]);
    }
    forall i | k <= i < |InitKeys|
      ensures SameAt(state, o.state, InitKeys[i])
    {
      PutAllKeeps(state, InitKeys[..k], value, InitKeys[i]);
    }
    forall key | key !in InitKeys
      ensures SameAt(state, o.state, key)
    {
      PutAllKeeps(state, InitKeys[..k], value, key);
    }
  }

  /**
   * Repeating a successful `write` leaves the ledger as the first one did,
   * whatever stub the repeat runs on: one put of the same value under the
   * same key changes nothing more.
   */
  lemma WriteIdempotent(state: map<string, Bytes>, first: Oracle, second: Oracle, args: seq<string>)
    requires WriteOutcome(state, first, args).reply.Done?
    ensures WriteOutcome(WriteOutcome(state, first, args).state, second, args).state == WriteOutcome(state, first, args).state
  {
  }

  /**
   * On one stub, whose failure oracle is fixed, repeating any `write` also
   * gives the same reply; this rests on the oracle answering the same key
   * the same way twice.
   */
  lemma WriteRepeatOnOneStub(state: map<string, Bytes>, oracle: Oracle, args: seq<string>)
    ensures var once := WriteOutcome(state, oracle, args);
      var twice := WriteOutcome(once.state, oracle, args);
      twice.state == once.state && twice.reply == once.reply
  {
  }

  /** A successful `write(key, value)` followed by a successful `read(key)` gives back `value`. */
  lemma WriteThenRead(state: map<string, Bytes>, oracle: Oracle, key: string, value: string)
    requires WriteOutcome(state, oracle, [key, value]).reply.Done?
    requires key !in oracle.getFaults
    ensures var r := ReadOutcome(WriteOutcome(state, oracle, [key, value]).state, oracle, [key]).reply;
      r == Done(ToBytes(value)) && FromBytes(r.payload) == Some(value)
  {
    FromToBytes(value);
  }

  /** Failed reads of different keys are reported with different messages. */
  lemma GetFailedMessageInjective(key1: string, key2: string)
    requires GetFailedMessage(key1) == GetFailedMessage(key2)
    ensures key1 == key2
  {
  }

  /**
   * `Invoke` changes only the keys the request names: `hello_world`,
   * `financial_instrument` and `ISIN` for `"init"`, `args[0]` for `"write"`;
   * each key it changes then holds the request's value, and no key is removed.
   */
  lemma InvokeChangesOnlyNamedKeys(state: map<string, Bytes>, oracle: Oracle, name: string, args: seq<string>, key: string)
    ensures var o := InvokeOutcome(state, oracle, name, args);
      && (key in state ==> key in o.state)
      && (!SameAt(state, o.state, key) ==>
            || (name == "init" && |args| == 1 && key in InitKeys && o.state[key] == ToBytes(args[0]))
            || (name == "write" && |args| == 2 && key == args[0] && o.state[key] == ToBytes(args[1])))
  {
    if name == "init" && |args| == 1 {
      var value := ToBytes(args[0]);
      var k := FirstFailing(InitKeys, oracle.putFaults);
      var keys := if k < |InitKeys| then InitKeys[..k] else InitKeys;
      assert InitOutcome(state, oracle, args).state == PutAll(state, keys, value);
      if key in keys {
        PutAllStores(state, keys, value, key);
        assert key in InitKeys;
      } else {
        PutAllKeeps(state, keys, value, key);
      }
    }
  }
}
