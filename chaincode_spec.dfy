/**
 * What each entry point of `SimpleChaincode` does, as functions of the ledger
 * state before the call, the stub's failure oracle and the request. Each
 * function returns the reply, the state left behind and the stub calls made.
 */
module ChaincodeSpec {
  import opened Encoding
  import opened Shim

  const HelloWorld := "hello_world"
  const FinancialInstrument := "financial_instrument"
  const Isin := "ISIN"
  /** The keys `Init` writes, in the order it writes them. */
  const InitKeys: seq<string> := [HelloWorld, FinancialInstrument, Isin]

  const ExpectOne := "Incorrect number of arguments. Expecting 1"
  const ExpectKeyAndValue := "Incorrect number of arguments. Expecting 2. name of the key and value to set"
  const ExpectKeyName := "Incorrect number of arguments. Expecting name of the key to query"
  const UnknownInvocation := "Received unknown function invocation"
  const UnknownQuery := "Received unknown function query"
  const GetFailedPrefix := "{\"Error\":\"Failed to get state for "
  const GetFailedSuffix := "\"}"

  /** The JSON-shaped message `read` raises when `GetState(key)` fails. */
  function GetFailedMessage(key: string): (m: string)
    ensures |m| == |GetFailedPrefix| + |key| + |GetFailedSuffix|
    ensures m[..|GetFailedPrefix|] == GetFailedPrefix && m[|GetFailedPrefix| + |key|..] == GetFailedSuffix
    ensures m[|GetFailedPrefix|..|GetFailedPrefix| + |key|] == key
  {
    GetFailedPrefix + key + GetFailedSuffix
  }

  /** `Raised` is an error made by `errors.New`; `Store` one handed back by the stub. */
  datatype Error = Raised(message: string) | Store(fault: Fault)

  /** The `([]byte, error)` pair: a nil byte slice is the empty payload. */
  datatype Reply = Done(payload: Bytes) | Failed(error: Error)

  datatype Outcome = Outcome(reply: Reply, state: map<string, Bytes>, calls: seq<Call>)

  /** `key` is held with the same value, or is absent, in both states. */
  predicate SameAt(s: map<string, Bytes>, t: map<string, Bytes>, key: string) {
    (key in s <==> key in t) && (key in s ==> s[key] == t[key])
  }

  /** The position of the first key whose put fails, `|keys|` when none does. */
  function FirstFailing(keys: seq<string>, putFaults: map<string, Fault>): (k: nat)
    ensures k <= |keys|
    ensures forall i :: 0 <= i < k ==> keys[i] !in putFaults
    ensures k < |keys| ==> keys[k] in putFaults
  {
    if keys == [] || keys[0] in putFaults then 0 else 1 + FirstFailing(keys[1..], putFaults)
  }

  /** `state` after a successful put of `value` under each of `keys` in turn. */
  function PutAll(state: map<string, Bytes>, keys: seq<string>, value: Bytes): (t: map<string, Bytes>)
    decreases keys
  {
    if keys == [] then state else PutAll(state[keys[0] := value], keys[1..], value)
  }

  /** One more successful put after a run of them. */
  lemma {:induction false} PutAllSnoc(state: map<string, Bytes>, keys: seq<string>, key: string, value: Bytes)
    ensures PutAll(state, keys + [key], value) == PutAll(state, keys, value)[key := value]
    decreases keys
  {
    if keys == [] {
      assert [key][1..] == [];
    } else {
      assert (keys + [key])[1..] == keys[1..] + [key];
      PutAllSnoc(state[keys[0] := value], keys[1..], key, value);
    }
  }

  /** The put calls for `keys` in turn, all with `value`. */
  function Puts(keys: seq<string>, value: Bytes): (calls: seq<Call>)
    ensures |calls| == |keys|
    ensures forall i :: 0 <= i < |keys| ==> calls[i] == PutCall(keys[i], value)
  {
    if keys == [] then [] else [PutCall(keys[0], value)] + Puts(keys[1..], value)
  }

  /**
   * `Init`: with one argument, put it under each of `InitKeys` in turn and
   * stop at the first put that fails, keeping the puts already made.
   */
  function InitOutcome(state: map<string, Bytes>, oracle: Oracle, args: seq<string>): (o: Outcome)
    ensures |args| != 1 ==> o == Outcome(Failed(Raised(ExpectOne)), state, [])
    ensures o.reply.Done? ==> o.reply.payload == []
  {
    if |args| != 1 then Outcome(Failed(Raised(ExpectOne)), state, [])
    else
      var value := ToBytes(args[0]);
      var k := FirstFailing(InitKeys, oracle.putFaults);
      if k < |InitKeys| then
        Outcome(Failed(Store(oracle.putFaults[InitKeys[k]])), PutAll(state, InitKeys[..k], value), Puts(InitKeys[..k + 1], value))
      else
        Outcome(Done([]), PutAll(state, InitKeys, value), Puts(InitKeys, value))
  }

  /** `write`: with a key and a value, one put of the value under the key. */
  function WriteOutcome(state: map<string, Bytes>, oracle: Oracle, args: seq<string>): (o: Outcome)
    ensures |args| != 2 ==> o == Outcome(Failed(Raised(ExpectKeyAndValue)), state, [])
    ensures |args| == 2 ==> o.calls == [PutCall(args[0], ToBytes(args[1]))]
    ensures |args| == 2 && args[0] in oracle.putFaults ==>
      o.reply == Failed(Store(oracle.putFaults[args[0]])) && o.state == state
    ensures |args| == 2 && args[0] !in oracle.putFaults ==>
      && o.reply == Done([])
      && args[0] in o.state && o.state[args[0]] == ToBytes(args[1])
      && forall key :: key != args[0] ==> SameAt(state, o.state, key)
  {
    if |args| != 2 then Outcome(Failed(Raised(ExpectKeyAndValue)), state, [])
    else
      var key, value := args[0], ToBytes(args[1]);
      if key in oracle.putFaults then Outcome(Failed(Store(oracle.putFaults[key])), state, [PutCall(key, value)])
      else Outcome(Done([]), state[key := value], [PutCall(key, value)])
  }

  /** `read`: with one key, one get; a failed get is reported with the key in a JSON message. */
  function ReadOutcome(state: map<string, Bytes>, oracle: Oracle, args: seq<string>): (o: Outcome)
    ensures o.state == state
    ensures |args| != 1 ==> o.reply == Failed(Raised(ExpectKeyName)) && o.calls == []
    ensures |args| == 1 ==> o.calls == [GetCall(args[0])]
    ensures |args| == 1 && args[0] in oracle.getFaults ==> o.reply == Failed(Raised(GetFailedMessage(args[0])))
    ensures |args| == 1 && args[0] !in oracle.getFaults ==> o.reply == Done(Lookup(state, oracle, args[0]))
  {
    if |args| != 1 then Outcome(Failed(Raised(ExpectKeyName)), state, [])
    else
      var key := args[0];
      if key in oracle.getFaults then Outcome(Failed(Raised(GetFailedMessage(key))), state, [GetCall(key)])
      else Outcome(Done(Lookup(state, oracle, key)), state, [GetCall(key)])
  }

  /** `Invoke`: routes `"init"` and `"write"`, rejects every other name without touching the stub. */
  function InvokeOutcome(state: map<string, Bytes>, oracle: Oracle, name: string, args: seq<string>): (o: Outcome)
    ensures name == "init" ==> o == InitOutcome(state, oracle, args)
    ensures name == "write" ==> o == WriteOutcome(state, oracle, args)
    ensures name != "init" && name != "write" ==> o == Outcome(Failed(Raised(UnknownInvocation)), state, [])
  {
    if name == "init" then InitOutcome(state, oracle, args)
    else if name == "write" then WriteOutcome(state, oracle, args)
    else Outcome(Failed(Raised(UnknownInvocation)), state, [])
  }

  /** `Query`: `"dummy_query"` answers empty, `"read"` routes, anything else is rejected. */
  function QueryOutcome(state: map<string, Bytes>, oracle: Oracle, name: string, args: seq<string>): (o: Outcome)
    ensures o.state == state
    ensures name == "dummy_query" ==> o.reply == Done([]) && o.calls == []
    ensures name == "read" ==> o == ReadOutcome(state, oracle, args)
    ensures name != "dummy_query" && name != "read" ==> o.reply == Failed(Raised(UnknownQuery)) && o.calls == []
  {
    if name == "dummy_query" then Outcome(Done([]), state, [])
    else if name == "read" then ReadOutcome(state, oracle, args)
    else Outcome(Failed(Raised(UnknownQuery)), state, [])
  }
}
