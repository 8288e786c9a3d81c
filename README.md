# SimpleChaincode, modelled in Dafny

A model of the `SimpleChaincode` request handler of the learn-chaincode
tutorial: a string-keyed dispatcher over a key/value ledger. `Invoke` routes
`"init"` and `"write"`, `Query` routes `"dummy_query"` and `"read"`. `Init` stores
its one argument under `hello_world`, `financial_instrument` and `ISIN`, one put
after another, and stops at the first failed put without undoing the earlier
ones. `write` stores one key/value pair. `read` fetches one key and turns a
failed get into a JSON-shaped error message.

Layout:

- `wrappers.dfy` (`Wrappers`): the `Option` used for Go's nil-or-value returns.
- `encoding.dfy` (`Encoding`): bytes and the string-to-bytes conversion `[]byte(s)`, with its inverse.
- `shim.dfy` (`Shim`): the ledger stub as a class `Stub`. Its field `state: map<string, Bytes>` is the
  world state. A failure oracle (`Oracle`) decides which `PutState`/`GetState` calls return an error.
  A ghost log `calls` records every call made on the stub.
- `chaincode_spec.dfy` (`ChaincodeSpec`): one function per entry point. Each gives the reply, the
  state left behind and the stub calls made, from the state before, the oracle and the request.
- `chaincode.dfy` (`Chaincode`): the handler's entry points as methods on a `Stub`. They make the
  same `PutState`/`GetState` calls as the Go code, in the same order, with the same early returns.
  Each method is proved to agree with its specification function.
- `chaincode_properties.dfy` (`ChaincodeProperties`): what the handler promises, proved of those
  functions.

Replies are `Done(payload)` or `Failed(error)`. A nil byte slice is the empty payload. An error is
either `Raised(message)`, made by `errors.New` with the source's exact text, or `Store(fault)`, the
stub's own error passed on unchanged.

## Model

| member | source | states |
|---|---|---|
| `Chaincode.Invoke` | start/chaincode_start.go:36-52 | The reply, new state and stub calls are exactly those of `InvokeOutcome` on the state before the call |
| `Chaincode.Query` | start/chaincode_start.go:56-69 | The ledger state is unchanged; the reply and stub calls are exactly those of `QueryOutcome` |
| `Chaincode.Init` | start/chaincode_start.go:78-99 | Three successive puts with early returns produce exactly the reply, state and calls of `InitOutcome`; the `function` argument plays no part |
| `Chaincode.Write` | start/chaincode_start.go:101-119 | The reply, new state and the one put call are exactly those of `WriteOutcome` |
| `Chaincode.Read` | start/chaincode_start.go:123-137 | The ledger state is unchanged; the reply and the get call are exactly those of `ReadOutcome` |
| `ChaincodeSpec.InvokeOutcome` | start/chaincode_start.go:43-51 | `"init"` is `Init` with the same args; `"write"` is `write`; any other name replies "Received unknown function invocation", keeps the state and makes no stub call |
| `ChaincodeSpec.QueryOutcome` | start/chaincode_start.go:60-68 | The state never changes; `"dummy_query"` replies an empty payload with no error and no stub call, whatever the args and state; `"read"` is `read`; any other name replies "Received unknown function query" with no stub call |
| `ChaincodeSpec.InitOutcome` | start/chaincode_start.go:79-81 | With other than one argument it replies "Incorrect number of arguments. Expecting 1", keeps the state and makes no stub call; a successful reply has an empty payload |
| `ChaincodeSpec.WriteOutcome` | start/chaincode_start.go:105-118 | With other than two arguments it replies the arity error with no stub call and the same state; otherwise it makes exactly one put of `args[1]` under `args[0]`. A failed put leaves the state and returns the stub's error unchanged. On success exactly `args[0]` maps to the bytes of `args[1]` and every other key is as it was |
| `ChaincodeSpec.ReadOutcome` | start/chaincode_start.go:126-136 | The state never changes. With other than one argument it replies the arity error and makes no get. Otherwise it makes one get: a failure replies `{"Error":"Failed to get state for <key>"}`, and otherwise the reply carries no error and exactly the bytes the get returned, whether or not the key is held |
| `ChaincodeSpec.FirstFailing` | start/chaincode_start.go:82-97 | The index of the put at which `Init` stops: every earlier key's put succeeds and, if it is in range, this key's put fails |
| `ChaincodeProperties.InitAllPutsSucceed` | start/chaincode_start.go:82-98 | When no put fails, `hello_world`, `financial_instrument` and `ISIN` all hold the argument's bytes and every other key is unchanged. The reply is an empty payload with no error, and the calls are the three puts in order |
| `ChaincodeProperties.InitStopsAtFailedPut` | start/chaincode_start.go:82-97 | When the k-th put is the first to fail, the keys before it hold the argument and are not rolled back. That key and the later ones are untouched, as is every other key. The stub's error is returned unchanged, and the calls are the first k+1 puts |
| `ChaincodeProperties.WriteIdempotent` | start/chaincode_start.go:114 | Repeating a successful write, on any stub, leaves the same state as writing once |
| `ChaincodeProperties.WriteRepeatOnOneStub` | start/chaincode_start.go:114-117 | On one stub, whose failures are fixed per key, repeating any write gives the same state and the same reply as the first |
| `ChaincodeProperties.WriteThenRead` | start/chaincode_start.go:109-136 | After a successful `write(k, v)`, a successful `read(k)` replies the bytes of `v`, and those bytes decode back to `v` |
| `ChaincodeSpec.GetFailedMessage` | start/chaincode_start.go:133 | The failed-read message is the fixed prefix `{"Error":"Failed to get state for `, then the key verbatim, then the closing `"}` |
| `ChaincodeProperties.GetFailedMessageInjective` | start/chaincode_start.go:133-134 | Failed reads of different keys give different messages |
| `ChaincodeProperties.InvokeChangesOnlyNamedKeys` | start/chaincode_start.go:43-119 | `Invoke` removes no key. A key whose entry changes is one of the three `Init` keys, now holding `args[0]`, for `"init"` with one argument; or it is `args[0]`, now holding `args[1]`, for `"write"` with two |
| `Encoding.ToBytes` | start/chaincode_start.go:82-114 | `[]byte(s)` as used at lines 82, 87, 94 and 114: three bytes per character (a fixed-width stand-in for UTF-8, see Left out) |
| `Encoding.FromToBytes` | start/chaincode_start.go:82 | Decoding the bytes stored for a string gives the string back |
| `Encoding.ToBytesInjective` | start/chaincode_start.go:114 | Different strings are stored as different bytes |
| `Shim.Lookup` | start/chaincode_start.go:131 | What a successful `GetState` returns: the stored bytes for a held key, the host's `absent` bytes otherwise |
| `Shim.Stub.PutState` | start/chaincode_start.go:114-117 | Logs the call. A failing key returns the oracle's error and leaves the state unchanged; otherwise it returns no error and exactly that key takes the value |
| `Shim.Stub.GetState` | start/chaincode_start.go:131-135 | Logs the call and never changes the state. A failing key returns the oracle's error; otherwise it returns the stored value |

## Left out

- `main` and `shim.Start` (start/chaincode_start.go:28-33): process start-up and connection to the peer.
- The `fmt.Println` diagnostics: logging, not part of any reply.
- The ledger's own behaviour. Whether a `PutState` or `GetState` call fails is given by an explicit
  oracle, fixed for the stub's lifetime, that maps each failing key to its error. The model also
  assumes a failed put leaves the state as it was. `GetState` for a key the state does not hold
  returns the oracle's `absent` bytes, so nothing is claimed about missing keys.
- `Encoding.ToBytes`: Go's `[]byte(s)` yields the string's own (UTF-8) bytes. The model encodes each
  character as the three bytes of its code point instead. The handler only passes these bytes to
  `PutState`. What the model uses is that the conversion is a function and is injective, and both
  are proved.
- The distinction between a nil and an empty byte slice: both are the empty payload.
- Consensus, transaction ordering and concurrent invocations: they belong to the host runtime.
- The error taxonomy names (argument count, unknown function, store error) are not separate types.
  The code makes all of its own errors with `errors.New`, so the model keeps the message text, as
  `Raised`, and keeps the stub's errors as `Store`.
