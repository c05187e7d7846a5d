# wasmtime-node marshalling bridge, in Dafny

This project models the core of a Node.js binding for the wasmtime
WebAssembly runtime. That core is the bridge that lets a JavaScript caller
run an exported WebAssembly function. `Instance.getFunc` looks up an export
by name and records the function's signature. `WasmFunction.call` then works
in four steps:

1. It builds a result buffer with one zero slot per result kind.
2. It converts each JavaScript argument to a typed value of the matching
   parameter kind.
3. It invokes the function in the store. A trap becomes an error.
4. It turns the single result back into a JavaScript number.

The project has three modules:

- `Wasm` (wasm.dfy) holds what the bridge uses from the runtime. It has the
  value kinds of section 2.3 of the WebAssembly Core Specification 2.0
  (`ValType`), typed values (`Val`, with floats as bit patterns), signatures
  (`FuncType`), exports (`Extern`, `Instance`) and the virtual machine
  (`Machine`). The machine is an oracle: given a function, its parameters and
  the store's state, it traps with a message or returns values. It also gives
  the store its next state. The `Machine` type requires every non-trapping
  call to return exactly one value of each declared result kind, which is
  what wasmtime guarantees for `Func::call`.
- `Host` (host.dfy) holds what the bridge uses from the Node binding layer.
  A double is known only by its IEEE 754 binary64 bit pattern, so `ToBits`
  and `FromBits` are inverses. A caller's argument (`JsValue`) is a number,
  something that is not a number, or an array element whose read throws. The
  three fallible readers `GetInt32`, `GetInt64` and `GetDouble` work on these
  values. `JsNumber` holds the numbers the bridge creates for the caller.
- `Bridge` (bridge.dfy) models src/lib.rs. `WasmFunction.Call` is an
  imperative method with two loops, one building the result buffer and one
  building the parameter vector. It is proved equal to the pure function
  `CallSpec`, which gives the outcome and the store's next state. The lemmas
  state the source's behaviour in terms of `CallSpec`.

A call ends in `Ok(number)`, `Err(error)` or `Panic(reason)`. Panics stand
for the `unwrap` calls in the source that abort instead of returning an
error.

Three behaviours of `call` a caller might not expect, modelled as the code has them:

- A missing argument panics at the `unwrap` of the argument lookup. It is not
  reported as an argument type error.
- A function with no results panics at `results.pop().unwrap()` once the
  invocation succeeds. It does not return "nothing".
- A function whose result kind is the 32-bit float is rejected with
  "Unsupported return type" before any argument is read. The result buffer
  has no slot for that kind. The conversion back to a host number does have an
  arm for it (`ToHost`), but no call ever reaches that arm.

## Model

| member | source | states |
|---|---|---|
| `Bridge.WasmFunction.Call` | src/lib.rs:95-168 | The outcome of the call and the store's next state equal `CallSpec` for the store's state before the call. The buffer loop keeps the invariant that the slots built so far are the buffer of the result kinds seen so far. The parameter loop keeps the invariant that the values built so far are the conversion of the parameters seen so far. An early return reports exactly the failure `CallSpec` reports. |
| `Bridge.Store.Invoke` | src/lib.rs:144-147 | Invoking a function hands it the parameters and the store's current state. The store then holds the state the machine produced. |
| `Bridge.Zero` | src/lib.rs:100-103 | The zero slot for a result kind has that kind. |
| `Bridge.ResultBuffer` | src/lib.rs:96-112 | The buffer for the result kinds never panics. When it exists it has one slot per result kind. When it fails, the error is "Unsupported return type" naming one of the signature's result kinds that is not i32, i64 or f64. |
| `Bridge.Argument` | src/lib.rs:120 | `args.get(idx)?.unwrap()` panics exactly when the caller passed no argument at that position. When it succeeds it gives the caller's argument there, which is not an element whose read throws. |
| `Bridge.ConvertParam` | src/lib.rs:118-140 | A converted parameter has the kind it was converted to. The conversion panics exactly when the kind is supported and no argument was passed at that position, and the panic names that position. |
| `Bridge.ConvertParams` | src/lib.rs:114-142 | A converted parameter vector has one entry per parameter kind, and its kinds are the signature's parameter kinds. A panic names a missing position inside the signature. |
| `Bridge.ToHost` | src/lib.rs:156-167 | A result value becomes a host number exactly when its kind is i32, i64, f32 or f64. Any other kind is an error, never a panic. |
| `Bridge.Finish` | src/lib.rs:147-167 | The call can only succeed when the invocation returned exactly one value. It panics exactly when the invocation returned no value. |
| `Bridge.CallSpec` | src/lib.rs:95-168 | A failed result buffer, or else a failed parameter conversion, is the call's outcome, and the store is left as it was. A successful call had at least one argument for every parameter. |
| `Bridge.ResultBufferSlots` | src/lib.rs:96-112 | The result buffer exists exactly when every result kind is i32, i64 or f64, and building it never panics. When it exists, it has one slot per result kind, in signature order. Slot i is the zero value of result kind i, so the buffer's kinds are the signature's result kinds. |
| `Bridge.ResultBufferFirstUnsupported` | src/lib.rs:99-110 | The first result kind outside i32, i64 and f64 (f32 included) is the one the "Unsupported return type" error names. |
| `Bridge.ResultBufferFailureSticks` | src/lib.rs:99-112 | Once building the buffer for a prefix of the result kinds has failed, building it for all of them fails with the same error. |
| `Bridge.ConvertParamsPositions` | src/lib.rs:114-142 | Parameter conversion succeeds exactly when every position converts. The vector then has one entry per parameter kind, and entry i is the conversion of argument i at parameter kind i. |
| `Bridge.ConvertParamsFirstFailure` | src/lib.rs:117-140 | Parameters are converted left to right. The failure or panic at the first position that does not convert is the outcome. |
| `Bridge.ConvertParamsFailureSticks` | src/lib.rs:117-142 | Once converting a prefix of the parameters has failed, converting all of them fails the same way. |
| `Bridge.ConvertParamCases` | src/lib.rs:118-140 | At one position, a kind outside i32, i64 and f64 gives "Unsupported parameter type" whatever the argument is. A supported kind with no argument panics. A supported kind with an argument that is not a number, or whose read throws, gives the reader's error ("number expected" or the pending exception), not a panic. A conversion succeeds exactly when the kind is supported and the argument is present and numeric. A successful conversion has the parameter's kind. Converted back, it gives the number read at that kind: the int32, the int64, or the double itself, since f64 goes through `to_bits` and `from_bits`. |
| `Bridge.CallRejectsUnsupportedResult` | src/lib.rs:99-110 | If a result kind is not supported, the call returns "Unsupported return type" for the first such kind. The store's state is unchanged, so nothing was invoked. |
| `Bridge.CallRejectsFloatResult` | src/lib.rs:100-109 | A function whose signature returns one f32 can never be called: every call returns "Unsupported return type" for f32 and leaves the store unchanged. |
| `Bridge.CallStopsAtFirstBadParameter` | src/lib.rs:117-140 | If every result kind is supported, the first parameter that fails to convert decides the call: its unsupported kind, its read error or its panic. The store is unchanged. |
| `Bridge.CallRejectsNonNumberArgument` | src/lib.rs:119-122 | Calling an (i32, i32) -> i32 function with a non-number first argument and a number second fails with the reader's "number expected" error, through `?` and not a panic, and leaves the store unchanged. |
| `Bridge.CallPanicsOnMissingArgument` | src/lib.rs:119-131 | If all kinds are supported and the caller passes fewer arguments than there are parameters, all of them numbers, the call panics at the first missing position and invokes nothing. |
| `Bridge.CallReportsTrap` | src/lib.rs:144-147 | If the invocation traps, the call returns an error carrying the trap's message, and no result conversion happens. The store keeps the state the trap left. |
| `Bridge.CallRejectsMultipleResults` | src/lib.rs:149-153 | If the signature has more than one result and the invocation succeeds, the call returns the "multiple arguments" error and no value. |
| `Bridge.CallPanicsWithoutResult` | src/lib.rs:155 | If the signature has no result and the invocation succeeds, the call panics. |
| `Bridge.CallReturnsSingleResult` | src/lib.rs:155-167 | With exactly one supported result kind, a successful invocation returns one value of that kind, and the call returns the host number made from it: by `create_int32` from the int32 for i32, by `create_int64` from the int64 for i64, and by `create_double` from `from_bits` of the bits for f64. |
| `Bridge.CallPassesDoubleThrough` | src/lib.rs:129-160 | For an (f64) -> f64 function that returns its parameter, the call gives back exactly the double it was passed. |
| `Bridge.GetFunc` | src/lib.rs:186-195 | The lookup returns nothing exactly when the name is not an exported function. Otherwise it returns that function, with its signature captured at lookup. The lookup never fails. |
| `Bridge.GetFuncCapturesSignature` | src/lib.rs:88-92 | For a function found by lookup, `ty()` returns the signature the export had at lookup time, unchanged. |
| `Host.FromBits` | src/lib.rs:160 | `from_bits` gives the double whose bit pattern is the given bits, so `to_bits` undoes it. |

## Left out

- The lifecycle wrappers (`JSEngine::new`, `JSModule::from_file`, `JSStore::new`, `JSLinker::new`, `JSInstance::new`) are not modelled. They are thin calls into the runtime, and `from_file` also reads a file. The `Store` constructor only sets the machine and its initial state.
- `JSLinker::instantiate` is not modelled. Its body is empty, because the resolution call is commented out.
- Execution inside the virtual machine is not modelled. It is the `Machine` oracle, restricted only by the result-kind guarantee. The runtime's own checks that parameters match the callee's type are also not modelled: the lemmas about results assume the captured signature is the callee's own, which is what `GetFunc` produces.
- Floating-point numbers are bit patterns only. The widening of an f32 result to a double (`FromWidenedFloat`) stays symbolic.
- The host's number readers are kept as given values on each number (`Number`). Their rules for truncation, wrap-around and non-finite values are not modelled.
- Creating the result number (`Env::create_int32`, `create_int64`, `create_double`) is treated as infallible. Its napi failure path is not modelled.
- The host number made by `create_int64` is a double, so an int64 result beyond 2^53 in magnitude reaches the caller rounded. `FromInt64` records the exact int64; that rounding is not modelled.
- `idx as u32` in the argument lookup is taken as exact. A function would need at least 2^32 parameters to wrap it.
- Error texts are kept as structured `Error` values. The strings the source formats from them, such as the `Debug` form of a kind or a value, are not modelled.
- `JSInstance::get_func` takes a store argument: the runtime's export lookup and `fun.ty` read the instance's data and the function's type from the store. `GetFunc` has no such parameter; the export table and each function's signature are held by `Instance` and `Func` directly.
- `WasmFunction::ty` takes a store argument that it never uses. `Ty` has no such parameter.
- Concurrency is not modelled. Each call holds the store exclusively, so calls are sequential, and `CallSpec` makes a call a function of the store's state.
- __test__/index.spec.mjs is not part of this model. It calls a method that src/lib.rs does not define, and it only asserts `true`.
