/**
 The typed value marshalling bridge of src/lib.rs: an exported function is
 looked up together with its signature, and a call converts the caller's
 dynamically-typed arguments to typed runtime values, runs the function in a
 store, and converts its single result back.
 */
module Bridge {
  import opened Wasm
  import opened Host

  datatype Option<T> = None | Some(value: T)

  /** The errors the bridge reports to its caller. */
  datatype Error =
    | UnsupportedReturnType(kind: ValType)       // a result kind with no buffer slot
    | UnsupportedParameterType(kind: ValType)    // a parameter kind with no conversion
    | UnsupportedReturnValue(value: Val)         // a result value with no host number
    | Napi(status: Status)                       // reading an argument failed
    | Trapped(message: string)                   // the invocation trapped
    | MultipleResults                            // "Function returned multiple arguments, please use call1"

  /** Where the bridge aborts instead of returning an error. */
  datatype PanicReason =
    | MissingArgument(index: nat)   // unwrap of an argument the caller did not pass
    | NoResult                      // unwrap of the last result of a function with none

  /** How a step of the bridge, or the whole call, ends. */
  datatype Outcome<T> = Ok(value: T) | Err(error: Error) | Panic(reason: PanicReason)

  /** A failed outcome, passed on at another value type. */
  function Propagate<T, U>(o: Outcome<T>): (r: Outcome<U>)
    requires !o.Ok?
    ensures !r.Ok?
  {
    match o
    case Err(e) => Err(e)
    case Panic(p) => Panic(p)
  }

  /** The kinds the bridge marshals: the 32- and 64-bit integers and the 64-bit float. */
  predicate Marshalled(k: ValType)
  {
    k == ValType.I32 || k == ValType.I64 || k == ValType.F64
  }

  /** The zero value a result slot of kind `k` starts with. */
  function Zero(k: ValType): (z: Val)
    requires Marshalled(k)
    ensures TypeOf(z) == k
  {
    match k
    case F64 => Val.F64(0)
    case I64 => Val.I64(0)
    case I32 => Val.I32(0)
  }

  /**
   The result buffer for result kinds `kinds`, built left to right: the first
   kind that is not marshalled ends the construction with an error.
   */
  function ResultBuffer(kinds: seq<ValType>): (r: Outcome<seq<Val>>)
    ensures r.Ok? ==> |r.value| == |kinds|
    ensures r.Err? ==> r.error.UnsupportedReturnType? && r.error.kind in kinds && !Marshalled(r.error.kind)
    ensures !r.Panic?
    decreases |kinds|
  {
    if kinds == [] then Ok([])
    else
      var k := kinds[|kinds| - 1];
      var prefix := ResultBuffer(kinds[..|kinds| - 1]);
      if !prefix.Ok? then prefix
      else if Marshalled(k) then Ok(prefix.value + [Zero(k)])
      else Err(UnsupportedReturnType(k))
  }

  /** `args.get(idx)?.unwrap()`: a missing argument panics, an element that throws is an error. */
  function Argument(args: seq<JsValue>, idx: nat): (r: Outcome<JsValue>)
    ensures r.Panic? <==> idx >= |args|
    ensures r.Ok? ==> r.value == args[idx] && !r.value.Throwing?
  {
    if idx < |args| then
      match Fetch(args[idx])
      case Value(v) => Ok(v)
      case Failed(status) => Err(Napi(status))
    else
      Panic(MissingArgument(idx))
  }

  /** The parameter of kind `k` at position `idx`, converted from the caller's argument there. */
  function ConvertParam(k: ValType, idx: nat, args: seq<JsValue>): (r: Outcome<Val>)
    ensures r.Ok? ==> TypeOf(r.value) == k
    ensures r.Panic? <==> Marshalled(k) && idx >= |args|
    ensures r.Panic? ==> r.reason == MissingArgument(idx)
  {
    match k
    case I32 =>
      (match Argument(args, idx)
       case Ok(v) => (match GetInt32(v) case Value(n) => Ok(Val.I32(n)) case Failed(st) => Err(Napi(st)))
       case failure => Propagate(failure))
    case I64 =>
      (match Argument(args, idx)
       case Ok(v) => (match GetInt64(v) case Value(n) => Ok(Val.I64(n)) case Failed(st) => Err(Napi(st)))
       case failure => Propagate(failure))
    case F64 =>
      (match Argument(args, idx)
       case Ok(v) => (match GetDouble(v) case Value(d) => Ok(Val.F64(ToBits(d))) case Failed(st) => Err(Napi(st)))
       case failure => Propagate(failure))
    case _ => Err(UnsupportedParameterType(k))
  }

  /**
   The parameter vector for parameter kinds `kinds`, converted left to right:
   the first position whose conversion fails or panics decides the outcome.
   */
  function ConvertParams(kinds: seq<ValType>, args: seq<JsValue>): (r: Outcome<seq<Val>>)
    ensures r.Ok? ==> |r.value| == |kinds| && TypesOf(r.value) == kinds
    ensures r.Panic? ==> r.reason.MissingArgument? && r.reason.index < |kinds|
    decreases |kinds|
  {
    if kinds == [] then Ok([])
    else
      var n := |kinds| - 1;
      match ConvertParams(kinds[..n], args)
      case Ok(params) =>
        (var p := ConvertParam(kinds[n], n, args);
         if p.Ok? then Ok(params + [p.value]) else Propagate(p))
      case failure => failure
  }

  /** The host number for a result value. */
  function ToHost(v: Val): (r: Outcome<JsNumber>)
    ensures r.Ok? <==> TypeOf(v) in {ValType.I32, ValType.I64, ValType.F32, ValType.F64}
    ensures !r.Panic?
  {
    match v
    case I32(n) => Ok(FromInt32(n))
    case I64(n) => Ok(FromInt64(n))
    case F32(b) => Ok(FromWidenedFloat(b))
    case F64(b) => Ok(FromDouble(FromBits(b)))
    case _ => Err(UnsupportedReturnValue(v))
  }

  /** What the bridge makes of an invocation: its trap, or its single result. */
  function Finish(inv: Invocation): (r: Outcome<JsNumber>)
    ensures r.Ok? ==> inv.Return? && |inv.values| == 1
    ensures r.Panic? <==> inv.Return? && inv.values == []
  {
    match inv
    case Trap(message) => Err(Trapped(message))
    case Return(results) =>
      if |results| > 1 then Err(MultipleResults)
      else if |results| == 0 then Panic(NoResult)
      else ToHost(results[0])
  }

  /**
   The whole call, as a function of the store's state `s`: the outcome and the
   store's next state. The store only changes when the function is invoked.
   */
  function CallSpec<S(!new)>(w: WasmFunction, args: seq<JsValue>, run: Machine<S>, s: S): (r: (Outcome<JsNumber>, S))
    ensures !ResultBuffer(w.ty.results).Ok? ==> r == (Propagate(ResultBuffer(w.ty.results)), s)
    ensures ResultBuffer(w.ty.results).Ok? && !ConvertParams(w.ty.params, args).Ok? ==>
      r == (Propagate(ConvertParams(w.ty.params, args)), s)
    ensures r.0.Ok? ==> |w.ty.params| <= |args|
  {
    var buffer := ResultBuffer(w.ty.results);
    if !buffer.Ok? then (Propagate(buffer), s)
    else
      var params := ConvertParams(w.ty.params, args);
      if !params.Ok? then (Propagate(params), s)
      else
        var (inv, s') := run(w.inner, params.value, s);
        (Finish(inv), s')
  }

  /** The execution context: the state the virtual machine reads and advances. */
  class Store<S(!new)> {
    const machine: Machine<S>
    var state: S

    constructor (machine: Machine<S>, init: S)
      ensures this.machine == machine && state == init
    {
      this.machine := machine;
      state := init;
    }

    /** Runs `f` on `params` against this store. */
    method Invoke(f: Func, params: seq<Val>) returns (inv: Invocation)
      modifies this
      ensures (inv, state) == machine(f, params, old(state))
    {
      var r := machine(f, params, state);
      inv := r.0;
      state := r.1;
    }
  }

  /** The signature object handed to the caller. */
  datatype WasmFunctionTy = WasmFunctionTy(inner: FuncType)

  /** An exported function together with the signature captured when it was looked up. */
  datatype WasmFunction = WasmFunction(inner: Func, ty: FuncType) {

    /** The captured signature; the store is not consulted. */
    function Ty(): (t: WasmFunctionTy)
    {
      WasmFunctionTy(ty)
    }

    /** Calls the function with the caller's arguments `args` in `store`. */
    method Call<S(!new)>(store: Store<S>, args: seq<JsValue>) returns (o: Outcome<JsNumber>)
      modifies store
      ensures (o, store.state) == CallSpec(this, args, store.machine, old(store.state))
    {
      var resultTypes := ty.results;
      var results: seq<Val> := [];
      var i := 0;
      while i < |resultTypes|
        invariant 0 <= i <= |resultTypes|
        invariant ResultBuffer(resultTypes[..i]) == Ok(results)
      {
        var returnTy := resultTypes[i];
        assert resultTypes[..i + 1][..i] == resultTypes[..i];
        if !Marshalled(returnTy) {
          ResultBufferFailureSticks(resultTypes, i + 1);
          return Err(UnsupportedReturnType(returnTy));
        }
        results := results + [Zero(returnTy)];
        i := i + 1;
      }
      assert resultTypes[..i] == resultTypes;

      var paramsTypes := ty.params;
      var params: seq<Val> := [];
      var idx := 0;
      while idx < |paramsTypes|
        invariant 0 <= idx <= |paramsTypes|
        invariant ConvertParams(paramsTypes[..idx], args) == Ok(params)
      {
        var paramVal := ConvertParam(paramsTypes[idx], idx, args);
        assert paramsTypes[..idx + 1][..idx] == paramsTypes[..idx];
        if !paramVal.Ok? {
          ConvertParamsFailureSticks(paramsTypes, args, idx + 1);
          return Propagate(paramVal);
        }
        params := params + [paramVal.value];
        idx := idx + 1;
      }
      assert paramsTypes[..idx] == paramsTypes;

      var inv := store.Invoke(inner, params);
      match inv
      case Trap(message) =>
        return Err(Trapped(message));
      case Return(values) =>
        results := values;
        if |results| > 1 {
          return Err(MultipleResults);
        }
        if results == [] {
          return Panic(NoResult);
        }
        var resultVal := results[|results| - 1];
        results := results[..|results| - 1];
        o := ToHost(resultVal);
    }
  }

  /** `get_func`: the exported function named `name`, with its signature captured now. */
  function GetFunc(instance: Instance, name: string): (r: Option<WasmFunction>)
    ensures r.None? <==> !(name in instance.exports && instance.exports[name].ExternFunc?)
    ensures r.Some? ==> r.value.inner == instance.exports[name].func && r.value.ty == r.value.inner.ty
  {
    if name in instance.exports && instance.exports[name].ExternFunc? then
      var fun := instance.exports[name].func;
      Some(WasmFunction(fun, fun.ty))
    else
      None
  }

  // ---------------------------------------------------------------------------
  // The result buffer

  /** Once a prefix of the result kinds fails, the whole buffer fails the same way. */
  lemma {:induction false} ResultBufferFailureSticks(kinds: seq<ValType>, n: nat)
    requires n <= |kinds|
    requires !ResultBuffer(kinds[..n]).Ok?
    ensures ResultBuffer(kinds) == ResultBuffer(kinds[..n])
  {
    if n == |kinds| {
      assert kinds[..n] == kinds;
    } else {
      var m := |kinds| - 1;
      assert kinds[..m][..n] == kinds[..n];
      ResultBufferFailureSticks(kinds[..m], n);
    }
  }

  /**
   The buffer exists exactly when every result kind is marshalled, and then it
   holds one zero slot of each result kind, in signature order.
   */
  lemma {:induction false} ResultBufferSlots(kinds: seq<ValType>)
    ensures ResultBuffer(kinds).Ok? <==> forall i :: 0 <= i < |kinds| ==> Marshalled(kinds[i])
    ensures !ResultBuffer(kinds).Panic?
    ensures ResultBuffer(kinds).Ok? ==>
      && |ResultBuffer(kinds).value| == |kinds|
      && (forall i :: 0 <= i < |kinds| ==> ResultBuffer(kinds).value[i] == Zero(kinds[i]))
      && TypesOf(ResultBuffer(kinds).value) == kinds
  {
    if kinds != [] {
      var m := |kinds| - 1;
      ResultBufferSlots(kinds[..m]);
      assert forall i :: 0 <= i < m ==> kinds[..m][i] == kinds[i];
      if ResultBuffer(kinds).Ok? {
        assert TypesOf(ResultBuffer(kinds).value) == kinds;
      }
    }
  }

  /** The first result kind that is not marshalled (F32 among them) is the one reported. */
  lemma ResultBufferFirstUnsupported(kinds: seq<ValType>, j: nat)
    requires j < |kinds| && !Marshalled(kinds[j])
    requires forall i :: 0 <= i < j ==> Marshalled(kinds[i])
    ensures ResultBuffer(kinds) == Err(UnsupportedReturnType(kinds[j]))
  {
    ResultBufferSlots(kinds[..j]);
    assert kinds[..j + 1][..j] == kinds[..j];
    ResultBufferFailureSticks(kinds, j + 1);
  }

  // ---------------------------------------------------------------------------
  // The parameter vector

  /** Once a prefix of the parameters fails, the whole conversion fails the same way. */
  lemma {:induction false} ConvertParamsFailureSticks(kinds: seq<ValType>, args: seq<JsValue>, n: nat)
    requires n <= |kinds|
    requires !ConvertParams(kinds[..n], args).Ok?
    ensures ConvertParams(kinds, args) == ConvertParams(kinds[..n], args)
  {
    if n == |kinds| {
      assert kinds[..n] == kinds;
    } else {
      var m := |kinds| - 1;
      assert kinds[..m][..n] == kinds[..n];
      ConvertParamsFailureSticks(kinds[..m], args, n);
    }
  }

  /**
   The conversion succeeds exactly when every position converts, and then the
   vector holds, position by position, the converted argument of that kind.
   */
  lemma {:induction false} ConvertParamsPositions(kinds: seq<ValType>, args: seq<JsValue>)
    ensures ConvertParams(kinds, args).Ok? <==> forall i :: 0 <= i < |kinds| ==> ConvertParam(kinds[i], i, args).Ok?
    ensures ConvertParams(kinds, args).Ok? ==>
      && |ConvertParams(kinds, args).value| == |kinds|
      && forall i :: 0 <= i < |kinds| ==> ConvertParams(kinds, args).value[i] == ConvertParam(kinds[i], i, args).value
  {
    if kinds != [] {
      var m := |kinds| - 1;
      ConvertParamsPositions(kinds[..m], args);
      assert forall i :: 0 <= i < m ==> kinds[..m][i] == kinds[i];
    }
  }

  /** Conversion stops at the first position that fails and reports that position's failure. */
  lemma ConvertParamsFirstFailure(kinds: seq<ValType>, args: seq<JsValue>, j: nat)
    requires j < |kinds| && !ConvertParam(kinds[j], j, args).Ok?
    requires forall i :: 0 <= i < j ==> ConvertParam(kinds[i], i, args).Ok?
    ensures ConvertParams(kinds, args) == Propagate(ConvertParam(kinds[j], j, args))
  {
    ConvertParamsPositions(kinds[..j], args);
    assert forall i :: 0 <= i < j ==> kinds[..j][i] == kinds[i];
    assert kinds[..j + 1][..j] == kinds[..j];
    ConvertParamsFailureSticks(kinds, args, j + 1);
  }

  /**
   One position: an unmarshalled kind is reported without looking at the
   argument; a marshalled kind with no argument panics; a successful
   conversion has the parameter's kind, came from a number, and converts back
   to the number read at that kind.
   */
  lemma ConvertParamCases(k: ValType, idx: nat, args: seq<JsValue>)
    ensures !Marshalled(k) ==> ConvertParam(k, idx, args) == Err(UnsupportedParameterType(k))
    ensures Marshalled(k) && idx >= |args| ==> ConvertParam(k, idx, args) == Panic(MissingArgument(idx))
    ensures Marshalled(k) && idx < |args| && !args[idx].Number? ==>
      ConvertParam(k, idx, args) ==
        Err(Napi(if args[idx].Throwing? then PendingException(args[idx].reason) else NumberExpected))
    ensures ConvertParam(k, idx, args).Ok? <==> Marshalled(k) && idx < |args| && args[idx].Number?
    ensures ConvertParam(k, idx, args).Ok? ==>
      var v := ConvertParam(k, idx, args).value;
      && TypeOf(v) == k
      && ToHost(v) == Ok(match k
                         case I32 => FromInt32(args[idx].asInt32)
                         case I64 => FromInt64(args[idx].asInt64)
                         case _ => FromDouble(args[idx].asDouble))
  {
  }

  // ---------------------------------------------------------------------------
  // The whole call

  /** A result kind that is not marshalled fails the call before any argument is read or the store is touched. */
  lemma CallRejectsUnsupportedResult<S(!new)>(w: WasmFunction, args: seq<JsValue>, run: Machine<S>, s: S, j: nat)
    requires j < |w.ty.results| && !Marshalled(w.ty.results[j])
    requires forall i :: 0 <= i < j ==> Marshalled(w.ty.results[i])
    ensures CallSpec(w, args, run, s) == (Err(UnsupportedReturnType(w.ty.results[j])), s)
  {
    ResultBufferFirstUnsupported(w.ty.results, j);
  }

  /** A function returning a 32-bit float can never be called through the bridge. */
  lemma CallRejectsFloatResult<S(!new)>(w: WasmFunction, args: seq<JsValue>, run: Machine<S>, s: S)
    requires w.ty.results == [ValType.F32]
    ensures CallSpec(w, args, run, s) == (Err(UnsupportedReturnType(ValType.F32)), s)
  {
    ResultBufferFirstUnsupported(w.ty.results, 0);
  }

  /** The first parameter that cannot be converted decides the outcome, and the store is not touched. */
  lemma CallStopsAtFirstBadParameter<S(!new)>(w: WasmFunction, args: seq<JsValue>, run: Machine<S>, s: S, j: nat)
    requires forall i :: 0 <= i < |w.ty.results| ==> Marshalled(w.ty.results[i])
    requires j < |w.ty.params| && !ConvertParam(w.ty.params[j], j, args).Ok?
    requires forall i :: 0 <= i < j ==> ConvertParam(w.ty.params[i], i, args).Ok?
    ensures CallSpec(w, args, run, s) == (Propagate(ConvertParam(w.ty.params[j], j, args)), s)
  {
    ResultBufferSlots(w.ty.results);
    ConvertParamsFirstFailure(w.ty.params, args, j);
  }

  /**
   The call `add(x, 3)` with `add` of signature (i32, i32) -> i32 and `x` not a
   number: the call fails with the reader's error at position 0 and invokes nothing.
   */
  lemma CallRejectsNonNumberArgument<S(!new)>(w: WasmFunction, run: Machine<S>, s: S, three: JsValue)
    requires w.ty == FuncType([ValType.I32, ValType.I32], [ValType.I32])
    requires three.Number?
    ensures CallSpec(w, [NotNumber, three], run, s) == (Err(Napi(NumberExpected)), s)
  {
    ConvertParamCases(ValType.I32, 0, [NotNumber, three]);
    CallStopsAtFirstBadParameter(w, [NotNumber, three], run, s, 0);
  }

  /** Too few arguments, all of them numbers: the call panics at the first missing one. */
  lemma CallPanicsOnMissingArgument<S(!new)>(w: WasmFunction, args: seq<JsValue>, run: Machine<S>, s: S)
    requires forall i :: 0 <= i < |w.ty.results| ==> Marshalled(w.ty.results[i])
    requires forall i :: 0 <= i < |w.ty.params| ==> Marshalled(w.ty.params[i])
    requires |args| < |w.ty.params|
    requires forall i :: 0 <= i < |args| ==> args[i].Number?
    ensures CallSpec(w, args, run, s) == (Panic(MissingArgument(|args|)), s)
  {
    forall i | 0 <= i < |args|
      ensures ConvertParam(w.ty.params[i], i, args).Ok?
    {
      ConvertParamCases(w.ty.params[i], i, args);
    }
    ConvertParamCases(w.ty.params[|args|], |args|, args);
    CallStopsAtFirstBadParameter(w, args, run, s, |args|);
  }

  /** A trap becomes an error carrying the trap's message; the store keeps what the trap left. */
  lemma CallReportsTrap<S(!new)>(w: WasmFunction, args: seq<JsValue>, run: Machine<S>, s: S, params: seq<Val>)
    requires forall i :: 0 <= i < |w.ty.results| ==> Marshalled(w.ty.results[i])
    requires ConvertParams(w.ty.params, args) == Ok(params)
    requires run(w.inner, params, s).0.Trap?
    ensures CallSpec(w, args, run, s) == (Err(Trapped(run(w.inner, params, s).0.message)), run(w.inner, params, s).1)
  {
    ResultBufferSlots(w.ty.results);
  }

  /** More than one result: after a successful invocation the call reports an error and returns no value. */
  lemma CallRejectsMultipleResults<S(!new)>(w: WasmFunction, args: seq<JsValue>, run: Machine<S>, s: S, params: seq<Val>)
    requires w.ty == w.inner.ty
    requires |w.ty.results| > 1 && forall i :: 0 <= i < |w.ty.results| ==> Marshalled(w.ty.results[i])
    requires ConvertParams(w.ty.params, args) == Ok(params)
    requires run(w.inner, params, s).0.Return?
    ensures CallSpec(w, args, run, s) == (Err(MultipleResults), run(w.inner, params, s).1)
  {
    ResultBufferSlots(w.ty.results);
    assert |TypesOf(run(w.inner, params, s).0.values)| == |w.ty.results|;
  }

  /** No result: after a successful invocation the call panics. */
  lemma CallPanicsWithoutResult<S(!new)>(w: WasmFunction, args: seq<JsValue>, run: Machine<S>, s: S, params: seq<Val>)
    requires w.ty == w.inner.ty && w.ty.results == []
    requires ConvertParams(w.ty.params, args) == Ok(params)
    requires run(w.inner, params, s).0.Return?
    ensures CallSpec(w, args, run, s) == (Panic(NoResult), run(w.inner, params, s).1)
  {
  }

  /**
   Exactly one result of a marshalled kind: the call returns a host number of
   the matching kind, made from the value the function returned.
   */
  lemma CallReturnsSingleResult<S(!new)>(w: WasmFunction, args: seq<JsValue>, run: Machine<S>, s: S, params: seq<Val>)
    requires w.ty == w.inner.ty && |w.ty.results| == 1 && Marshalled(w.ty.results[0])
    requires ConvertParams(w.ty.params, args) == Ok(params)
    requires run(w.inner, params, s).0.Return?
    ensures var values := run(w.inner, params, s).0.values;
      && |values| == 1 && TypeOf(values[0]) == w.ty.results[0]
      && CallSpec(w, args, run, s) == (ToHost(values[0]), run(w.inner, params, s).1)
      && CallSpec(w, args, run, s).0.Ok?
      && (w.ty.results[0] == ValType.I32 ==> CallSpec(w, args, run, s).0 == Ok(FromInt32(values[0].i32)))
      && (w.ty.results[0] == ValType.I64 ==> CallSpec(w, args, run, s).0 == Ok(FromInt64(values[0].i64)))
      && (w.ty.results[0] == ValType.F64 ==> CallSpec(w, args, run, s).0 == Ok(FromDouble(FromBits(values[0].f64))))
  {
    ResultBufferSlots(w.ty.results);
    var values := run(w.inner, params, s).0.values;
    assert |TypesOf(values)| == 1 && TypesOf(values)[0] == TypeOf(values[0]);
  }

  /**
   A function of signature (f64) -> f64 that returns its parameter gives the
   caller back the very double it was passed: the bit-pattern conversion on
   the way in and the one on the way out are inverse.
   */
  lemma CallPassesDoubleThrough<S(!new)>(w: WasmFunction, args: seq<JsValue>, run: Machine<S>, s: S, d: Double)
    requires w.ty == w.inner.ty == FuncType([ValType.F64], [ValType.F64])
    requires |args| >= 1 && args[0].Number? && args[0].asDouble == d
    requires run(w.inner, [Val.F64(ToBits(d))], s).0 == Return([Val.F64(ToBits(d))])
    ensures CallSpec(w, args, run, s) == (Ok(FromDouble(d)), run(w.inner, [Val.F64(ToBits(d))], s).1)
  {
    ConvertParamsPositions(w.ty.params, args);
    var params := ConvertParams(w.ty.params, args).value;
    assert ConvertParam(ValType.F64, 0, args) == Ok(Val.F64(ToBits(d)));
    assert |params| == 1 && params[0] == Val.F64(ToBits(d));
    assert params == [Val.F64(ToBits(d))];
    FromBitsToBits(d);
  }

  // ---------------------------------------------------------------------------
  // Lookup and signature

  /** A looked-up function reports, on every call to `ty`, the signature the export had at lookup. */
  lemma GetFuncCapturesSignature(instance: Instance, name: string)
    requires name in instance.exports && instance.exports[name].ExternFunc?
    ensures GetFunc(instance, name).Some?
    ensures GetFunc(instance, name).value.Ty() == WasmFunctionTy(instance.exports[name].func.ty)
  {
  }
}
