/**
 The part of the WebAssembly runtime's interface that the marshalling bridge
 consumes: value kinds and typed values (section 2.3 of the WebAssembly Core
 Specification 2.0), function signatures, exported items of an instance, and
 the virtual machine that runs a function, kept as an oracle.
 */
module Wasm {

  type Int32 = x: int | -0x8000_0000 <= x < 0x8000_0000
  type Int64 = x: int | -0x8000_0000_0000_0000 <= x < 0x8000_0000_0000_0000
  type Bits32 = x: nat | x < 0x1_0000_0000
  type Bits64 = x: nat | x < 0x1_0000_0000_0000_0000
  type Bits128 = x: nat | x < 0x1_0000_0000_0000_0000_0000_0000_0000_0000

  /** The value kinds the runtime knows; the bridge supports only some of them. */
  datatype ValType = I32 | I64 | F32 | F64 | V128 | FuncRef | ExternRef

  /** A typed runtime value. Floats are held as their IEEE 754 bit patterns. */
  datatype Val =
    | I32(i32: Int32)
    | I64(i64: Int64)
    | F32(f32: Bits32)
    | F64(f64: Bits64)
    | V128(v128: Bits128)
    | FuncRef
    | ExternRef

  function TypeOf(v: Val): (t: ValType)
  {
    match v
    case I32(_) => ValType.I32
    case I64(_) => ValType.I64
    case F32(_) => ValType.F32
    case F64(_) => ValType.F64
    case V128(_) => ValType.V128
    case FuncRef => ValType.FuncRef
    case ExternRef => ValType.ExternRef
  }

  /** The kinds of a sequence of values, position by position. */
  function TypesOf(vs: seq<Val>): (ts: seq<ValType>)
    ensures |ts| == |vs|
    ensures forall i :: 0 <= i < |vs| ==> ts[i] == TypeOf(vs[i])
  {
    seq(|vs|, i requires 0 <= i < |vs| => TypeOf(vs[i]))
  }

  /** A function signature: parameter kinds and result kinds, in order. */
  datatype FuncType = FuncType(params: seq<ValType>, results: seq<ValType>)

  /** A handle to a function living in a store, with the signature the store records for it. */
  datatype Func = Func(index: nat, ty: FuncType)

  /** An exported item of an instance. */
  datatype Extern =
    | ExternFunc(func: Func)
    | ExternGlobal
    | ExternTable
    | ExternMemory

  /** An instantiated module, seen through its export table. */
  datatype Instance = Instance(exports: map<string, Extern>)

  /** What running a function does: it traps with a description, or returns its results. */
  datatype Invocation = Trap(message: string) | Return(values: seq<Val>)

  /**
   The runtime's guarantee for a call whose parameters match the signature:
   a call that does not trap writes exactly one value per declared result
   kind, of that kind.
   */
  ghost predicate RespectsSignatures<S(!new)>(run: (Func, seq<Val>, S) -> (Invocation, S))
  {
    forall f, params, s ::
      run(f, params, s).0.Return? ==> TypesOf(run(f, params, s).0.values) == f.ty.results
  }

  /**
   The virtual machine: given a function, its parameters and the store's
   state, the outcome of the invocation and the store's next state.
   Nothing else about execution is modelled.
   */
  type Machine<!S(!new)> = run: (Func, seq<Val>, S) -> (Invocation, S) | RespectsSignatures(run)
    witness (f: Func, params: seq<Val>, s: S) => (Trap("unreachable"), s)
}
