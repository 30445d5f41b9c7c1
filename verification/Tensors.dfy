/** Tensors as dtype, shape and opaque elements, with the dtype names of torch and NumPy. */
module Tensors {
  import opened Common

  datatype Dtype = BoolType | Int8 | UInt8 | Int16 | Float16 | BFloat16 | Int32 | Float32 | Int64 | Float64

  function ElementSize(d: Dtype): (n: nat) {
    match d
    case BoolType | Int8 | UInt8 => 1
    case Int16 | Float16 | BFloat16 => 2
    case Int32 | Float32 => 4
    case Int64 | Float64 => 8
  }

  /** NumPy has no bfloat16: it travels as float32. */
  function NumpyDtype(d: Dtype): Dtype {
    if d == BFloat16 then Float32 else d
  }

  function DtypeName(d: Dtype): string {
    match d
    case BoolType => "bool" case Int8 => "int8" case UInt8 => "uint8" case Int16 => "int16"
    case Float16 => "float16" case BFloat16 => "bfloat16" case Int32 => "int32"
    case Float32 => "float32" case Int64 => "int64" case Float64 => "float64"
  }

  function DtypeNamed(s: string): Option<Dtype> {
    if s == "bool" then Some(BoolType) else if s == "int8" then Some(Int8)
    else if s == "uint8" then Some(UInt8) else if s == "int16" then Some(Int16)
    else if s == "float16" then Some(Float16) else if s == "bfloat16" then Some(BFloat16)
    else if s == "int32" then Some(Int32) else if s == "float32" then Some(Float32)
    else if s == "int64" then Some(Int64) else if s == "float64" then Some(Float64)
    else None
  }

  function Product(shape: seq<nat>): nat {
    if shape == [] then 1 else shape[0] * Product(shape[1..])
  }

  /** Elements are opaque; only whether a lone element is zero is ever looked at. */
  datatype TensorRep = TensorRep(dtype: Dtype, shape: seq<nat>, data: seq<int>)
  type Tensor = t: TensorRep | |t.data| == Product(t.shape) witness TensorRep(Float32, [0], [])

  lemma DtypeNamesParse(d: Dtype)
    ensures DtypeNamed(DtypeName(d)) == Some(d)
  {
  }
}
