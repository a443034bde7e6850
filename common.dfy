/** Vocabulary shared by the whole meter-simulator model: the nullable
    references of the C# code as `Option`, bytes, 32-bit `int` arithmetic
    and the tagged readings a meter keeps in its value store. */
module Common {

  /** A C# reference that may be null: `None` is null. */
  datatype Option<+T> = None | Some(value: T)

  type Byte = b: int | 0 <= b < 256

  const MinInt32: int := -0x8000_0000
  const MaxInt32: int := 0x7FFF_FFFF

  /** The C# `int` type. */
  type Int32 = x: int | -0x8000_0000 <= x <= 0x7FFF_FFFF

  /** C#'s unchecked `a + b` on two `int`s: the mathematical sum, wrapped
      into 32 bits when it leaves the range. */
  function AddInt32(a: Int32, b: Int32): (r: Int32)
    ensures MinInt32 <= a + b <= MaxInt32 ==> r == a + b
    ensures r == a + b || r == a + b - 0x1_0000_0000 || r == a + b + 0x1_0000_0000
  {
    var s := a + b;
    if s > MaxInt32 then s - 0x1_0000_0000
    else if s < MinInt32 then s + 0x1_0000_0000
    else s
  }

  /** A value the simulator can hand to the protocol engine in place of the
      source's untyped `object`: a number, a timestamp (in days) or raw bytes. */
  datatype Reading =
    | Number(n: int)
    | Timestamp(day: int)
    | Raw(bytes: seq<Byte>)
}
