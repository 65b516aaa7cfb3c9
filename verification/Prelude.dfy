// Definitions shared by every module.
module Prelude {

  datatype Option<+T> = None | Some(value: T)

  function Has(b: bool): nat { if b then 1 else 0 }

  // C's conversion of a 64-bit integer to `int`: keep the low 32 bits, two's complement.
  function ToInt32(x: int): (r: int)
    ensures -0x8000_0000 <= r < 0x8000_0000
    ensures -0x8000_0000 <= x < 0x8000_0000 ==> r == x
  {
    var low := x % 0x1_0000_0000;
    if low < 0x8000_0000 then low else low - 0x1_0000_0000
  }

  lemma Assoc<T>(a: seq<T>, b: seq<T>, c: seq<T>)
    ensures (a + b) + c == a + (b + c)
  {
  }
}
