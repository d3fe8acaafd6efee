// Types and arithmetic shared by every module of the project.
module Base {
  type byte = x: int | 0 <= x < 256

  // Go strings and byte slices. A string is the sequence of its bytes.
  type Bytes = seq<byte>

  datatype Option<+T> = None | Some(value: T) {
    predicate IsFailure() {
      None?
    }

    function PropagateFailure<U>(): Option<U>
      requires None?
    {
      None
    }

    function Extract(): T
      requires Some?
    {
      value
    }
  }

  datatype Result<+T, +E> = Ok(value: T) | Err(error: E) {
    predicate IsFailure() {
      Err?
    }

    function PropagateFailure<U>(): Result<U, E>
      requires Err?
    {
      Err(error)
    }

    function Extract(): T
      requires Ok?
    {
      value
    }
  }

  const TWO_32 := 0x1_0000_0000
  const TWO_63 := 0x8000_0000_0000_0000
  const TWO_64 := 0x1_0000_0000_0000_0000
  // The largest Go int, and so the longest Go slice.
  const MAX_INT := TWO_63 - 1

  type uint64 = x: int | 0 <= x < TWO_64
  type int32 = x: int | -0x8000_0000 <= x < 0x8000_0000
  type int64 = x: int | 0 - TWO_63 <= x < TWO_63

  // Conversion to a Go int of 64 bits: the two's complement reading of the low 64 bits.
  function ToInt(v: int): (r: int)
    ensures 0 - TWO_63 <= r < TWO_63 && (r - v) % TWO_64 == 0
  {
    var low := v % TWO_64;
    if low < TWO_63 then low else low - TWO_64
  }

  // Conversion to a Go int32: the two's complement reading of the low 32 bits.
  function ToInt32(v: int): (r: int32)
    ensures (r - v) % TWO_32 == 0
  {
    var low := v % TWO_32;
    if low < 0x8000_0000 then low else low - TWO_32
  }

  // Conversion of a Go int32 to uint64, which extends the sign.
  function SignExtend(v: int32): uint64
  {
    v % TWO_64
  }

  function Pow2(n: nat): (p: nat)
    ensures p > 0
  {
    if n == 0 then 1 else 2 * Pow2(n - 1)
  }

  // The bytes of a constant ASCII string.
  function Ascii(s: string): (b: Bytes)
    requires forall i :: 0 <= i < |s| ==> s[i] < 128 as char
    ensures |b| == |s|
  {
    seq(|s|, i requires 0 <= i < |s| => s[i] as int)
  }

  lemma TakeSplit(s: Bytes, k: nat, i: nat)
    requires k <= |s| && i <= |s| - k
    ensures s[..k + i] == s[..k] + s[k..][..i]
  {
  }
}
