/** Fixed-width integers, byte strings and the two result types every other
    module shares. Integers are unbounded in Dafny, so each wrap-around of the
    program is written out where it happens. */
module Prelude {

  type byte = x: int | 0 <= x < 0x100
  type bytes = seq<byte>

  type uint32 = x: int | 0 <= x < 0x1_0000_0000
  type uint64 = x: int | 0 <= x < 0x1_0000_0000_0000_0000
  type int64 = x: int | -0x8000_0000_0000_0000 <= x < 0x8000_0000_0000_0000

  const U32 := 0x1_0000_0000
  const U64 := 0x1_0000_0000_0000_0000
  const MAX_UINT32: uint32 := 0xFFFF_FFFF
  const MAX_INT64: int64 := 0x7FFF_FFFF_FFFF_FFFF

  datatype Option<+T> = None | Some(value: T)

  datatype Result<+T, +E> = Ok(value: T) | Err(error: E)

  /** uint32 successor, with the wrap the program's arithmetic has. */
  function Succ32(n: uint32): uint32 {
    (n + 1) % U32
  }

  function Min(a: int, b: int): (m: int)
    ensures m <= a && m <= b && (m == a || m == b)
  {
    if a <= b then a else b
  }

  function Max(a: int, b: int): (m: int)
    ensures m >= a && m >= b && (m == a || m == b)
  {
    if a >= b then a else b
  }

  /** Concatenation of consecutive pieces, in order. */
  function Concat(parts: seq<bytes>): (r: bytes) {
    if |parts| == 0 then [] else Concat(parts[..|parts| - 1]) + parts[|parts| - 1]
  }

  lemma ConcatSnoc(parts: seq<bytes>, part: bytes)
    ensures Concat(parts + [part]) == Concat(parts) + part
  {
    assert (parts + [part])[..|parts|] == parts;
  }

  lemma SliceOfSlice(data: bytes, from: nat, to: nat, a: nat, b: nat)
    requires from <= to <= |data| && a <= b <= to - from
    ensures data[from..to][a..b] == data[from + a..from + b]
  {
    assert forall i :: 0 <= i < b - a ==> data[from..to][a..b][i] == data[from + a + i];
  }

  lemma SlicesJoin(data: bytes, a: nat, b: nat, c: nat)
    requires a <= b <= c <= |data|
    ensures data[a..b] + data[b..c] == data[a..c]
  {
  }

  /** When no piece is empty there are no more pieces than bytes. */
  lemma {:induction false} PiecesBelowBytes(pieces: seq<bytes>)
    requires forall i :: 0 <= i < |pieces| ==> 0 < |pieces[i]|
    ensures |pieces| <= |Concat(pieces)|
  {
    if |pieces| > 0 {
      PiecesBelowBytes(pieces[..|pieces| - 1]);
    }
  }
}
