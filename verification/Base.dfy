/** Small types every other module shares. */
module Base {

  newtype byte = b: int | 0 <= b < 256

  datatype Option<+T> = None | Some(value: T)

  datatype Result<+T, +E> = Ok(value: T) | Err(error: E)

  /** The machine word the source computes lengths in. */
  const USIZE_MAX: nat := 0xFFFF_FFFF_FFFF_FFFF

  const U64_MAX: nat := 0xFFFF_FFFF_FFFF_FFFF

  type ReceiverId = string

  const CR: byte := 13
  const LF: byte := 10

  function Max(a: nat, b: nat): nat
  {
    if a < b then b else a
  }

  /** One thing, or none. */
  function One(there: bool): int
  {
    if there then 1 else 0
  }

  /** Where `c` first occurs in `s` from `from` on, or the length of `s`. */
  function IndexOf<T(==)>(s: seq<T>, c: T, from: nat := 0): (i: nat)
    requires from <= |s|
    ensures from <= i <= |s| && (i < |s| ==> s[i] == c)
    ensures forall j :: from <= j < i ==> s[j] != c
    decreases |s| - from
  {
    if from == |s| || s[from] == c then from else IndexOf(s, c, from + 1)
  }

  /** The elements of a list of lists, in order. */
  function Concat<T>(parts: seq<seq<T>>): (whole: seq<T>)
  {
    if parts == [] then [] else parts[0] + Concat(parts[1..])
  }

  /** The bytes of an ASCII text. */
  function Ascii(text: string): (bytes: seq<byte>)
    requires forall i :: 0 <= i < |text| ==> text[i] < 128 as char
    ensures |bytes| == |text| && forall i :: 0 <= i < |text| ==> bytes[i] as int == text[i] as int
  {
    seq(|text|, i requires 0 <= i < |text| => text[i] as int as byte)
  }

  lemma PrefixGrows<T>(s: seq<T>, i: nat)
    requires i < |s|
    ensures s[..i + 1] == s[..i] + [s[i]]
  {
  }
}
