/** Types and small facts shared by every other module. */
module Basics {
  datatype Option<+T> = None | Some(value: T)

  newtype byte = x: int | 0 <= x < 256

  type Bytes = seq<byte>

  /** Number of bytes of the UTF-8 encoding of a string of Unicode scalar values. */
  function Utf8Length(text: string): (n: nat)
    ensures |text| <= n <= 4 * |text|
  {
    if text == [] then 0 else
    var c := text[0] as int;
    (if c < 0x80 then 1 else if c < 0x800 then 2 else if c < 0x1_0000 then 3 else 4) + Utf8Length(text[1..])
  }

  /** The UTF-8 encoding of one scalar value (RFC 3629, section 3). */
  function Utf8Char(c: char): Bytes {
    var n := c as int;
    if n <= 0x7F then [n as byte]
    else if n <= 0x7FF then [(0xC0 + n / 0x40) as byte, (0x80 + n % 0x40) as byte]
    else if n <= 0xFFFF then [(0xE0 + n / 0x1000) as byte, (0x80 + n / 0x40 % 0x40) as byte, (0x80 + n % 0x40) as byte]
    else [(0xF0 + n / 0x4_0000) as byte, (0x80 + n / 0x1000 % 0x40) as byte, (0x80 + n / 0x40 % 0x40) as byte,
          (0x80 + n % 0x40) as byte]
  }

  function Utf8(text: string): Bytes { if text == [] then [] else Utf8Char(text[0]) + Utf8(text[1..]) }

  lemma {:induction false} Utf8LengthIsExact(text: string)
    ensures Utf8Length(text) == |Utf8(text)|
  {
    if text == [] {
    } else {
      Utf8LengthIsExact(text[1..]);
    }
  }

  /** The chunks of a byte stream, in order, as one byte string. */
  function Concat(chunks: seq<Bytes>): Bytes {
    if chunks == [] then [] else chunks[0] + Concat(chunks[1..])
  }

  lemma {:induction false} ConcatAppend(chunks: seq<Bytes>, last: Bytes)
    ensures Concat(chunks + [last]) == Concat(chunks) + last
  {
    if chunks == [] {
      assert Concat([last]) == last + Concat([]);
    } else {
      ConcatAppend(chunks[1..], last);
      assert (chunks + [last])[1..] == chunks[1..] + [last];
    }
  }

  /** What a step adds, and then what the rest of the run adds. */
  lemma Chained<T>(before: seq<T>, added: seq<T>, between: seq<T>, rest: seq<T>, end: seq<T>)
    requires between == before + added && end == between + rest
    ensures end == before + (added + rest)
  {}

  ghost predicate NoDuplicates<T>(s: seq<T>) { forall i, j :: 0 <= i < j < |s| ==> s[i] != s[j] }
}
