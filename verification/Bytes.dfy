/** Fixed-width integers and their wire forms (encoding/binary as the program uses it). */
module Bytes {
  type Byte = b: int | 0 <= b < 0x100
  type U16 = v: int | 0 <= v < 0x1_0000
  type U32 = v: int | 0 <= v < 0x1_0000_0000
  type U64 = v: int | 0 <= v < 0x1_0000_0000_0000_0000
  type I32 = v: int | -0x8000_0000 <= v < 0x8000_0000

  const TWO32 := 0x1_0000_0000
  const TWO64 := 0x1_0000_0000_0000_0000

  /** Go's int32(uint32) conversion. */
  function AsI32(u: U32): I32 {
    if u < 0x8000_0000 then u else u - TWO32
  }

  /** Go's uint32(int32) conversion. */
  function AsU32(i: I32): U32 {
    if i >= 0 then i else i + TWO32
  }

  /** int32 addition with wrap-around. */
  function AddI32(a: I32, b: I32): I32 {
    var s := a as int + b as int;
    if s >= 0x8000_0000 then s - TWO32 else if s < -0x8000_0000 then s + TWO32 else s
  }

  // Big endian (frames)

  function PutU32(v: U32): seq<Byte> {
    [v / 0x100_0000, v / 0x1_0000 % 0x100, v / 0x100 % 0x100, v % 0x100]
  }

  function GetU32(b: seq<Byte>): U32
    requires |b| >= 4
  {
    b[0] as int * 0x100_0000 + b[1] as int * 0x1_0000 + b[2] as int * 0x100 + b[3]
  }

  function PutU64(v: U64): seq<Byte> {
    PutU32(v / TWO32) + PutU32(v % TWO32)
  }

  function GetU64(b: seq<Byte>): U64
    requires |b| >= 8
  {
    GetU32(b[..4]) * TWO32 + GetU32(b[4..])
  }

  lemma Digits(v: U32)
    ensures v / 0x100_0000 * 0x100_0000 + v / 0x1_0000 % 0x100 * 0x1_0000 + v / 0x100 % 0x100 * 0x100 + v % 0x100 == v
  {
  }

  lemma U32RoundTrip(v: U32, rest: seq<Byte>)
    ensures GetU32(PutU32(v) + rest) == v
  {
    var b := PutU32(v) + rest;
    assert b[0] == v / 0x100_0000 && b[1] == v / 0x1_0000 % 0x100 && b[2] == v / 0x100 % 0x100 && b[3] == v % 0x100;
    Digits(v);
  }

  lemma U32Unique(b: seq<Byte>)
    requires |b| == 4
    ensures PutU32(GetU32(b)) == b
  {
    var v := GetU32(b);
    assert v / 0x100_0000 == b[0];
    assert v / 0x1_0000 == b[0] as int * 0x100 + b[1];
    assert v / 0x100 == b[0] as int * 0x1_0000 + b[1] as int * 0x100 + b[2];
  }

  lemma U64RoundTrip(v: U64, rest: seq<Byte>)
    ensures GetU64(PutU64(v) + rest) == v
  {
    var hi, lo := PutU32(v / TWO32), PutU32(v % TWO32);
    var b := PutU64(v) + rest;
    assert b[..4] == hi + [] && b[4..] == lo + rest;
    U32RoundTrip(v / TWO32, []);
    U32RoundTrip(v % TWO32, rest);
  }

  // Little endian (WAVEFORMATEX blobs and PCM samples)

  function PutLE16(v: U16): seq<Byte> {
    [v % 0x100, v / 0x100]
  }

  function GetLE16(b: seq<Byte>): U16
    requires |b| >= 2
  {
    b[0] as int + b[1] as int * 0x100
  }

  function PutLE32(v: U32): seq<Byte> {
    PutLE16(v % 0x1_0000) + PutLE16(v / 0x1_0000)
  }

  function GetLE32(b: seq<Byte>): U32
    requires |b| >= 4
  {
    GetLE16(b[..2]) as int + GetLE16(b[2..]) as int * 0x1_0000
  }
}
