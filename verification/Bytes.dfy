/** Fixed-width integers, their wire encodings, and in-place updates of a flat byte array. */
module Bytes {
  type byte = x: int | 0 <= x < 256
  type u16 = x: int | 0 <= x < 0x1_0000
  type u32 = x: int | 0 <= x < 0x1_0000_0000

  /** A logical unit number as `Scsi::new` admits it. */
  type lun = x: int | 0 <= x <= 15

  datatype Option<+T> = None | Some(value: T)

  function Min(a: int, b: int): int { if a < b then a else b }

  function Max(a: int, b: int): int { if a < b then b else a }

  function Le32(n: u32): (b: seq<byte>)
    ensures |b| == 4
  {
    [n % 256, n / 256 % 256, n / 65536 % 256, n / 16777216]
  }

  function FromLe32(b: seq<byte>): u32
    requires |b| == 4
  {
    var v: int := b[0] as int + 256 * (b[1] as int) + 65536 * (b[2] as int) + 16777216 * (b[3] as int);
    v
  }

  function Be32(n: u32): (b: seq<byte>)
    ensures |b| == 4
  {
    [n / 16777216, n / 65536 % 256, n / 256 % 256, n % 256]
  }

  function FromBe32(b: seq<byte>): u32
    requires |b| == 4
  {
    FromLe32([b[3], b[2], b[1], b[0]])
  }

  function Be16(n: u16): (b: seq<byte>)
    ensures |b| == 2
  {
    [n / 256, n % 256]
  }

  function FromBe16(b: seq<byte>): u16
    requires |b| == 2
  {
    var v: int := 256 * (b[0] as int) + b[1] as int;
    v
  }

  lemma Le32RoundTrip(n: u32)
    ensures FromLe32(Le32(n)) == n
    ensures FromBe32(Be32(n)) == n
  {
    var q := n / 256;
    var r := q / 256;
    assert n / 65536 == r && n / 16777216 == r / 256;
  }

  lemma Be16RoundTrip(n: u16)
    ensures FromBe16(Be16(n)) == n
  {
  }

  function Zeros(n: nat): (z: seq<byte>)
    ensures |z| == n && forall i :: 0 <= i < n ==> z[i] == 0
  {
    seq(n, _ => 0)
  }

  // ----- The flat byte array -----

  /** `disk` with `bytes` stored from position `at` on. */
  function Patch(disk: seq<byte>, at: nat, bytes: seq<byte>): (r: seq<byte>)
    requires at + |bytes| <= |disk|
    ensures |r| == |disk|
  {
    disk[..at] + bytes + disk[at + |bytes|..]
  }

  /** Every byte of `now` is the one of `before`, or lies in the range and is the one of `bytes`. */
  predicate Confined(before: seq<byte>, now: seq<byte>, at: int, bytes: seq<byte>) {
    && |now| == |before|
    && forall p :: 0 <= p < |before| ==>
         now[p] == before[p] || (at <= p < at + |bytes| && now[p] == bytes[p - at])
  }

  /** A confined change that did store the whole range is the patch. */
  lemma ConfinedWhole(before: seq<byte>, now: seq<byte>, at: nat, bytes: seq<byte>)
    requires Confined(before, now, at, bytes)
    requires at + |bytes| <= |before|
    requires now[at..at + |bytes|] == bytes
    ensures now == Patch(before, at, bytes)
  {
    forall p | 0 <= p < |now|
      ensures now[p] == Patch(before, at, bytes)[p]
    {
      if at <= p < at + |bytes| {
        assert now[p] == now[at..at + |bytes|][p - at];
      }
    }
  }
}
