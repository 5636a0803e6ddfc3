/** Byte ranges over the SCSI engine: sector arithmetic and unaligned read-modify-write. */
module RangeSpec {
  import opened Bytes
  import opened Codec
  import opened Bot
  import opened ScsiSpec

  type u64 = x: int | 0 <= x < 0x1_0000_0000_0000_0000

  const MAX_RANGE_BYTES: nat := 4 * 1024 * 1024

  datatype Access = ReadOnly | ReadWrite

  datatype Span = Span(lba: u32, count: u16, skip: nat)

  /** The geometries `Connect` admits. */
  predicate Supported(g: Geometry) {
    0 < g.blocks < 0x1_0000_0000 && 0 < g.blockSize <= 65536 && PowerOfTwo(g.blockSize)
  }

  function SizeBytes(g: Geometry): nat {
    g.blocks * g.blockSize
  }

  function CeilDiv(a: nat, b: nat): nat
    requires b > 0
  {
    (a + b - 1) / b
  }

  // ----- Sector arithmetic -----

  /** The range reaches into sector `k`. */
  predicate Meets(blockSize: nat, offset: nat, length: nat, k: nat) {
    k * blockSize < offset + length && offset < (k + 1) * blockSize
  }

  /** How many sectors a nonempty range reaches into. */
  function Cover(blockSize: nat, offset: nat, length: nat): nat
    requires blockSize > 0 && length > 0
  {
    CeilDiv(offset + length, blockSize) - offset / blockSize
  }

  lemma FloorBounds(a: nat, b: nat)
    requires b > 0
    ensures a / b * b <= a < (a / b + 1) * b && a == a / b * b + a % b
  {
  }

  lemma CeilBounds(a: nat, b: nat)
    requires a > 0 && b > 0
    ensures CeilDiv(a, b) > 0 && (CeilDiv(a, b) - 1) * b < a <= CeilDiv(a, b) * b
  {
    var q := CeilDiv(a, b);
    FloorBounds(a + b - 1, b);
    assert (q + 1) * b == q * b + b && (q - 1) * b == q * b - b;
  }

  lemma Scale(a: nat, b: nat, c: nat)
    ensures a <= b ==> a * c <= b * c
    ensures a < b && c > 0 ==> a * c < b * c
  {
    if a <= b {
      assert b * c == a * c + (b - a) * c;
    }
  }

  /** The sectors from floor to ceiling are exactly the ones the range reaches into. */
  lemma CoverIsLeast(bs: nat, offset: nat, length: nat, k: nat)
    requires bs > 0 && length > 0
    ensures Meets(bs, offset, length, k) <==> offset / bs <= k < CeilDiv(offset + length, bs)
    ensures offset / bs < CeilDiv(offset + length, bs)
  {
    var first, last := offset / bs, CeilDiv(offset + length, bs);
    FloorBounds(offset, bs);
    CeilBounds(offset + length, bs);
    Scale(last, first, bs);
    Scale(first + 1, k + 1, bs);
    Scale(k + 1, first, bs);
    Scale(k, last - 1, bs);
    Scale(last, k, bs);
  }

  lemma CoverBytes(bs: nat, offset: nat, length: nat)
    requires bs > 0 && length > 0
    ensures offset / bs * bs + offset % bs == offset
    ensures offset % bs + length <= Cover(bs, offset, length) * bs < offset % bs + length + bs
  {
    var first, last := offset / bs, CeilDiv(offset + length, bs);
    CoverIsLeast(bs, offset, length, first);
    FloorBounds(offset, bs);
    CeilBounds(offset + length, bs);
    assert (last - first) * bs == last * bs - first * bs;
    assert (last - 1) * bs == last * bs - bs;
  }

  lemma CoverWithinDisk(g: Geometry, offset: nat, length: nat)
    requires Supported(g) && length > 0 && offset + length <= SizeBytes(g)
    ensures CeilDiv(offset + length, g.blockSize) <= g.blocks
  {
    var last := CeilDiv(offset + length, g.blockSize);
    CeilBounds(offset + length, g.blockSize);
    Scale(g.blocks, last - 1, g.blockSize);
  }

  /** With sectors of 128 bytes or more no admissible range needs more than 65535 of them. */
  lemma WideSectorsSuffice(bs: nat, offset: nat, length: nat)
    requires 128 <= bs && 0 < length <= 0x40_0000
    ensures Cover(bs, offset, length) < 0x1_0000
  {
    CoverBytes(bs, offset, length);
    var n := Cover(bs, offset, length);
    if n >= 2 {
      assert n * bs == (n - 2) * bs + 2 * bs;
      Scale(65534, n - 2, bs);
    }
  }

  // ----- The operations -----

  /** `as u32`: what does not fit is truncated. */
  function ToU32(n: nat): (r: u32)
    ensures n < 0x1_0000_0000 ==> r == n
  {
    n % 0x1_0000_0000
  }

  function SpanOf(g: Geometry, offset: u64, length: nat): Result<Span>
    requires Supported(g)
  {
    if length == 0 || length > MAX_RANGE_BYTES then Err(Protocol(RangeLength))
    else if offset + length >= 0x1_0000_0000_0000_0000 || offset + length > SizeBytes(g) then Err(Protocol(RangeBounds))
    else
      var first, last := offset / g.blockSize, CeilDiv(offset + length, g.blockSize);
      CoverIsLeast(g.blockSize, offset, length, 0);
      if last - first >= 0x1_0000 then Err(Protocol(RangeCount))
      else Ok(Span(ToU32(first), last - first, offset % g.blockSize))
  }

  lemma SpanFits(g: Geometry, offset: u64, length: nat)
    requires Supported(g) && SpanOf(g, offset, length).Ok?
    ensures var p := SpanOf(g, offset, length).value; p.skip + length <= p.count * g.blockSize
  {
    CoverBytes(g.blockSize, offset, length);
  }

  /** Only supported geometries are ever admitted, whatever the transport says. */
  function Connect(s: Sess, w: Wire): (o: Run<Geometry>)
    ensures o.r.Ok? ==> Supported(o.r.value)
  {
    var t := InitializeReady(s, w);
    if t.r.Err? then Keep(t, t.r.error)
    else
      var q := ReadGeometry(t.s, t.w);
      if q.r.Err? then Keep(q, q.r.error)
      else if q.r.value.blocks == 0 || q.r.value.blocks > 0xffff_ffff || q.r.value.blockSize > 65536 then
        Keep(q, Protocol(BadGeometry))
      else q
  }

  /** `bytes[skip..skip + length]` of what the sectors hold. */
  function ReadRange(g: Geometry, s: Sess, w: Wire, offset: u64, length: nat): Run<seq<byte>>
    requires Supported(g)
  {
    var p := SpanOf(g, offset, length);
    if p.Err? then Run(s, w, Err(p.error))
    else
      var o := ReadBlocks(s, w, p.value.lba, p.value.count, g.blockSize);
      if o.r.Err? then o
      else
        SpanFits(g, offset, length);
        BlockLength(s, w, p.value.lba, p.value.count, g.blockSize);
        Run(o.s, o.w, Ok(o.r.value[p.value.skip..p.value.skip + length]))
  }

  /** Reads the sectors, puts the bytes in their place, and writes all of them back. */
  function ReadModifyWrite(s: Sess, w: Wire, p: Span, blockSize: u32, bytes: seq<byte>): Run<()>
    requires p.skip + |bytes| <= p.count * blockSize
  {
    var o := ReadBlocks(s, w, p.lba, p.count, blockSize);
    if o.r.Err? then Keep(o, o.r.error)
    else
      BlockLength(s, w, p.lba, p.count, blockSize);
      WriteBlocks(o.s, o.w, p.lba, p.count, blockSize, Patch(o.r.value, p.skip, bytes))
  }

  function WriteRange(g: Geometry, access: Access, s: Sess, w: Wire, offset: u64, bytes: seq<byte>): Run<()>
    requires Supported(g)
  {
    if access != ReadWrite then Run(s, w, Err(Protocol(Fault.ReadOnly)))
    else
      var p := SpanOf(g, offset, |bytes|);
      if p.Err? then Run(s, w, Err(p.error))
      else if p.value.skip == 0 && p.value.count * g.blockSize == |bytes| then
        WriteBlocks(s, w, p.value.lba, p.value.count, g.blockSize, bytes)
      else
        SpanFits(g, offset, |bytes|);
        ReadModifyWrite(s, w, p.value, g.blockSize, bytes)
  }

  /** When a range is accepted, exactly: it is well formed, lies on the medium, and needs at most
      65535 sectors; and sectors of 128 bytes or more never need more. */
  lemma SpanAccepts(g: Geometry, offset: u64, length: nat)
    requires Supported(g)
    ensures SpanOf(g, offset, length).Ok? <==>
              0 < length <= 0x40_0000 && offset + length <= SizeBytes(g)
              && Cover(g.blockSize, offset, length) <= 65535
    ensures g.blockSize >= 128 ==>
              (SpanOf(g, offset, length).Ok? <==> 0 < length <= 0x40_0000 && offset + length <= SizeBytes(g))
  {
    Scale(g.blocks, 0xffff_ffff, g.blockSize);
    if 0 < length <= MAX_RANGE_BYTES && g.blockSize >= 128 {
      WideSectorsSuffice(g.blockSize, offset, length);
    }
  }

  lemma CastsFit(g: Geometry, offset: u64, length: nat)
    requires Supported(g) && length > 0 && offset + length <= SizeBytes(g)
    ensures offset / g.blockSize < CeilDiv(offset + length, g.blockSize) <= g.blocks
    ensures offset / g.blockSize < 0x1_0000_0000
  {
    CoverIsLeast(g.blockSize, offset, length, 0);
    CoverWithinDisk(g, offset, length);
  }

  /** The casts of an accepted span lose nothing. */
  lemma SpanCasts(g: Geometry, offset: u64, length: nat)
    requires Supported(g) && SpanOf(g, offset, length).Ok?
    ensures var p := SpanOf(g, offset, length).value;
            && p.lba == offset / g.blockSize && p.skip == offset % g.blockSize
            && p.count == Cover(g.blockSize, offset, length) && p.lba + p.count <= g.blocks
  {
    CastsFit(g, offset, length);
  }

  /** What is accepted is the least cover of the range: exactly the sectors it reaches into. */
  lemma SpanIsLeastCover(g: Geometry, offset: u64, length: nat)
    requires Supported(g) && SpanOf(g, offset, length).Ok?
    ensures var p := SpanOf(g, offset, length).value;
            forall k: nat :: Meets(g.blockSize, offset, length, k) <==> p.lba <= k < p.lba + p.count
  {
    SpanCasts(g, offset, length);
    forall k: nat
      ensures Meets(g.blockSize, offset, length, k) <==>
                offset / g.blockSize <= k < CeilDiv(offset + length, g.blockSize)
    {
      CoverIsLeast(g.blockSize, offset, length, k);
    }
  }

  /** An accepted span lies inside the medium and within 32 bits, holds the range at its offset,
      and the command builder never refuses it. */
  lemma SpanUsable(g: Geometry, offset: u64, length: nat, op: byte)
    requires Supported(g) && SpanOf(g, offset, length).Ok?
    ensures var p := SpanOf(g, offset, length).value;
            && p.count > 0 && p.lba + p.count <= g.blocks && p.skip < g.blockSize
            && p.lba * g.blockSize + p.skip == offset && p.skip + length <= p.count * g.blockSize < 0x1_0000_0000
            && BlockCommand(op, p.lba, p.count, g.blockSize)
               == Ok((EncodeBlock(BlockCdb(op, p.lba, p.count)), p.count * g.blockSize))
  {
    SpanCasts(g, offset, length);
    CoverIsLeast(g.blockSize, offset, length, 0);
    CoverBytes(g.blockSize, offset, length);
    Scale(Cover(g.blockSize, offset, length), 65535, g.blockSize);
  }

  /** The 16-bit count does refuse ranges: 4 MiB over 64-byte sectors. */
  lemma NarrowSectorsCanBeRefused()
    ensures var g := Geometry(0x1_0000, 64);
            Supported(g) && SizeBytes(g) == 0x40_0000
            && SpanOf(g, 0, 0x40_0000) == Err(Protocol(RangeCount))
  {
    assert PowerOfTwo(64) by {
      assert PowerOfTwo(8) by { assert PowerOfTwo(2) && PowerOfTwo(4); }
      assert PowerOfTwo(16) && PowerOfTwo(32);
    }
  }
}

/** The session object over a SCSI session. */
module RangeObjects {
  import opened Bytes
  import opened Bot
  import opened ScsiSpec
  import opened ScsiObjects
  import opened RangeSpec

  lemma PatchNext(disk: seq<byte>, at: nat, bytes: seq<byte>, i: nat)
    requires at + |bytes| <= |disk| && i < |bytes|
    ensures Patch(disk, at, bytes[..i + 1]) == Patch(disk, at, bytes[..i])[at + i := bytes[i]]
  {
  }

  /** `copy_from_slice` into part of a buffer. */
  method CopyInto(buffer: array<byte>, at: nat, bytes: seq<byte>)
    requires at + |bytes| <= buffer.Length
    modifies buffer
    ensures buffer[..] == Patch(old(buffer[..]), at, bytes)
  {
    for i := 0 to |bytes|
      invariant buffer[..] == Patch(old(buffer[..]), at, bytes[..i])
    {
      PatchNext(old(buffer[..]), at, bytes, i);
      buffer[at + i] := bytes[i];
    }
    assert bytes[..|bytes|] == bytes;
  }

  class RangeSession {
    const scsi: Scsi
    const geometry: Geometry
    const access: Access

    constructor (scsi: Scsi, geometry: Geometry, access: Access)
      ensures this.scsi == scsi && this.geometry == geometry && this.access == access
    {
      this.scsi, this.geometry, this.access := scsi, geometry, access;
    }

    /** `connect`: a session object exists only for a ready device of a supported geometry. */
    static method Connect(scsi: Scsi, access: Access) returns (r: Result<RangeSession>)
      modifies scsi, scsi.io
      ensures var o := RangeSpec.Connect(old(scsi.S()), old(scsi.io.V()));
              && scsi.S() == o.s && scsi.io.V() == o.w && (r.Err? <==> o.r.Err?) && (r.Err? ==> r.error == o.r.error)
              && (r.Ok? ==>
                    fresh(r.value) && r.value.scsi == scsi && r.value.geometry == o.r.value
                    && r.value.access == access)
    {
      var ready := scsi.InitializeReady();
      if ready.Err? {
        return Err(ready.error);
      }
      var geometry := scsi.ReadGeometry();
      if geometry.Err? {
        return Err(geometry.error);
      }
      if geometry.value.blocks == 0 || geometry.value.blocks > 0xffff_ffff || geometry.value.blockSize > 65536 {
        return Err(Protocol(BadGeometry));
      }
      var session := new RangeSession(scsi, geometry.value, access);
      return Ok(session);
    }

    method ReadRange(offset: u64, length: nat) returns (r: Result<seq<byte>>)
      requires Supported(geometry)
      modifies scsi, scsi.io
      ensures Run(scsi.S(), scsi.io.V(), r)
              == RangeSpec.ReadRange(geometry, old(scsi.S()), old(scsi.io.V()), offset, length)
    {
      var p := SpanOf(geometry, offset, length);
      if p.Err? {
        return Err(p.error);
      }
      var o := scsi.ReadBlocks(p.value.lba, p.value.count, geometry.blockSize);
      if o.Err? {
        return o;
      }
      SpanFits(geometry, offset, length);
      BlockLength(old(scsi.S()), old(scsi.io.V()), p.value.lba, p.value.count, geometry.blockSize);
      return Ok(o.value[p.value.skip..p.value.skip + length]);
    }

    method WriteRange(offset: u64, bytes: seq<byte>) returns (r: Result<()>)
      requires Supported(geometry)
      modifies scsi, scsi.io
      ensures Run(scsi.S(), scsi.io.V(), r)
              == RangeSpec.WriteRange(geometry, access, old(scsi.S()), old(scsi.io.V()), offset, bytes)
    {
      if access != ReadWrite {
        return Err(Protocol(Fault.ReadOnly));
      }
      var p := SpanOf(geometry, offset, |bytes|);
      if p.Err? {
        return Err(p.error);
      }
      var lba, count, skip := p.value.lba, p.value.count, p.value.skip;
      var transferLength := count * geometry.blockSize;
      if skip == 0 && transferLength == |bytes| {
        r := scsi.WriteBlocks(lba, count, geometry.blockSize, bytes);
      } else {
        var o := scsi.ReadBlocks(lba, count, geometry.blockSize);
        if o.Err? {
          return Err(o.error);
        }
        SpanFits(geometry, offset, |bytes|);
        BlockLength(old(scsi.S()), old(scsi.io.V()), lba, count, geometry.blockSize);
        var sectors := new byte[|o.value|](i requires 0 <= i < |o.value| => o.value[i]);
        assert sectors[..] == o.value;
        CopyInto(sectors, skip, bytes);
        r := scsi.WriteBlocks(lba, count, geometry.blockSize, sectors[..]);
      }
    }

    method Sync() returns (r: Result<()>)
      modifies scsi, scsi.io
      ensures Run(scsi.S(), scsi.io.V(), r) == ScsiSpec.Flush(old(scsi.S()), old(scsi.io.V()))
    {
      r := scsi.Flush();
    }

    method Eject() returns (r: Result<()>)
      modifies scsi, scsi.io
      ensures Run(scsi.S(), scsi.io.V(), r) == ScsiSpec.Eject(old(scsi.S()), old(scsi.io.V()))
    {
      r := scsi.Eject();
    }
  }
}
