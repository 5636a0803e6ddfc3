/** Byte ranges on a conforming device are reads and updates of one flat byte array. */
module FlatDisk {
  import opened Bytes
  import opened Codec
  import opened Device
  import opened Bot
  import opened Lockstep
  import Soundness
  import opened ScsiSpec
  import opened RangeSpec

  /** The medium is a whole number of sectors. */
  predicate Sectored(d: Device) {
    0 < d.blockSize < 0x1_0000_0000 && d.blockSize <= |d.disk| && |d.disk| % d.blockSize == 0
  }

  predicate Fits(g: Geometry, d: Device) {
    Supported(g) && d.blockSize == g.blockSize && |d.disk| == SizeBytes(g)
  }

  /** A chain of moves the device makes by itself. */
  predicate Drifts(d: Device, moves: seq<Device>)
    decreases |moves|
  {
    moves == [] || (WellFormed(d.cmd) && Acts(d, moves[0]) && Drifts(moves[0], moves[1..]))
  }

  function Rest(d: Device, moves: seq<Device>): Device {
    if moves == [] then d else moves[|moves| - 1]
  }

  lemma {:induction false} SettlingForever(d: Device, moves: seq<Device>, before: seq<byte>, base: nat,
                                           content: seq<byte>)
    requires Settling(d, before, base, content) && Drifts(d, moves)
    ensures Settling(Rest(d, moves), before, base, content)
    decreases |moves|
  {
    if moves != [] {
      SettlingMove(d, moves[0], before, base, content);
      SettlingForever(moves[0], moves[1..], before, base, content);
      assert Rest(moves[0], moves[1..]) == Rest(d, moves);
    }
  }

  /** No command of the session and no later move of the device changes the medium. */
  predicate Untouched(d: Device, before: seq<byte>) {
    Settling(d, before, 0, [])
  }

  // ----- Commands -----

  lemma NothingConfined(before: seq<byte>, d: Device)
    ensures Untouched(d, before) ==> d.disk == before
  {
  }

  /** A command without data to store. */
  lemma PureCommand(s: Sess, w: Wire, cdb: seq<byte>, incoming: nat)
    requires Between(s, w.dev) && Command(s, w, cdb, incoming, []).w.lawful && s.usable
    ensures var o := Command(s, w, cdb, incoming, []);
            Between(o.s, o.w.dev) && o.w.dev.blockSize == w.dev.blockSize && Untouched(o.w.dev, w.dev.disk)
            && o.w.dev.disk == w.dev.disk && (o.r.Ok? || o.r == Err(CommandFailed) ==> o.s.usable)
  {
    CommandOnDevice(s, w, cdb, incoming, []);
    NothingConfined(w.dev.disk, Command(s, w, cdb, incoming, []).w.dev);
  }

  lemma ReadBlocksOnDevice(s: Sess, w: Wire, lba: u32, count: u16, bs: u32)
    requires Between(s, w.dev) && s.usable && bs == w.dev.blockSize
    requires BlockCommand(READ10, lba, count, bs).Ok? && count * bs < 0x1_0000_0000
    requires ReadBlocks(s, w, lba, count, bs).w.lawful
    ensures var o := ReadBlocks(s, w, lba, count, bs);
            && Between(o.s, o.w.dev) && o.w.dev.blockSize == bs && Untouched(o.w.dev, w.dev.disk)
            && o.w.dev.disk == w.dev.disk
            && (o.r.Ok? ==> o.s.usable && lba * bs + count * bs <= |w.dev.disk|
                            && o.r.value == w.dev.disk[lba * bs..lba * bs + count * bs])
  {
    var cdb, length := EncodeBlock(BlockCdb(READ10, lba, count)), count * bs;
    PureCommand(s, w, cdb, length);
    CommandOnDevice(s, w, cdb, length, []);
    BlockRoundTrip(BlockCdb(READ10, lba, count));
    assert count * bs > 0 by { Scale(1, count, bs); }
  }

  lemma WriteBlocksOnDevice(s: Sess, w: Wire, lba: u32, count: u16, bs: u32, bytes: seq<byte>)
    requires Between(s, w.dev) && s.usable && bs == w.dev.blockSize
    requires BlockCommand(WRITE10, lba, count, bs).Ok? && count * bs == |bytes| < 0x1_0000_0000
    requires WriteBlocks(s, w, lba, count, bs, bytes).w.lawful
    ensures var o := WriteBlocks(s, w, lba, count, bs, bytes);
            && Between(o.s, o.w.dev) && o.w.dev.blockSize == bs && Settling(o.w.dev, w.dev.disk, lba * bs, bytes)
            && (o.r.Ok? ==>
                  o.s.usable && lba * bs + |bytes| <= |w.dev.disk|
                  && o.w.dev.disk == Patch(w.dev.disk, lba * bs, bytes))
  {
    var cdb := EncodeBlock(BlockCdb(WRITE10, lba, count));
    CommandOnDevice(s, w, cdb, 0, bytes);
    BlockRoundTrip(BlockCdb(WRITE10, lba, count));
    var o := WriteBlocks(s, w, lba, count, bs, bytes);
    if o.r.Ok? {
      ConfinedWhole(w.dev.disk, o.w.dev.disk, lba * bs, bytes);
    }
  }

  // ----- Byte ranges -----

  /** Storing sectors that differ from the medium only in a byte range can only change that range. */
  lemma ConfinedThroughSectors(before: seq<byte>, now: seq<byte>, base: nat, length: nat, skip: nat, bytes: seq<byte>)
    requires base + length <= |before| && skip + |bytes| <= length
    requires Confined(before, now, base, Patch(before[base..base + length], skip, bytes))
    ensures Confined(before, now, base + skip, bytes)
  {
    var content := Patch(before[base..base + length], skip, bytes);
    forall p | 0 <= p < |before|
      ensures now[p] == before[p] || (base + skip <= p < base + skip + |bytes| && now[p] == bytes[p - base - skip])
    {
      if base <= p < base + length && !(skip <= p - base < skip + |bytes|) {
        assert content[p - base] == before[base..base + length][p - base];
      }
    }
  }

  lemma PatchThroughSectors(before: seq<byte>, base: nat, length: nat, skip: nat, bytes: seq<byte>)
    requires base + length <= |before| && skip + |bytes| <= length
    ensures Patch(before, base, Patch(before[base..base + length], skip, bytes)) == Patch(before, base + skip, bytes)
  {
    var l, r := Patch(before, base, Patch(before[base..base + length], skip, bytes)), Patch(before, base + skip, bytes);
    forall p | 0 <= p < |before|
      ensures l[p] == r[p]
    {
    }
  }

  lemma SliceOfSectors(disk: seq<byte>, base: nat, length: nat, skip: nat, n: nat)
    requires base + length <= |disk| && skip + n <= length
    ensures disk[base..base + length][skip..skip + n] == disk[base + skip..base + skip + n]
  {
    var part := disk[base..base + length];
    var l, r := part[skip..skip + n], disk[base + skip..base + skip + n];
    assert |l| == n && |r| == n;
    forall i | 0 <= i < n
      ensures l[i] == r[i]
    {
      assert l[i] == part[skip + i] == disk[base + skip + i];
    }
  }

  /** A read, whatever comes of it, changes nothing; a successful one is the slice. */
  lemma ReadRangeFlat(g: Geometry, s: Sess, w: Wire, offset: u64, length: nat)
    requires Between(s, w.dev) && s.usable && Fits(g, w.dev)
    requires ReadRange(g, s, w, offset, length).w.lawful
    ensures var o := ReadRange(g, s, w, offset, length);
            && Between(o.s, o.w.dev) && Fits(g, o.w.dev) && o.w.dev.disk == w.dev.disk
            && (o.w == w || Untouched(o.w.dev, w.dev.disk))
            && (o.r.Ok? ==>
                  o.s.usable && offset + length <= |w.dev.disk| && o.r.value == w.dev.disk[offset..offset + length])
            && (SpanOf(g, offset, length).Err? ==> o.s == s && o.w == w)
  {
    var p := SpanOf(g, offset, length);
    if p.Ok? {
      var base, size := SpanRewritable(g, offset, length);
      SectorsRead(g, s, w, p.value, base, size, length);
      if ReadBlocks(s, w, p.value.lba, p.value.count, g.blockSize).r.Ok? {
        SliceOfSectors(w.dev.disk, base, size, p.value.skip, length);
      }
    }
  }

  /** What holds after a write whatever came of it: every byte outside the range is unchanged and
      each byte inside is old or new, now and after anything the device still does on its own. */
  ghost predicate Torn(d: Device, before: seq<byte>, offset: int, bytes: seq<byte>) {
    forall moves: seq<Device> | Drifts(d, moves) :: Confined(before, Rest(d, moves).disk, offset, bytes)
  }

  lemma AlignedTorn(d: Device, before: seq<byte>, offset: nat, bytes: seq<byte>)
    requires Settling(d, before, offset, bytes)
    ensures Torn(d, before, offset, bytes)
  {
    forall moves | Drifts(d, moves)
      ensures Confined(before, Rest(d, moves).disk, offset, bytes)
    {
      SettlingForever(d, moves, before, offset, bytes);
    }
  }

  lemma SectorsTorn(d: Device, before: seq<byte>, base: nat, length: nat, skip: nat, bytes: seq<byte>)
    requires base + length <= |before| && skip + |bytes| <= length
    requires Settling(d, before, base, Patch(before[base..base + length], skip, bytes))
    ensures Torn(d, before, base + skip, bytes)
  {
    forall moves | Drifts(d, moves)
      ensures Confined(before, Rest(d, moves).disk, base + skip, bytes)
    {
      SettlingForever(d, moves, before, base, Patch(before[base..base + length], skip, bytes));
      ConfinedThroughSectors(before, Rest(d, moves).disk, base, length, skip, bytes);
    }
  }

  lemma UntouchedTorn(d: Device, before: seq<byte>, offset: int, bytes: seq<byte>)
    requires Untouched(d, before)
    ensures Torn(d, before, offset, bytes)
  {
    forall moves | Drifts(d, moves)
      ensures Confined(before, Rest(d, moves).disk, offset, bytes)
    {
      SettlingForever(d, moves, before, 0, []);
    }
  }

  /** A device that awaits a wrapper makes no moves. */
  lemma SyncedTorn(d: Device, offset: int, bytes: seq<byte>)
    requires Synced(d)
    ensures Torn(d, d.disk, offset, bytes)
  {
    forall moves | Drifts(d, moves)
      ensures Confined(d.disk, Rest(d, moves).disk, offset, bytes)
    {
      assert moves == [];
    }
  }

  lemma TornNow(d: Device, before: seq<byte>, offset: int, bytes: seq<byte>)
    ensures Torn(d, before, offset, bytes) ==> Confined(before, d.disk, offset, bytes)
  {
    assert Drifts(d, []) && Rest(d, []) == d;
  }

  ghost predicate WroteFlat(g: Geometry, o: Run<()>, before: seq<byte>, offset: nat, bytes: seq<byte>) {
    && Between(o.s, o.w.dev) && Fits(g, o.w.dev)
    && Torn(o.w.dev, before, offset, bytes)
    && (o.r.Ok? ==> o.s.usable && offset + |bytes| <= |before| && o.w.dev.disk == Patch(before, offset, bytes))
  }

  lemma WriteAligned(g: Geometry, s: Sess, w: Wire, offset: u64, bytes: seq<byte>)
    requires Between(s, w.dev) && s.usable && Fits(g, w.dev)
    requires SpanOf(g, offset, |bytes|).Ok?
    requires var p := SpanOf(g, offset, |bytes|).value; p.skip == 0 && p.count * g.blockSize == |bytes|
    requires WriteRange(g, ReadWrite, s, w, offset, bytes).w.lawful
    ensures WroteFlat(g, WriteRange(g, ReadWrite, s, w, offset, bytes), w.dev.disk, offset, bytes)
  {
    var p := SpanOf(g, offset, |bytes|).value;
    SpanUsable(g, offset, |bytes|, WRITE10);
    WriteBlocksOnDevice(s, w, p.lba, p.count, g.blockSize, bytes);
    AlignedTorn(WriteRange(g, ReadWrite, s, w, offset, bytes).w.dev, w.dev.disk, offset, bytes);
  }

  /** What a read-modify-write is given: sectors the commands can name, holding the range. */
  predicate Rewritable(p: Span, bs: u32, base: nat, length: nat, n: nat) {
    && base == p.lba * bs && length == p.count * bs && p.skip + n <= length < 0x1_0000_0000
    && BlockCommand(READ10, p.lba, p.count, bs) == Ok((EncodeBlock(BlockCdb(READ10, p.lba, p.count)), length))
    && BlockCommand(WRITE10, p.lba, p.count, bs) == Ok((EncodeBlock(BlockCdb(WRITE10, p.lba, p.count)), length))
  }

  /** Its write half: what was read is the medium's, so what is written differs from it in the
      range only. */
  lemma Rewrite(g: Geometry, s: Sess, w: Wire, p: Span, base: nat, length: nat, bytes: seq<byte>, sectors: seq<byte>)
    requires Between(s, w.dev) && s.usable && Fits(g, w.dev) && Rewritable(p, g.blockSize, base, length, |bytes|)
    requires base + length <= |w.dev.disk| && sectors == Patch(w.dev.disk[base..base + length], p.skip, bytes)
    requires WriteBlocks(s, w, p.lba, p.count, g.blockSize, sectors).w.lawful
    ensures WroteFlat(g, WriteBlocks(s, w, p.lba, p.count, g.blockSize, sectors), w.dev.disk, base + p.skip, bytes)
  {
    WriteBlocksOnDevice(s, w, p.lba, p.count, g.blockSize, sectors);
    SectorsTorn(WriteBlocks(s, w, p.lba, p.count, g.blockSize, sectors).w.dev, w.dev.disk, base, length, p.skip, bytes);
    PatchThroughSectors(w.dev.disk, base, length, p.skip, bytes);
  }

  /** Its read half. */
  lemma SectorsRead(g: Geometry, s: Sess, w: Wire, p: Span, base: nat, length: nat, n: nat)
    requires Between(s, w.dev) && s.usable && Fits(g, w.dev) && Rewritable(p, g.blockSize, base, length, n)
    requires ReadBlocks(s, w, p.lba, p.count, g.blockSize).w.lawful
    ensures var o := ReadBlocks(s, w, p.lba, p.count, g.blockSize);
            && Between(o.s, o.w.dev) && Fits(g, o.w.dev) && Untouched(o.w.dev, w.dev.disk) && o.w.dev.disk == w.dev.disk
            && (o.r.Ok? ==> o.s.usable && base + length <= |w.dev.disk| && o.r.value == w.dev.disk[base..base + length])
  {
    ReadBlocksOnDevice(s, w, p.lba, p.count, g.blockSize);
  }

  lemma RewriteFlat(g: Geometry, s: Sess, w: Wire, p: Span, base: nat, length: nat, bytes: seq<byte>)
    requires Between(s, w.dev) && s.usable && Fits(g, w.dev) && Rewritable(p, g.blockSize, base, length, |bytes|)
    requires ReadModifyWrite(s, w, p, g.blockSize, bytes).w.lawful
    ensures WroteFlat(g, ReadModifyWrite(s, w, p, g.blockSize, bytes), w.dev.disk, base + p.skip, bytes)
  {
    var o := ReadBlocks(s, w, p.lba, p.count, g.blockSize);
    RewriteLawful(s, w, p, g.blockSize, bytes);
    SectorsRead(g, s, w, p, base, length, |bytes|);
    if o.r.Err? {
      UntouchedTorn(o.w.dev, w.dev.disk, base + p.skip, bytes);
    } else {
      Rewrite(g, o.s, o.w, p, base, length, bytes, Patch(o.r.value, p.skip, bytes));
    }
  }

  /** The span of an accepted range is such. */
  lemma SpanRewritable(g: Geometry, offset: u64, n: nat) returns (base: nat, length: nat)
    requires Supported(g) && SpanOf(g, offset, n).Ok?
    ensures Rewritable(SpanOf(g, offset, n).value, g.blockSize, base, length, n)
    ensures base + SpanOf(g, offset, n).value.skip == offset
  {
    var p := SpanOf(g, offset, n).value;
    SpanUsable(g, offset, n, READ10);
    SpanUsable(g, offset, n, WRITE10);
    base, length := p.lba * g.blockSize, p.count * g.blockSize;
  }

  lemma WriteUnaligned(g: Geometry, s: Sess, w: Wire, offset: u64, bytes: seq<byte>)
    requires Between(s, w.dev) && s.usable && Fits(g, w.dev)
    requires SpanOf(g, offset, |bytes|).Ok?
    requires var p := SpanOf(g, offset, |bytes|).value; p.skip != 0 || p.count * g.blockSize != |bytes|
    requires WriteRange(g, ReadWrite, s, w, offset, bytes).w.lawful
    ensures WroteFlat(g, WriteRange(g, ReadWrite, s, w, offset, bytes), w.dev.disk, offset, bytes)
  {
    var base, length := SpanRewritable(g, offset, |bytes|);
    RewriteFlat(g, s, w, SpanOf(g, offset, |bytes|).value, base, length, bytes);
  }

  lemma CommandLawful(s: Sess, w: Wire, cdb: seq<byte>, incoming: nat, outgoing: seq<byte>)
    requires Command(s, w, cdb, incoming, outgoing).w.lawful
    ensures w.lawful
  {
    if !Refused(s, cdb, incoming, outgoing) {
      LawfulSoFar(Start(NextTag(s.tag), s.lun, cdb, incoming, outgoing), w);
    }
  }

  lemma RewriteLawful(s: Sess, w: Wire, p: Span, bs: u32, bytes: seq<byte>)
    requires p.skip + |bytes| <= p.count * bs && ReadModifyWrite(s, w, p, bs, bytes).w.lawful
    ensures ReadBlocks(s, w, p.lba, p.count, bs).w.lawful && w.lawful
  {
    var o := ReadBlocks(s, w, p.lba, p.count, bs);
    if o.r.Ok? {
      BlockLength(s, w, p.lba, p.count, bs);
      var b := BlockCommand(WRITE10, p.lba, p.count, bs);
      var sectors := Patch(o.r.value, p.skip, bytes);
      if b.Ok? && b.value.1 == |sectors| {
        CommandLawful(o.s, o.w, b.value.0, 0, sectors);
      }
    }
    ReadBlocksLawful(s, w, p.lba, p.count, bs);
  }

  lemma ReadBlocksLawful(s: Sess, w: Wire, lba: u32, count: u16, bs: u32)
    requires ReadBlocks(s, w, lba, count, bs).w.lawful
    ensures w.lawful
  {
    var b := BlockCommand(READ10, lba, count, bs);
    if b.Ok? {
      CommandLawful(s, w, b.value.0, b.value.1, []);
    }
  }

  /** A successful write, aligned or not, is the flat update. A failed or cancelled one, with any
      subset of what was transferred stored, leaves every byte outside the range as it was and each
      byte inside old or new, for ever. Refusals before any transfer leave the wire as it was. */
  lemma WriteRangeFlat(g: Geometry, access: Access, s: Sess, w: Wire, offset: u64, bytes: seq<byte>)
    requires Between(s, w.dev) && s.usable && Fits(g, w.dev)
    requires WriteRange(g, access, s, w, offset, bytes).w.lawful
    ensures var o := WriteRange(g, access, s, w, offset, bytes);
            if access != ReadWrite || SpanOf(g, offset, |bytes|).Err? then o.r.Err? && o.s == s && o.w == w
            else WroteFlat(g, o, w.dev.disk, offset, bytes) && Confined(w.dev.disk, o.w.dev.disk, offset, bytes)
  {
    if access == ReadWrite && SpanOf(g, offset, |bytes|).Ok? {
      var p := SpanOf(g, offset, |bytes|).value;
      if p.skip == 0 && p.count * g.blockSize == |bytes| {
        WriteAligned(g, s, w, offset, bytes);
      } else {
        WriteUnaligned(g, s, w, offset, bytes);
      }
      TornNow(WriteRange(g, access, s, w, offset, bytes).w.dev, w.dev.disk, offset, bytes);
    }
  }

  // ----- Connecting -----

  lemma InitializeReadyOnDevice(s: Sess, w: Wire)
    requires Between(s, w.dev) && s.usable && InitializeReady(s, w).w.lawful
    ensures var o := InitializeReady(s, w);
            Between(o.s, o.w.dev) && o.w.dev.blockSize == w.dev.blockSize && o.w.dev.disk == w.dev.disk
            && (o.r.Ok? ==> o.s.usable)
  {
    var t := TestUnitReady(s, w);
    if t.r == Err(CommandFailed) {
      var q := Command(t.s, t.w, REQUEST_SENSE, 18, []);
      if q.r.Ok? && ResetOrNewMedium(q.r.value) {
        CommandLawful(q.s, q.w, TEST_UNIT_READY, 0, []);
      }
      CommandLawful(t.s, t.w, REQUEST_SENSE, 18, []);
      PureCommand(s, w, TEST_UNIT_READY, 0);
      PureCommand(t.s, t.w, REQUEST_SENSE, 18);
      if q.r.Ok? && ResetOrNewMedium(q.r.value) {
        PureCommand(q.s, q.w, TEST_UNIT_READY, 0);
      }
    } else {
      PureCommand(s, w, TEST_UNIT_READY, 0);
    }
  }

  /** What READ CAPACITY can report and the range layer can address. */
  predicate Addressable(d: Device) {
    Sectored(d) && PowerOfTwo(d.blockSize) && d.blockSize <= 65536 && |d.disk| / d.blockSize < 0x1_0000_0000
  }

  lemma CapacityRoundTrip(d: Device)
    requires Sectored(d)
    ensures var r := ParseCapacity(CapacityReply(|d.disk|, d.blockSize));
            if PowerOfTwo(d.blockSize) && |d.disk| / d.blockSize < 0x1_0000_0000 then
              r == Ok(Geometry(|d.disk| / d.blockSize, d.blockSize))
            else r == Err(Protocol(Capacity))
  {
    var last := Min(Max(|d.disk| / d.blockSize - 1, 0), 0xffff_ffff);
    var reply := CapacityReply(|d.disk|, d.blockSize);
    assert reply[..4] == Be32(last) && reply[4..] == Be32(d.blockSize);
    Le32RoundTrip(last);
    Le32RoundTrip(d.blockSize);
    FloorBounds(|d.disk|, d.blockSize);
  }

  lemma CapacityTold(d: Device, reply: seq<byte>)
    requires WellFormed(d.cmd) && Truthful(d) && d.cmd.cdb == READ_CAPACITY && d.sent == reply && |reply| == 8
    requires Sectored(d)
    ensures reply == CapacityReply(|d.disk|, d.blockSize)
  {
  }

  lemma CapacityOnDevice(s: Sess, w: Wire)
    requires Between(s, w.dev) && s.usable && Sectored(w.dev) && Command(s, w, READ_CAPACITY, 8, []).w.lawful
    ensures var o := Command(s, w, READ_CAPACITY, 8, []);
            && Between(o.s, o.w.dev) && o.w.dev.blockSize == w.dev.blockSize && o.w.dev.disk == w.dev.disk
            && (o.r.Ok? ==> o.s.usable && o.r.value == CapacityReply(|w.dev.disk|, w.dev.blockSize))
  {
    PureCommand(s, w, READ_CAPACITY, 8);
    CommandOnDevice(s, w, READ_CAPACITY, 8, []);
    var o := Command(s, w, READ_CAPACITY, 8, []);
    if o.r.Ok? {
      CapacityTold(o.w.dev, o.r.value);
    }
  }

  /** The geometry read is the medium's; it is refused exactly when READ CAPACITY(10) cannot
      express it or the sector size is no power of two. */
  lemma ReadGeometryOnDevice(s: Sess, w: Wire)
    requires Between(s, w.dev) && s.usable && Sectored(w.dev) && ReadGeometry(s, w).w.lawful
    ensures var o := ReadGeometry(s, w);
            && Between(o.s, o.w.dev) && o.w.dev.blockSize == w.dev.blockSize && o.w.dev.disk == w.dev.disk
            && (o.r.Ok? ==> o.s.usable && o.r.value == Geometry(|w.dev.disk| / w.dev.blockSize, w.dev.blockSize))
            && (Command(s, w, READ_CAPACITY, 8, []).r.Ok? ==>
                  (o.r.Ok? <==> PowerOfTwo(w.dev.blockSize) && |w.dev.disk| / w.dev.blockSize < 0x1_0000_0000))
  {
    Soundness.ReplyLength(s, w, READ_CAPACITY, 8, []);
    CapacityOnDevice(s, w);
    CapacityRoundTrip(w.dev);
  }

  /** Connecting reads the medium's true geometry, changes nothing, and refuses a geometry exactly
      when the range layer cannot address it. */
  lemma ConnectOnDevice(s: Sess, w: Wire)
    requires Between(s, w.dev) && s.usable && Sectored(w.dev) && Connect(s, w).w.lawful
    ensures var o := Connect(s, w);
            && Between(o.s, o.w.dev) && o.w.dev.blockSize == w.dev.blockSize && o.w.dev.disk == w.dev.disk
            && (o.r.Ok? ==> o.s.usable && Addressable(w.dev) && Fits(o.r.value, o.w.dev))
            && (InitializeReady(s, w).r.Ok?
                && Command(InitializeReady(s, w).s, InitializeReady(s, w).w, READ_CAPACITY, 8, []).r.Ok? ==>
                  (o.r.Ok? <==> Addressable(w.dev)))
  {
    var t := InitializeReady(s, w);
    if t.r.Ok? {
      CommandLawful(t.s, t.w, READ_CAPACITY, 8, []);
      InitializeReadyOnDevice(s, w);
      ReadGeometryOnDevice(t.s, t.w);
      FloorBounds(|w.dev.disk|, w.dev.blockSize);
    } else {
      InitializeReadyOnDevice(s, w);
    }
  }

  /** Write a range, sync, then connect afresh over the same link and read it back. */
  lemma WriteThenFreshRead(g: Geometry, s: Sess, w: Wire, offset: u64, bytes: seq<byte>, unit: lun)
    requires Between(s, w.dev) && s.usable && Fits(g, w.dev) && Sectored(w.dev)
    requires WriteRange(g, ReadWrite, s, w, offset, bytes).r.Ok?
    requires var a := WriteRange(g, ReadWrite, s, w, offset, bytes); Flush(a.s, a.w).r.Ok?
    requires var a := WriteRange(g, ReadWrite, s, w, offset, bytes);
             var c := Connect(Sess(0, unit, true), Flush(a.s, a.w).w); c.r.Ok?
    requires var a := WriteRange(g, ReadWrite, s, w, offset, bytes);
             var c := Connect(Sess(0, unit, true), Flush(a.s, a.w).w);
             ReadRange(c.r.value, c.s, c.w, offset, |bytes|).r.Ok?
             && ReadRange(c.r.value, c.s, c.w, offset, |bytes|).w.lawful
    ensures var a := WriteRange(g, ReadWrite, s, w, offset, bytes);
            var c := Connect(Sess(0, unit, true), Flush(a.s, a.w).w);
            c.r.value == g && ReadRange(c.r.value, c.s, c.w, offset, |bytes|).r == Ok(bytes)
            && c.w.dev.disk == Patch(w.dev.disk, offset, bytes)
  {
    var a := WriteRange(g, ReadWrite, s, w, offset, bytes);
    var f := Flush(a.s, a.w);
    var c := Connect(Sess(0, unit, true), f.w);
    ReadRangeLawful(c.r.value, c.s, c.w, offset, |bytes|);
    ConnectLawful(Sess(0, unit, true), f.w);
    CommandLawful(a.s, a.w, SYNCHRONIZE_CACHE, 0, []);
    WriteRangeFlat(g, ReadWrite, s, w, offset, bytes);
    PureCommand(a.s, a.w, SYNCHRONIZE_CACHE, 0);
    ConnectOnDevice(Sess(0, unit, true), f.w);
    ReadRangeFlat(c.r.value, c.s, c.w, offset, |bytes|);
    SameGeometry(g, c.r.value, c.w.dev);
    assert Patch(w.dev.disk, offset, bytes)[offset..offset + |bytes|] == bytes;
  }

  lemma SameGeometry(g: Geometry, k: Geometry, d: Device)
    requires Fits(g, d) && Fits(k, d)
    ensures g == k
  {
    if g.blocks < k.blocks {
      Scale(g.blocks, k.blocks, g.blockSize);
    } else if k.blocks < g.blocks {
      Scale(k.blocks, g.blocks, g.blockSize);
    }
  }

  lemma ReadRangeLawful(g: Geometry, s: Sess, w: Wire, offset: u64, length: nat)
    requires Supported(g) && ReadRange(g, s, w, offset, length).w.lawful
    ensures w.lawful
  {
    var p := SpanOf(g, offset, length);
    if p.Ok? {
      ReadBlocksLawful(s, w, p.value.lba, p.value.count, g.blockSize);
    }
  }

  lemma ConnectLawful(s: Sess, w: Wire)
    requires Connect(s, w).w.lawful
    ensures w.lawful
  {
    var t := TestUnitReady(s, w);
    if t.r == Err(CommandFailed) {
      var q := Command(t.s, t.w, REQUEST_SENSE, 18, []);
      if q.r.Ok? && ResetOrNewMedium(q.r.value) {
        var u := TestUnitReady(q.s, q.w);
        if u.r.Ok? {
          CommandLawful(u.s, u.w, READ_CAPACITY, 8, []);
        }
        CommandLawful(q.s, q.w, TEST_UNIT_READY, 0, []);
      }
      CommandLawful(t.s, t.w, REQUEST_SENSE, 18, []);
    } else if t.r.Ok? {
      CommandLawful(t.s, t.w, READ_CAPACITY, 8, []);
    }
    CommandLawful(s, w, TEST_UNIT_READY, 0, []);
  }

  lemma WriteRangeLawful(g: Geometry, access: Access, s: Sess, w: Wire, offset: u64, bytes: seq<byte>)
    requires Supported(g) && WriteRange(g, access, s, w, offset, bytes).w.lawful
    ensures w.lawful
  {
    var p := SpanOf(g, offset, |bytes|);
    if access == ReadWrite && p.Ok? {
      if p.value.skip == 0 && p.value.count * g.blockSize == |bytes| {
        var b := BlockCommand(WRITE10, p.value.lba, p.value.count, g.blockSize);
        if b.Ok? && |bytes| == b.value.1 {
          CommandLawful(s, w, b.value.0, 0, bytes);
        }
      } else {
        SpanFits(g, offset, |bytes|);
        RewriteLawful(s, w, p.value, g.blockSize, bytes);
      }
    }
  }
}
