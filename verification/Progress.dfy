/** Runs that do happen: for every accepted command and range there is a conforming device's
    behaviour under which it succeeds, so the results about lawful runs are about something. */
module Progress {
  import opened Bytes
  import opened Codec
  import opened Device
  import opened Bot
  import opened Lockstep
  import opened ScsiSpec
  import opened RangeSpec
  import FlatDisk

  // ----- A device that serves one command without a fault -----

  function Finished(d: Device): Device {
    d.(status := Some(Status(0, 0)), csw := EncodeCsw(d.cmd.tag, 0, 0))
  }

  /** Everything on bulk-IN is taken in full chunks, then the status. */
  function InTurns(d: Device): seq<Turn>
    decreases |d.sent| - d.taken
  {
    if d.taken >= |d.sent| then [Replies(Got(d.csw), d.(taken := |Stream(d)|))]
    else
      var to := Min(d.taken + CHUNK, |d.sent|);
      [Replies(Got(d.sent[d.taken..to]), d.(taken := to))] + InTurns(d.(taken := to))
  }

  /** Data is taken in full chunks, stored, and acknowledged. */
  function OutTurns(d: Device, outgoing: seq<byte>): seq<Turn>
    requires IsWrite(d.cmd) ==> Base(d) + |outgoing| <= |d.disk|
    requires |d.got| <= |outgoing|
    decreases |outgoing| - |d.got|
  {
    if |d.got| == |outgoing| then
      var e := if IsWrite(d.cmd) then d.(disk := Patch(d.disk, Base(d), d.got)) else d;
      (if IsWrite(d.cmd) then [Moves(e)] else []) + [Moves(Finished(e))] + InTurns(Finished(e))
    else
      var e := d.(got := outgoing[..Min(|d.got| + CHUNK, |outgoing|)]);
      [Replies(Moved(|e.got| - |d.got|), e)] + OutTurns(e, outgoing)
  }

  /** The status of a finished device is read as success. */
  predicate Good(d: Device) {
    d.status == Some(Status(0, 0)) && d.csw == EncodeCsw(d.cmd.tag, 0, 0)
  }

  lemma {:induction false} DriveIn(h: Host, w: Wire, rest: seq<Turn>)
    requires Runnable(h) && h.pc == (if |h.data| < h.incoming then ReadData else ReadStatus)
    requires Good(w.dev) && w.dev.cmd == h.cbw && |w.dev.sent| == h.incoming && w.dev.taken == |h.data|
             && h.data <= w.dev.sent
    requires w.turns == InTurns(w.dev) + rest && w.lawful
    ensures var o := Drive(h, w);
            o.0.pc == Done(Ok(w.dev.sent)) && o.0.usable && o.1.lawful && o.1.turns == rest
            && o.1.dev == w.dev.(taken := |Stream(w.dev)|)
    decreases h.incoming - |h.data|
  {
    var d := w.dev;
    var t := w.turns[0];
    var x := AfterReply(w, Ask(h));
    if |h.data| < h.incoming {
      var to := Min(d.taken + CHUNK, |d.sent|);
      assert Stream(d)[d.taken..to] == d.sent[d.taken..to];
      assert h.data + d.sent[d.taken..to] == d.sent[..to];
      assert x.turns == InTurns(x.dev) + rest;
      DriveIn(Resume(h, t.answer), x, rest);
    } else {
      assert x.turns == rest;
      GoodStatus(h, d);
    }
  }

  lemma GoodStatus(h: Host, d: Device)
    requires Runnable(h) && h.pc == ReadStatus && Good(d) && d.cmd == h.cbw && d.taken == |h.data| == |d.sent|
             && h.data <= d.sent
    ensures AnswersIn(d, Got(d.csw), d.(taken := |Stream(d)|))
    ensures Resume(h, Got(d.csw)) == h.(pc := Done(Ok(d.sent)), usable := true)
  {
    assert Stream(d)[d.taken..] == d.csw && h.data == d.sent;
    CswRoundTrip(d.cmd.tag, 0, 0);
  }

  predicate Stored(d: Device) {
    IsWrite(d.cmd) ==> Base(d) + |d.got| <= |d.disk| && d.disk[Base(d)..Base(d) + |d.got|] == d.got
  }

  lemma DriveReply(h: Host, w: Wire)
    requires Runnable(h) && !h.pc.Done? && w.turns != [] && w.turns[0].Replies?
    ensures Drive(h, w) == Drive(Resume(h, w.turns[0].answer), AfterReply(w, Ask(h)))
  {
  }

  lemma DriveMove(h: Host, w: Wire)
    requires Runnable(h) && !h.pc.Done? && w.turns != [] && w.turns[0].Moves?
    ensures Drive(h, w) == Drive(h, AfterMove(w))
  {
  }

  /** All the data received, none of it owed: the host waits for the status. */
  predicate Settled(h: Host, w: Wire) {
    && Shaped(h) && h.incoming == 0 && h.data == [] && h.pc == ReadStatus && Serving(h, w.dev) && Accounted(w.dev)
    && w.dev.status.None? && w.dev.got == h.outgoing && w.lawful
  }

  lemma DriveStored(h: Host, w: Wire, rest: seq<Turn>)
    requires Settled(h, w) && Stored(w.dev)
    requires w.turns == [Moves(Finished(w.dev))] + (InTurns(Finished(w.dev)) + rest)
    ensures var o := Drive(h, w); o.0.pc == Done(Ok([])) && o.0.usable && o.1.lawful && o.1.turns == rest
  {
    assert Finishes(w.dev, Finished(w.dev));
    DriveMove(h, w);
    assert AfterMove(w).turns == InTurns(Finished(w.dev)) + rest;
    DriveIn(h, AfterMove(w), rest);
  }

  lemma PatchStores(disk: seq<byte>, at: nat, bytes: seq<byte>)
    requires at + |bytes| <= |disk|
    ensures Confined(disk, Patch(disk, at, bytes), at, bytes) && Patch(disk, at, bytes)[at..at + |bytes|] == bytes
  {
  }

  lemma DriveStore(h: Host, w: Wire, rest: seq<Turn>)
    requires Settled(h, w) && IsWrite(w.dev.cmd) && Base(w.dev) + |h.outgoing| <= |w.dev.disk|
    requires w.turns == [Moves(w.dev.(disk := Patch(w.dev.disk, Base(w.dev), w.dev.got)))] + rest
    ensures var v := Wire(w.dev.(disk := Patch(w.dev.disk, Base(w.dev), w.dev.got)), rest, w.log, true);
            Drive(h, w) == Drive(h, v) && Settled(h, v) && Stored(v.dev)
  {
    var d := w.dev;
    var e := d.(disk := Patch(d.disk, Base(d), d.got));
    PatchStores(d.disk, Base(d), d.got);
    assert Stores(d, e);
    DriveMove(h, w);
    assert w.turns[1..] == rest;
  }

  lemma DriveFinish(h: Host, w: Wire, rest: seq<Turn>)
    requires Settled(h, w) && (IsWrite(w.dev.cmd) ==> Base(w.dev) + |h.outgoing| <= |w.dev.disk|)
    requires w.turns == OutTurns(w.dev, h.outgoing) + rest
    ensures var o := Drive(h, w); o.0.pc == Done(Ok([])) && o.0.usable && o.1.lawful && o.1.turns == rest
  {
    var d := w.dev;
    var e := if IsWrite(d.cmd) then d.(disk := Patch(d.disk, Base(d), d.got)) else d;
    var next := [Moves(Finished(e))] + (InTurns(Finished(e)) + rest);
    if IsWrite(d.cmd) {
      assert w.turns == [Moves(e)] + next;
      DriveStore(h, w, next);
      DriveStored(h, Wire(e, next, w.log, true), rest);
    } else {
      assert w.turns == next;
      DriveStored(h, w, rest);
    }
  }

  lemma {:induction false} DriveOut(h: Host, w: Wire, rest: seq<Turn>)
    requires Shaped(h) && h.incoming == 0 && h.data == [] && Serving(h, w.dev) && Accounted(w.dev)
    requires h.pc == (if |w.dev.got| < |h.outgoing| then WriteData(|w.dev.got|) else ReadStatus)
    requires w.dev.status.None? && w.dev.got <= h.outgoing && w.lawful
    requires IsWrite(w.dev.cmd) ==> Base(w.dev) + |h.outgoing| <= |w.dev.disk|
    requires w.turns == OutTurns(w.dev, h.outgoing) + rest
    ensures var o := Drive(h, w); o.0.pc == Done(Ok([])) && o.0.usable && o.1.lawful && o.1.turns == rest
    decreases |h.outgoing| - |w.dev.got|
  {
    if |w.dev.got| < |h.outgoing| {
      var x := AfterReply(w, Ask(h));
      assert x.turns == OutTurns(x.dev, h.outgoing) + rest;
      assert x.dev.got == w.dev.got + Piece(h);
      DriveOut(Resume(h, w.turns[0].answer), x, rest);
    } else {
      DriveFinish(h, w, rest);
    }
  }

  /** What a device may honestly answer to this wrapper. */
  predicate Answerable(d: Device, c: Cbw, data: seq<byte>, outgoing: seq<byte>)
    requires WellFormed(c)
  {
    && (c.incoming ==> Truthful(Accept(d, c).(sent := data)))
    && (IsWrite(c) ==> BaseOf(c, d.blockSize) + |outgoing| <= |d.disk|)
  }

  lemma CanSend(s: Sess, d: Device, log: seq<Exchange>, cdb: seq<byte>, outgoing: seq<byte>, rest: seq<Turn>)
    returns (turns: seq<Turn>)
    requires Between(s, d) && !Refused(s, cdb, 0, outgoing)
    requires Answerable(d, Start(NextTag(s.tag), s.lun, cdb, 0, outgoing).cbw, [], outgoing)
    ensures var o := Command(s, Wire(d, turns, log, true), cdb, 0, outgoing);
            o.r == Ok([]) && o.s.usable && o.w.lawful && o.w.turns == rest
  {
    var h := Start(NextTag(s.tag), s.lun, cdb, 0, outgoing);
    var e := Accept(d, h.cbw);
    turns := [Replies(Moved(31), e)] + (OutTurns(e, outgoing) + rest);
    OpeningReply(h, Wire(d, turns, log, true), OutTurns(e, outgoing) + rest);
    DriveOut(Resume(h, Moved(31)), AfterReply(Wire(d, turns, log, true), Ask(h)), rest);
  }

  /** The device accepts the wrapper, produces all its data and finishes before the host reads. */
  function Opening(d: Device, c: Cbw, data: seq<byte>): seq<Turn> {
    var e := Accept(d, c);
    [Replies(Moved(31), e)] + [Moves(e.(sent := data))] + [Moves(Finished(e.(sent := data)))]
  }

  lemma OpeningMoves(h: Host, w: Wire, data: seq<byte>, rest: seq<Turn>)
    requires Shaped(h) && h.pc == ReadData && h.data == [] && w.dev == Accept(w.dev, h.cbw) && !w.dev.halted && w.lawful
    requires |data| == h.incoming
    requires Truthful(w.dev.(sent := data))
    requires w.turns == [Moves(w.dev.(sent := data))] + ([Moves(Finished(w.dev.(sent := data)))] + rest)
    ensures Drive(h, w) == Drive(h, w.(dev := Finished(w.dev.(sent := data)), turns := rest))
  {
    var f := w.dev.(sent := data);
    assert Emits(w.dev, f);
    assert Finishes(f, Finished(f));
    DriveMove(h, w);
    var z := AfterMove(w);
    assert z.turns == [Moves(Finished(f))] + rest;
    DriveMove(h, z);
    assert AfterMove(z).turns == rest;
  }

  lemma OpeningReply(h: Host, w: Wire, rest: seq<Turn>)
    requires Shaped(h) && h.pc == SendCbw && Synced(w.dev) && w.lawful
    requires w.turns == [Replies(Moved(31), Accept(w.dev, h.cbw))] + rest
    ensures AfterReply(w, Ask(h)) == Wire(Accept(w.dev, h.cbw), rest, w.log + [Exchange(Ask(h), Moved(31))], true)
  {
    CbwRoundTrip(h.cbw);
    assert w.turns[1..] == rest;
  }

  lemma DriveOpening(h: Host, w: Wire, data: seq<byte>, rest: seq<Turn>)
    requires Shaped(h) && h.pc == SendCbw && Accounted(w.dev) && Synced(w.dev) && w.lawful && |data| == h.incoming > 0
    requires Truthful(Accept(w.dev, h.cbw).(sent := data))
    requires w.turns == Opening(w.dev, h.cbw, data) + rest
    ensures var x := Wire(Finished(Accept(w.dev, h.cbw).(sent := data)), rest, w.log + [Exchange(Ask(h), Moved(31))],
                          true);
            Drive(h, w) == Drive(h.(pc := ReadData, data := []), x)
  {
    var f := Accept(w.dev, h.cbw).(sent := data);
    var moves := [Moves(f)] + ([Moves(Finished(f))] + rest);
    assert w.turns == [Replies(Moved(31), Accept(w.dev, h.cbw))] + moves;
    OpeningReply(h, w, moves);
    DriveReply(h, w);
    OpeningMoves(Resume(h, Moved(31)), AfterReply(w, Ask(h)), data, rest);
  }

  lemma CanReceive(s: Sess, d: Device, log: seq<Exchange>, cdb: seq<byte>, data: seq<byte>, rest: seq<Turn>)
    returns (turns: seq<Turn>)
    requires Between(s, d) && data != [] && !Refused(s, cdb, |data|, [])
    requires Answerable(d, Start(NextTag(s.tag), s.lun, cdb, |data|, []).cbw, data, [])
    ensures var o := Command(s, Wire(d, turns, log, true), cdb, |data|, []);
            o.r == Ok(data) && o.s.usable && o.w.lawful && o.w.turns == rest
  {
    var h := Start(NextTag(s.tag), s.lun, cdb, |data|, []);
    var f := Finished(Accept(d, h.cbw).(sent := data));
    turns := Opening(d, h.cbw, data) + (InTurns(f) + rest);
    DriveOpening(h, Wire(d, turns, log, true), data, InTurns(f) + rest);
    DriveIn(h.(pc := ReadData, data := []), Wire(f, InTurns(f) + rest, log + [Exchange(Ask(h), Moved(31))], true),
            rest);
  }

  /** From every state between commands, every command the host does not refuse can succeed, with
      any data the device can vouch for, and leave whatever comes after to come after. */
  lemma CommandCanSucceed(s: Sess, d: Device, log: seq<Exchange>, cdb: seq<byte>, data: seq<byte>, outgoing: seq<byte>,
                          rest: seq<Turn>)
    returns (turns: seq<Turn>)
    requires Between(s, d) && !Refused(s, cdb, |data|, outgoing)
    requires Answerable(d, Start(NextTag(s.tag), s.lun, cdb, |data|, outgoing).cbw, data, outgoing)
    ensures var o := Command(s, Wire(d, turns, log, true), cdb, |data|, outgoing);
            o.r == Ok(data) && o.s.usable && o.w.lawful && o.w.turns == rest
  {
    if data == [] {
      turns := CanSend(s, d, log, cdb, outgoing, rest);
    } else {
      turns := CanReceive(s, d, log, cdb, data, rest);
    }
  }

  // ----- Ranges -----

  /** A device over this medium that has done nothing yet. */
  function Fresh(disk: seq<byte>, blockSize: nat): Device {
    Device(disk, blockSize, Cbw(0, 0, false, 0, [0]), [], [], Some(Status(0, 0)), EncodeCsw(0, 0, 0), 13, false)
  }

  /** Every medium of a supported geometry has a device and a session to start from. */
  lemma AnyMediumCanBeServed(g: Geometry, disk: seq<byte>, unit: lun)
    requires Supported(g) && |disk| == SizeBytes(g)
    ensures Between(Sess(0, unit, true), Fresh(disk, g.blockSize)) && Synced(Fresh(disk, g.blockSize))
    ensures FlatDisk.Fits(g, Fresh(disk, g.blockSize)) && FlatDisk.Addressable(Fresh(disk, g.blockSize))
  {
    StampedByEncoding(Fresh(disk, g.blockSize));
    Scale(1, g.blocks, g.blockSize);
    WholeSectors(g.blocks, g.blockSize);
  }

  lemma WholeSectors(n: nat, size: nat)
    requires size > 0
    ensures n * size % size == 0 && n * size / size == n
  {
    FloorBounds(n * size, size);
    Scale(n * size / size + 1, n, size);
    Scale(n + 1, n * size / size, size);
  }

  lemma BlocksCanBeRead(s: Sess, d: Device, log: seq<Exchange>, lba: u32, count: u16, bs: u32, rest: seq<Turn>)
    returns (turns: seq<Turn>)
    requires Between(s, d) && s.usable && bs == d.blockSize && BlockCommand(READ10, lba, count, bs).Ok?
    requires count * bs < 0x1_0000_0000 && lba * bs + count * bs <= |d.disk|
    ensures var o := ReadBlocks(s, Wire(d, turns, log, true), lba, count, bs);
            o.r == Ok(d.disk[lba * bs..lba * bs + count * bs]) && o.s.usable && o.w.lawful && o.w.turns == rest
  {
    var cdb, data := EncodeBlock(BlockCdb(READ10, lba, count)), d.disk[lba * bs..lba * bs + count * bs];
    BlockRoundTrip(BlockCdb(READ10, lba, count));
    turns := CommandCanSucceed(s, d, log, cdb, data, [], rest);
  }

  lemma BlocksCanBeWritten(s: Sess, d: Device, log: seq<Exchange>, lba: u32, count: u16, bs: u32, bytes: seq<byte>,
                           rest: seq<Turn>)
    returns (turns: seq<Turn>)
    requires Between(s, d) && s.usable && bs == d.blockSize && BlockCommand(WRITE10, lba, count, bs).Ok?
    requires count * bs == |bytes| < 0x1_0000_0000 && lba * bs + count * bs <= |d.disk|
    ensures var o := WriteBlocks(s, Wire(d, turns, log, true), lba, count, bs, bytes);
            o.r.Ok? && o.s.usable && o.w.lawful && o.w.turns == rest
  {
    var cdb := EncodeBlock(BlockCdb(WRITE10, lba, count));
    BlockRoundTrip(BlockCdb(WRITE10, lba, count));
    turns := CommandCanSucceed(s, d, log, cdb, [], bytes, rest);
  }

  /** Every range the session accepts can be read. */
  lemma RangeCanBeRead(g: Geometry, s: Sess, d: Device, log: seq<Exchange>, offset: u64, length: nat, rest: seq<Turn>)
    returns (turns: seq<Turn>)
    requires Between(s, d) && s.usable && FlatDisk.Fits(g, d) && SpanOf(g, offset, length).Ok?
    ensures var o := ReadRange(g, s, Wire(d, turns, log, true), offset, length);
            offset + length <= |d.disk| && o.r == Ok(d.disk[offset..offset + length]) && o.w.lawful && o.w.turns == rest
  {
    var p := SpanOf(g, offset, length).value;
    SpanUsable(g, offset, length, READ10);
    SpanInside(g, d, p);
    turns := BlocksCanBeRead(s, d, log, p.lba, p.count, g.blockSize, rest);
    FlatDisk.ReadRangeFlat(g, s, Wire(d, turns, log, true), offset, length);
  }

  lemma SpanInside(g: Geometry, d: Device, p: Span)
    requires FlatDisk.Fits(g, d) && p.lba + p.count <= g.blocks
    ensures p.lba * g.blockSize + p.count * g.blockSize <= |d.disk|
  {
    Scale(p.lba + p.count, g.blocks, g.blockSize);
    assert (p.lba + p.count) * g.blockSize == p.lba * g.blockSize + p.count * g.blockSize;
  }

  /** Every range the session accepts can be written, aligned or not. */
  lemma RangeCanBeWritten(g: Geometry, s: Sess, d: Device, log: seq<Exchange>, offset: u64, bytes: seq<byte>,
                          rest: seq<Turn>)
    returns (turns: seq<Turn>)
    requires Between(s, d) && s.usable && FlatDisk.Fits(g, d) && SpanOf(g, offset, |bytes|).Ok?
    ensures var o := WriteRange(g, ReadWrite, s, Wire(d, turns, log, true), offset, bytes);
            offset + |bytes| <= |d.disk| && o.r.Ok? && o.w.dev.disk == Patch(d.disk, offset, bytes) && o.w.lawful
            && o.w.turns == rest
  {
    var p := SpanOf(g, offset, |bytes|).value;
    SpanUsable(g, offset, |bytes|, WRITE10);
    SpanInside(g, d, p);
    if p.skip == 0 && p.count * g.blockSize == |bytes| {
      turns := BlocksCanBeWritten(s, d, log, p.lba, p.count, g.blockSize, bytes, rest);
    } else {
      var base, length := FlatDisk.SpanRewritable(g, offset, |bytes|);
      turns := SectorsCanBeRewritten(g, s, d, log, p, base, length, bytes, rest);
    }
    FlatDisk.WriteRangeFlat(g, ReadWrite, s, Wire(d, turns, log, true), offset, bytes);
  }

  /** A drive that ends well does not look at the turns it leaves. */
  lemma {:induction false} DriveOnward(h: Host, w: Wire, more: seq<Turn>)
    requires Runnable(h) && Drive(h, w).0.pc.Done? && Drive(h, w).0.pc.result.Ok?
    ensures var o := Drive(h, w); Drive(h, w.(turns := w.turns + more)) == (o.0, o.1.(turns := o.1.turns + more))
    decreases |w.turns|, if h.pc.Done? then 0 else 1
  {
    if !h.pc.Done? && w.turns != [] {
      var v := w.(turns := w.turns + more);
      assert v.turns[0] == w.turns[0] && v.turns[1..] == w.turns[1..] + more;
      if w.turns[0].Moves? {
        DriveOnward(h, AfterMove(w), more);
      } else {
        DriveOnward(Resume(h, w.turns[0].answer), AfterReply(w, Ask(h)), more);
      }
    }
  }

  lemma CommandOnward(s: Sess, w: Wire, cdb: seq<byte>, incoming: nat, outgoing: seq<byte>, more: seq<Turn>)
    requires Command(s, w, cdb, incoming, outgoing).r.Ok?
    ensures var o := Command(s, w, cdb, incoming, outgoing);
            Command(s, w.(turns := w.turns + more), cdb, incoming, outgoing)
            == o.(w := o.w.(turns := o.w.turns + more))
  {
    DriveOnward(Start(NextTag(s.tag), s.lun, cdb, incoming, outgoing), w, more);
  }

  lemma ReadOnward(s: Sess, w: Wire, lba: u32, count: u16, bs: u32, more: seq<Turn>)
    requires ReadBlocks(s, w, lba, count, bs).r.Ok?
    ensures var o := ReadBlocks(s, w, lba, count, bs);
            ReadBlocks(s, w.(turns := w.turns + more), lba, count, bs) == o.(w := o.w.(turns := o.w.turns + more))
  {
    var b := BlockCommand(READ10, lba, count, bs).value;
    CommandOnward(s, w, b.0, b.1, [], more);
  }

  lemma WriteOnward(s: Sess, w: Wire, lba: u32, count: u16, bs: u32, bytes: seq<byte>, more: seq<Turn>)
    requires WriteBlocks(s, w, lba, count, bs, bytes).r.Ok?
    ensures var o := WriteBlocks(s, w, lba, count, bs, bytes);
            WriteBlocks(s, w.(turns := w.turns + more), lba, count, bs, bytes)
            == o.(w := o.w.(turns := o.w.turns + more))
  {
    var b := BlockCommand(WRITE10, lba, count, bs).value;
    CommandOnward(s, w, b.0, 0, bytes, more);
  }

  lemma RewriteOnward(s: Sess, w: Wire, p: Span, bs: u32, bytes: seq<byte>, more: seq<Turn>)
    requires p.skip + |bytes| <= p.count * bs && ReadModifyWrite(s, w, p, bs, bytes).r.Ok?
    ensures var o := ReadModifyWrite(s, w, p, bs, bytes);
            ReadModifyWrite(s, w.(turns := w.turns + more), p, bs, bytes) == o.(w := o.w.(turns := o.w.turns + more))
  {
    var o := ReadBlocks(s, w, p.lba, p.count, bs);
    ReadOnward(s, w, p.lba, p.count, bs, more);
    BlockLength(s, w, p.lba, p.count, bs);
    WriteOnward(o.s, o.w, p.lba, p.count, bs, Patch(o.r.value, p.skip, bytes), more);
  }

  lemma ReadRangeOnward(g: Geometry, s: Sess, w: Wire, offset: u64, length: nat, more: seq<Turn>)
    requires Supported(g) && ReadRange(g, s, w, offset, length).r.Ok?
    ensures var o := ReadRange(g, s, w, offset, length);
            ReadRange(g, s, w.(turns := w.turns + more), offset, length) == o.(w := o.w.(turns := o.w.turns + more))
  {
    var p := SpanOf(g, offset, length).value;
    ReadOnward(s, w, p.lba, p.count, g.blockSize, more);
  }

  lemma WriteRangeOnward(g: Geometry, s: Sess, w: Wire, offset: u64, bytes: seq<byte>, more: seq<Turn>)
    requires Supported(g) && WriteRange(g, ReadWrite, s, w, offset, bytes).r.Ok?
    ensures var o := WriteRange(g, ReadWrite, s, w, offset, bytes);
            WriteRange(g, ReadWrite, s, w.(turns := w.turns + more), offset, bytes)
            == o.(w := o.w.(turns := o.w.turns + more))
  {
    var p := SpanOf(g, offset, |bytes|).value;
    if p.skip == 0 && p.count * g.blockSize == |bytes| {
      WriteOnward(s, w, p.lba, p.count, g.blockSize, bytes, more);
    } else {
      SpanFits(g, offset, |bytes|);
      RewriteOnward(s, w, p, g.blockSize, bytes, more);
    }
  }

  /** The read and the write of a read-modify-write, one after the other. */
  lemma SectorsCanBeRewritten(g: Geometry, s: Sess, d: Device, log: seq<Exchange>, p: Span, base: nat, length: nat,
                              bytes: seq<byte>, rest: seq<Turn>)
    returns (turns: seq<Turn>)
    requires Between(s, d) && s.usable && FlatDisk.Fits(g, d)
    requires FlatDisk.Rewritable(p, g.blockSize, base, length, |bytes|) && base + length <= |d.disk|
    ensures var o := ReadModifyWrite(s, Wire(d, turns, log, true), p, g.blockSize, bytes);
            o.r.Ok? && o.w.lawful && o.w.turns == rest
  {
    var first := BlocksCanBeRead(s, d, log, p.lba, p.count, g.blockSize, []);
    var o := ReadBlocks(s, Wire(d, first, log, true), p.lba, p.count, g.blockSize);
    FlatDisk.ReadBlocksOnDevice(s, Wire(d, first, log, true), p.lba, p.count, g.blockSize);
    var sectors := Patch(o.r.value, p.skip, bytes);
    var second := BlocksCanBeWritten(o.s, o.w.dev, o.w.log, p.lba, p.count, g.blockSize, sectors, rest);
    turns := first + second;
    ReadOnward(s, Wire(d, first, log, true), p.lba, p.count, g.blockSize, second);
    assert o.w.(turns := [] + second) == Wire(o.w.dev, second, o.w.log, true);
  }
}
