/** What each operation puts on the wire, byte by byte, and what it then answers. */
module OnWire {
  import opened Bytes
  import opened Codec
  import opened Device
  import opened Bot
  import Soundness
  import opened ScsiSpec
  import opened RangeSpec

  function Weigh(a: byte, b: byte, c: byte, d: byte): int {
    a as int + 0x100 * b as int + 0x1_0000 * c as int + 0x100_0000 * d as int
  }

  /** The 31 bytes of a command block wrapper (section 5.1). */
  predicate WrapperBytes(b: seq<byte>, tag: u32, length: nat, incoming: bool, unit: lun, cdb: seq<byte>) {
    && |b| == 31 && b[0] == 0x55 && b[1] == 0x53 && b[2] == 0x42 && b[3] == 0x43
    && Weigh(b[4], b[5], b[6], b[7]) == tag && Weigh(b[8], b[9], b[10], b[11]) == length
    && b[12] == (if incoming then 0x80 else 0) && b[13] == unit && b[14] == |cdb|
    && |cdb| <= 16 && b[15..15 + |cdb|] == cdb && forall i :: 15 + |cdb| <= i < 31 ==> b[i] == 0
  }

  /** A READ or WRITE(10) inside a wrapper: opcode, sector number and count, most significant first. */
  predicate BlockBytes(b: seq<byte>, op: byte, lba: u32, count: u16) {
    && |b| == 31 && b[14] == 10 && b[15] == op && b[16] == 0 && Weigh(b[20], b[19], b[18], b[17]) == lba
    && b[21] == 0 && b[23] as int + 0x100 * b[22] as int == count && b[24] == 0
  }

  lemma LeBytes(n: u32)
    ensures var b := Le32(n); Weigh(b[0], b[1], b[2], b[3]) == n
    ensures var b := Be32(n); Weigh(b[3], b[2], b[1], b[0]) == n
  {
    Le32RoundTrip(n);
  }

  lemma EncodedWrapper(c: Cbw)
    requires WellFormed(c)
    ensures WrapperBytes(EncodeCbw(c), c.tag, c.length, c.incoming, c.lun, c.cdb)
  {
    var b := EncodeCbw(c);
    LeBytes(c.tag);
    LeBytes(c.length);
    assert b[4..8] == Le32(c.tag) && b[8..12] == Le32(c.length);
    assert b[4] == b[4..8][0] && b[5] == b[4..8][1] && b[6] == b[4..8][2] && b[7] == b[4..8][3];
    assert b[8] == b[8..12][0] && b[9] == b[8..12][1] && b[10] == b[8..12][2] && b[11] == b[8..12][3];
    assert b[15..15 + |c.cdb|] == c.cdb;
    CbwRoundTrip(c);
  }

  lemma EncodedBlock(b: seq<byte>, tag: u32, length: nat, incoming: bool, unit: lun, c: BlockCdb)
    requires WrapperBytes(b, tag, length, incoming, unit, EncodeBlock(c))
    ensures BlockBytes(b, c.op, c.lba, c.count)
  {
    var e := EncodeBlock(c);
    LeBytes(c.lba);
    Be16RoundTrip(c.count);
    assert forall i :: 0 <= i < 10 ==> b[15 + i] == b[15..25][i] == e[i];
    assert e[2..6] == Be32(c.lba) && e[7..9] == Be16(c.count);
    assert e[2] == e[2..6][0] && e[3] == e[2..6][1] && e[4] == e[2..6][2] && e[5] == e[2..6][3];
    assert e[7] == e[7..9][0] && e[8] == e[7..9][1];
    assert b[15] == e[0] && b[16] == e[1] && b[17] == e[2] && b[18] == e[3] && b[19] == e[4] && b[20] == e[5];
    assert b[21] == e[6] && b[22] == e[7] && b[23] == e[8] && b[24] == e[9];
  }

  // ----- One command -----

  /** What went out in these exchanges. */
  function Sent(log: seq<Exchange>): seq<seq<byte>> {
    if log == [] then []
    else
      var n := |log| - 1;
      Sent(log[..n]) + if log[n].request.Out? then [log[n].request.data] else []
  }

  /** What is new in a log. */
  function News(before: Wire, now: Wire): seq<Exchange>
    requires before.log <= now.log
  {
    now.log[|before.log|..]
  }

  /** Whatever the environment does first, the next exchange is the one asked for. */
  lemma {:induction false} DriveFirst(h: Host, w: Wire)
    requires Runnable(h) && !h.pc.Done?
    ensures var o := Drive(h, w); w.log <= o.1.log && |w.log| < |o.1.log| && o.1.log[|w.log|].request == Ask(h)
    decreases |w.turns|
  {
    if w.turns != [] {
      if w.turns[0].Moves? {
        DriveFirst(h, AfterMove(w));
      } else {
        var x := AfterReply(w, Ask(h));
        DriveGrows(Resume(h, w.turns[0].answer), x);
        assert x.log[|w.log|].request == Ask(h);
      }
    }
  }

  lemma {:induction false} DriveGrows(h: Host, w: Wire)
    requires Runnable(h)
    ensures w.log <= Drive(h, w).1.log
    decreases |w.turns|, if h.pc.Done? then 0 else 1
  {
    if !h.pc.Done? && w.turns != [] {
      if w.turns[0].Moves? {
        DriveGrows(h, AfterMove(w));
      } else {
        DriveGrows(Resume(h, w.turns[0].answer), AfterReply(w, Ask(h)));
      }
    }
  }

  lemma SentNothing(log: seq<Exchange>, x: Exchange)
    requires x.request.In?
    ensures Sent(log + [x]) == Sent(log)
  {
    assert (log + [x])[..|log|] == log;
  }

  /** After the wrapper a command without data to send only reads. */
  lemma {:induction false} DriveReads(h: Host, w: Wire, from: nat)
    requires Runnable(h) && h.outgoing == [] && (h.pc.ReadData? || h.pc.ReadStatus? || h.pc.Done?) && from <= |w.log|
    ensures w.log <= Drive(h, w).1.log && Sent(Drive(h, w).1.log[from..]) == Sent(w.log[from..])
    decreases |w.turns|, if h.pc.Done? then 0 else 1
  {
    if !h.pc.Done? {
      var a := if w.turns == [] || w.turns[0].Moves? then Dropped else w.turns[0].answer;
      var x := Exchange(Ask(h), a);
      if w.turns != [] && w.turns[0].Moves? {
        DriveReads(h, AfterMove(w), from);
      } else {
        assert (w.log + [x])[from..] == w.log[from..] + [x];
        SentNothing(w.log[from..], x);
        if w.turns != [] {
          DriveReads(Resume(h, a), AfterReply(w, Ask(h)), from);
        }
      }
    }
  }

  lemma {:induction false} DriveSends(h: Host, w: Wire)
    requires Runnable(h) && h.outgoing == [] && h.pc == SendCbw
    ensures w.log <= Drive(h, w).1.log && Sent(Drive(h, w).1.log[|w.log|..]) == [EncodeCbw(h.cbw)]
    decreases |w.turns|
  {
    var a := if w.turns == [] || w.turns[0].Moves? then Dropped else w.turns[0].answer;
    var x := Exchange(Ask(h), a);
    if w.turns != [] && w.turns[0].Moves? {
      DriveSends(h, AfterMove(w));
    } else {
      assert (w.log + [x])[|w.log|..] == [x] && [x][..0] == [];
      assert Sent([x]) == [EncodeCbw(h.cbw)];
      if w.turns != [] {
        DriveReads(Resume(h, a), AfterReply(w, Ask(h)), |w.log|);
      }
    }
  }

  /** The tag after this one. */
  function Following(tag: u32): u32 {
    (tag + 1) % 0x1_0000_0000
  }

  /** Which commands never reach the wire, and what they are answered. */
  function Refusal(s: Sess, cdb: seq<byte>, incoming: nat, outgoing: seq<byte>): Option<Error> {
    if !s.usable then Some(Retired)
    else if |cdb| == 0 || |cdb| > 16 || (incoming > 0 && |outgoing| > 0) then Some(Protocol(Shape))
    else if incoming > 0xffff_ffff || |outgoing| > 0xffff_ffff then Some(Protocol(TooLong))
    else None
  }

  /** The first new exchange sends this wrapper. */
  predicate Announces(w: Wire, o: Wire, tag: u32, length: u32, incoming: bool, unit: lun, cdb: seq<byte>) {
    && w.log <= o.log && News(w, o) != [] && News(w, o)[0].request.Out?
    && WrapperBytes(News(w, o)[0].request.data, tag, length, incoming, unit, cdb)
    && DecodeCbw(News(w, o)[0].request.data) == Some(Cbw(tag, length, incoming, unit, cdb))
  }

  lemma DriveAnnounces(h: Host, w: Wire)
    requires Runnable(h) && h.pc == SendCbw && h.cbw.lun <= 15
    ensures Announces(w, Drive(h, w).1, h.cbw.tag, h.cbw.length, h.cbw.incoming, h.cbw.lun, h.cbw.cdb)
    ensures News(w, Drive(h, w).1)[0].request.data == EncodeCbw(h.cbw)
  {
    DriveFirst(h, w);
    EncodedWrapper(h.cbw);
    CbwRoundTrip(h.cbw);
  }

  /** On any wire a command either is refused and touches nothing, or first sends one wrapper that names
      the next tag, the length and direction of its data, the session's own unit and its own bytes; and
      a command with no data to send sends nothing else. */
  lemma CommandOnWire(s: Sess, w: Wire, cdb: seq<byte>, incoming: nat, outgoing: seq<byte>)
    ensures var o := Command(s, w, cdb, incoming, outgoing);
            var r := Refusal(s, cdb, incoming, outgoing);
            if r.Some? then o == Run(s, w, Err(r.value))
            else
              && o.s.tag == Following(s.tag) && o.s.lun == s.lun
              && Announces(w, o.w, Following(s.tag), Max(incoming, |outgoing|), incoming > 0, s.lun, cdb)
              && (outgoing == [] ==> Sent(News(w, o.w)) == [News(w, o.w)[0].request.data])
  {
    if Refusal(s, cdb, incoming, outgoing).None? {
      CommandIsDrive(s, w, cdb, incoming, outgoing);
      var h := Start(NextTag(s.tag), s.lun, cdb, incoming, outgoing);
      DriveAnnounces(h, w);
      if outgoing == [] {
        DriveSends(h, w);
      }
    }
  }

  lemma CommandIsDrive(s: Sess, w: Wire, cdb: seq<byte>, incoming: nat, outgoing: seq<byte>)
    requires Refusal(s, cdb, incoming, outgoing).None?
    ensures var h, o := Start(NextTag(s.tag), s.lun, cdb, incoming, outgoing), Command(s, w, cdb, incoming, outgoing);
            && Runnable(h) && h.pc == SendCbw && h.outgoing == outgoing && o.w == Drive(h, w).1
            && o.s.tag == Following(s.tag) && o.s.lun == s.lun
            && h.cbw == Cbw(Following(s.tag), Max(incoming, |outgoing|), incoming > 0, s.lun, cdb)
  {
  }

  /** This command alone went on the wire. */
  predicate Alone(s: Sess, w: Wire, o: Wire, cdb: seq<byte>, incoming: nat) {
    && w.log <= o.log
    && var sent := Sent(News(w, o));
       |sent| == 1 && WrapperBytes(sent[0], Following(s.tag), incoming, incoming > 0, s.lun, cdb)
  }

  lemma AloneOnWire(s: Sess, w: Wire, cdb: seq<byte>, incoming: nat)
    requires s.usable && 0 < |cdb| <= 16 && incoming < 0x1_0000_0000
    ensures Alone(s, w, Command(s, w, cdb, incoming, []).w, cdb, incoming)
  {
    CommandOnWire(s, w, cdb, incoming, []);
  }

  // ----- The operations -----

  /** When READ and WRITE(10) can name a range of sectors. */
  predicate Nameable(lba: u32, count: u16, bs: u32) {
    count > 0 && PowerOfTwo(bs) && lba + count <= 0x1_0000_0000
  }

  /** A block read sends READ(10), 0x28, for these very sectors, and nothing else; what it cannot name
      it refuses without a transfer. */
  lemma ReadBlocksOnWire(s: Sess, w: Wire, lba: u32, count: u16, bs: u32)
    requires s.usable
    ensures var o := ReadBlocks(s, w, lba, count, bs);
            if !Nameable(lba, count, bs) then o == Run(s, w, Err(Protocol(BlockRange)))
            else if count * bs >= 0x1_0000_0000 then o == Run(s, w, Err(Protocol(TooLong)))
            else
              && w.log <= o.w.log && News(w, o.w) != [] && News(w, o.w)[0].request.Out?
              && var b := News(w, o.w)[0].request.data;
                 && Sent(News(w, o.w)) == [b] && BlockBytes(b, 0x28, lba, count) && b[12] == 0x80 && b[13] == s.lun
                 && Weigh(b[4], b[5], b[6], b[7]) == Following(s.tag) && Weigh(b[8], b[9], b[10], b[11]) == count * bs
  {
    if Nameable(lba, count, bs) {
      assert count * bs > 0 by { Scale(1, count, bs); }
      var c := BlockCdb(0x28, lba, count);
      CommandOnWire(s, w, EncodeBlock(c), count * bs, []);
      if count * bs < 0x1_0000_0000 {
        var b := News(w, ReadBlocks(s, w, lba, count, bs).w)[0].request.data;
        EncodedBlock(b, Following(s.tag), count * bs, true, s.lun, c);
      }
    }
  }

  /** A block write first sends WRITE(10), 0x2a, for these very sectors. */
  lemma WriteBlocksOnWire(s: Sess, w: Wire, lba: u32, count: u16, bs: u32, bytes: seq<byte>)
    requires s.usable
    ensures var o := WriteBlocks(s, w, lba, count, bs, bytes);
            if !Nameable(lba, count, bs) then o == Run(s, w, Err(Protocol(BlockRange)))
            else if |bytes| != count * bs then o == Run(s, w, Err(Protocol(WriteLength)))
            else if |bytes| >= 0x1_0000_0000 then o == Run(s, w, Err(Protocol(TooLong)))
            else
              && w.log <= o.w.log && News(w, o.w) != [] && News(w, o.w)[0].request.Out?
              && var b := News(w, o.w)[0].request.data;
                 && BlockBytes(b, 0x2a, lba, count) && b[12] == 0 && b[13] == s.lun
                 && Weigh(b[4], b[5], b[6], b[7]) == Following(s.tag) && Weigh(b[8], b[9], b[10], b[11]) == |bytes|
  {
    if Nameable(lba, count, bs) && |bytes| == count * bs {
      var c := BlockCdb(0x2a, lba, count);
      CommandOnWire(s, w, EncodeBlock(c), 0, bytes);
      if |bytes| < 0x1_0000_0000 {
        var b := News(w, WriteBlocks(s, w, lba, count, bs, bytes).w)[0].request.data;
        EncodedBlock(b, Following(s.tag), |bytes|, false, s.lun, c);
      }
    }
  }

  /** Eject is START STOP UNIT with LOEJ; once it succeeds the session transfers nothing more. */
  lemma EjectOnWire(s: Sess, w: Wire)
    requires s.usable
    ensures var o := Eject(s, w);
            && Alone(s, w, o.w, [0x1b, 0, 0, 0, 2, 0], 0)
            && (o.r.Ok? ==> !o.s.usable) && (o.s.usable <==> o.r == Err(CommandFailed))
  {
    AloneOnWire(s, w, [0x1b, 0, 0, 0, 2, 0], 0);
    var _ := Soundness.UsableIsReceipted(s, w, [0x1b, 0, 0, 0, 2, 0], 0, []);
  }

  /** A flush is SYNCHRONIZE CACHE(10), and leaves the session usable exactly when the device answered it. */
  lemma FlushOnWire(s: Sess, w: Wire)
    requires s.usable
    ensures var o := Flush(s, w);
            && Alone(s, w, o.w, [0x35, 0, 0, 0, 0, 0, 0, 0, 0, 0], 0)
            && (o.s.usable <==> o.r.Ok? || o.r == Err(CommandFailed))
  {
    AloneOnWire(s, w, [0x35, 0, 0, 0, 0, 0, 0, 0, 0, 0], 0);
    var _ := Soundness.UsableIsReceipted(s, w, [0x35, 0, 0, 0, 0, 0, 0, 0, 0, 0], 0, []);
  }

  /** The geometry is asked for with READ CAPACITY(10). */
  lemma GeometryOnWire(s: Sess, w: Wire)
    requires s.usable
    ensures Alone(s, w, ReadGeometry(s, w).w, [0x25, 0, 0, 0, 0, 0, 0, 0, 0, 0], 8)
  {
    AloneOnWire(s, w, [0x25, 0, 0, 0, 0, 0, 0, 0, 0, 0], 8);
  }

  // ----- Becoming ready -----

  /** Sense data, current or deferred bit apart from the code 0x70 set or not, of a UNIT ATTENTION that only
      says "powered on or reset" or "medium may have changed". */
  predicate NormalAttention(e: seq<byte>) {
    && |e| >= 14 && (e[0] == 0x70 || e[0] == 0xf0) && e[7] >= 6
    && (exists high: byte :: high <= 15 && e[2] == 16 * high + 6)
    && ((e[12] == 0x28 && e[13] == 0) || (e[12] == 0x29 && e[13] <= 7))
  }

  lemma AttentionIsNormal(e: seq<byte>)
    ensures ResetOrNewMedium(e) <==> NormalAttention(e)
  {
    if ResetOrNewMedium(e) {
      var high: byte := e[2] / 16;
      assert e[2] == 16 * high + 6;
    }
  }

  /** Becoming ready: TEST UNIT READY, and if the device refuses it, its sense data, and if that is a normal
      attention, TEST UNIT READY once more and nothing after. It succeeds exactly when the last of these
      commands is a TEST UNIT READY that did; every failure is the one the last command met. */
  lemma InitializeOnWire(s: Sess, w: Wire)
    requires s.usable
    ensures var o := InitializeReady(s, w);
            var t := Command(s, w, [0, 0, 0, 0, 0, 0], 0, []);
            if t.r != Err(CommandFailed) then
              Alone(s, w, o.w, [0, 0, 0, 0, 0, 0], 0) && o.s == t.s && o.w == t.w && SameEnd(o.r, t.r)
            else
              var q := Command(t.s, t.w, [3, 0, 0, 0, 18, 0], 18, []);
              && t.s.usable && Alone(s, w, t.w, [0, 0, 0, 0, 0, 0], 0) && Alone(t.s, t.w, q.w, [3, 0, 0, 0, 18, 0], 18)
              && if q.r.Err? then o.s == q.s && o.w == q.w && o.r == Err(q.r.error)
                 else if !NormalAttention(q.r.value) then o.s == q.s && o.w == q.w && o.r == Err(CommandFailed)
                 else
                   var u := Command(q.s, q.w, [0, 0, 0, 0, 0, 0], 0, []);
                   && q.s.usable && Alone(q.s, q.w, u.w, [0, 0, 0, 0, 0, 0], 0)
                   && o.s == u.s && o.w == u.w && SameEnd(o.r, u.r)
  {
    var t := Command(s, w, [0, 0, 0, 0, 0, 0], 0, []);
    AloneOnWire(s, w, [0, 0, 0, 0, 0, 0], 0);
    var _ := Soundness.UsableIsReceipted(s, w, [0, 0, 0, 0, 0, 0], 0, []);
    if t.r == Err(CommandFailed) {
      var q := Command(t.s, t.w, [3, 0, 0, 0, 18, 0], 18, []);
      AloneOnWire(t.s, t.w, [3, 0, 0, 0, 18, 0], 18);
      var _ := Soundness.UsableIsReceipted(t.s, t.w, [3, 0, 0, 0, 18, 0], 18, []);
      if q.r.Ok? {
        AttentionIsNormal(q.r.value);
        AloneOnWire(q.s, q.w, [0, 0, 0, 0, 0, 0], 0);
      }
    }
  }

  /** Success or the same failure. */
  predicate SameEnd(a: Result<()>, b: Result<seq<byte>>) {
    (a.Ok? <==> b.Ok?) && (a.Err? && b.Err? ==> a.error == b.error)
  }

  // ----- Byte ranges -----

  /** The first of these exchanges sends a command of this opcode for these sectors. */
  predicate Opens(news: seq<Exchange>, op: byte, lba: u32, count: u16) {
    news != [] && news[0].request.Out? && BlockBytes(news[0].request.data, op, lba, count)
  }

  /** A read-modify-write reads the sectors and then, only if that succeeded, writes the same ones. */
  predicate Rewrites(s: Sess, w: Wire, o: Run<()>, lba: u32, count: u16, bs: u32) {
    var r := ReadBlocks(s, w, lba, count, bs);
    && w.log <= r.w.log <= o.w.log && Opens(News(w, r.w), 0x28, lba, count) && |Sent(News(w, r.w))| == 1
    && (if r.r.Ok? then Opens(News(r.w, o.w), 0x2a, lba, count) else o == Run(r.s, r.w, Err(r.r.error)))
  }

  lemma RewriteOnWire(s: Sess, w: Wire, p: Span, bs: u32, bytes: seq<byte>)
    requires s.usable && Nameable(p.lba, p.count, bs) && p.skip + |bytes| <= p.count * bs < 0x1_0000_0000
    ensures Rewrites(s, w, ReadModifyWrite(s, w, p, bs, bytes), p.lba, p.count, bs)
  {
    var r := ReadBlocks(s, w, p.lba, p.count, bs);
    ReadBlocksOnWire(s, w, p.lba, p.count, bs);
    if r.r.Ok? {
      BlockLength(s, w, p.lba, p.count, bs);
      ReadLeavesUsable(s, w, p.lba, p.count, bs);
      WriteBlocksOnWire(r.s, r.w, p.lba, p.count, bs, Patch(r.r.value, p.skip, bytes));
    }
  }

  /** An accepted write goes out as one WRITE(10) when it is whole sectors, and otherwise as a READ(10) of the
      same sectors and then, only if that succeeded, a WRITE(10) of them. Both name the least cover. */
  lemma WriteRangeOnWire(g: Geometry, s: Sess, w: Wire, offset: u64, bytes: seq<byte>)
    requires s.usable && Supported(g) && SpanOf(g, offset, |bytes|).Ok?
    ensures var o, bs := WriteRange(g, ReadWrite, s, w, offset, bytes), g.blockSize;
            var lba, count := offset / bs, Cover(bs, offset, |bytes|);
            && lba < 0x1_0000_0000 && count < 0x1_0000
            && if offset % bs == 0 && |bytes| % bs == 0 then w.log <= o.w.log && Opens(News(w, o.w), 0x2a, lba, count)
               else Rewrites(s, w, o, lba, count, bs)
  {
    var p, bs := SpanOf(g, offset, |bytes|).value, g.blockSize;
    SpanCasts(g, offset, |bytes|);
    SpanUsable(g, offset, |bytes|, 0x2a);
    SpanNameable(g, offset, |bytes|);
    WholeSectors(bs, offset, |bytes|);
    if p.skip == 0 && p.count * bs == |bytes| {
      WriteBlocksOnWire(s, w, p.lba, p.count, bs, bytes);
    } else {
      RewriteOnWire(s, w, p, bs, bytes);
    }
  }

  /** An accepted read is one READ(10) of the least cover. */
  lemma ReadRangeOnWire(g: Geometry, s: Sess, w: Wire, offset: u64, length: nat)
    requires s.usable && Supported(g) && SpanOf(g, offset, length).Ok?
    ensures var o := ReadRange(g, s, w, offset, length);
            var lba, count := offset / g.blockSize, Cover(g.blockSize, offset, length);
            && lba < 0x1_0000_0000 && count < 0x1_0000 && w.log <= o.w.log
            && Opens(News(w, o.w), 0x28, lba, count) && |Sent(News(w, o.w))| == 1
  {
    var p := SpanOf(g, offset, length).value;
    SpanCasts(g, offset, length);
    SpanUsable(g, offset, length, 0x28);
    SpanNameable(g, offset, length);
    ReadBlocksOnWire(s, w, p.lba, p.count, g.blockSize);
  }

  lemma SpanNameable(g: Geometry, offset: u64, length: nat)
    requires Supported(g) && SpanOf(g, offset, length).Ok?
    ensures var p := SpanOf(g, offset, length).value; Nameable(p.lba, p.count, g.blockSize)
  {
    SpanUsable(g, offset, length, READ10);
  }

  /** A range is whole sectors exactly when its cover is no longer than it is. */
  lemma WholeSectors(bs: nat, offset: nat, length: nat)
    requires bs > 0 && length > 0
    ensures offset % bs == 0 && Cover(bs, offset, length) * bs == length <==> offset % bs == 0 && length % bs == 0
  {
    CoverBytes(bs, offset, length);
    var n := Cover(bs, offset, length);
    if offset % bs == 0 {
      if length % bs == 0 {
        MultipleAbove(n, length, bs);
      }
      if n * bs == length {
        MultipleOf(n, bs);
      }
    }
  }

  lemma MultipleOf(n: nat, bs: nat)
    requires bs > 0
    ensures n * bs % bs == 0
  {
    FloorBounds(n * bs, bs);
    Scale(n * bs / bs + 1, n, bs);
    Scale(n + 1, n * bs / bs, bs);
  }

  /** The least multiple not below a multiple is that one. */
  lemma MultipleAbove(n: nat, length: nat, bs: nat)
    requires bs > 0 && length % bs == 0 && length <= n * bs < length + bs
    ensures n * bs == length
  {
    var k := length / bs;
    FloorBounds(length, bs);
    assert (k + 1) * bs == length + bs;
    Scale(k + 1, n, bs);
    Scale(n, k, bs);
  }

  lemma ReadLeavesUsable(s: Sess, w: Wire, lba: u32, count: u16, bs: u32)
    requires s.usable && Nameable(lba, count, bs) && ReadBlocks(s, w, lba, count, bs).r.Ok?
    ensures ReadBlocks(s, w, lba, count, bs).s.usable
  {
    var cdb := EncodeBlock(BlockCdb(READ10, lba, count));
    CommandOnWire(s, w, cdb, count * bs, []);
    var _ := Soundness.UsableIsReceipted(s, w, cdb, count * bs, []);
  }
}
