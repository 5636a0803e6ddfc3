/** What one command means on a conforming device: framing lockstep, exact data, confined stores. */
module Lockstep {
  import opened Bytes
  import opened Codec
  import opened Device
  import opened Bot

  // ----- Induction over a drive -----

  /** A relation of host and device that every lawful move, every lawful answer and every drop
      keeps holds at the end of every lawful drive. */
  lemma {:induction false} DriveInduction(inv: (Host, Device) -> bool, h: Host, w: Wire)
    requires forall x, d, e | inv(x, d) && WellFormed(d.cmd) && Acts(d, e) :: inv(x, e)
    requires forall x, d, a, e | inv(x, d) && Runnable(x) && !x.pc.Done? && Answers(d, Ask(x), a, e) ::
               inv(Resume(x, a), e)
    requires forall x, d | inv(x, d) && Runnable(x) && !x.pc.Done? :: inv(Resume(x, Dropped), d)
    requires Runnable(h) && inv(h, w.dev) && Drive(h, w).1.lawful
    ensures inv(Drive(h, w).0, Drive(h, w).1.dev)
    decreases |w.turns|, if h.pc.Done? then 0 else 1
  {
    if !h.pc.Done? && w.turns != [] {
      if w.turns[0].Moves? {
        LawfulSoFar(h, AfterMove(w));
        DriveInduction(inv, h, AfterMove(w));
      } else {
        var h', w' := Resume(h, w.turns[0].answer), AfterReply(w, Ask(h));
        LawfulSoFar(h', w');
        DriveInduction(inv, h', w');
      }
    }
  }

  lemma {:induction false} LawfulSoFar(h: Host, w: Wire)
    requires Runnable(h)
    ensures Drive(h, w).1.lawful ==> w.lawful
    decreases |w.turns|, if h.pc.Done? then 0 else 1
  {
    if !h.pc.Done? && w.turns != [] {
      if w.turns[0].Moves? {
        LawfulSoFar(h, AfterMove(w));
      } else {
        LawfulSoFar(Resume(h, w.turns[0].answer), AfterReply(w, Ask(h)));
      }
    }
  }

  // ----- First invariant: byte accounting and framing -----

  /** The status block of a device reads as its status, for every command length. */
  predicate Stamped(d: Device)
    requires d.status.Some?
  {
    forall length: u32 :: Verdict13(d.csw, d.cmd.tag, length) ==
      (var s := d.status.value;
       if s.residue > length then Uncertain(Residue)
       else if s.code == 0 && s.residue == 0 then Passed
       else if s.code == 1 then Refuses
       else Uncertain(Phase))
  }

  lemma StampedByEncoding(d: Device)
    requires d.status.Some? && d.csw == EncodeCsw(d.cmd.tag, d.status.value.residue, d.status.value.code)
    ensures Stamped(d)
  {
    CswRoundTrip(d.cmd.tag, d.status.value.residue, d.status.value.code);
  }

  predicate Accounted(d: Device) {
    && WellFormed(d.cmd)
    && |d.sent| <= (if d.cmd.incoming then d.cmd.length else 0)
    && |d.got| <= (if d.cmd.incoming then 0 else d.cmd.length)
    && d.taken <= |Stream(d)|
    && (if d.status.Some? then |d.csw| == 13 && Stamped(d) else d.csw == [])
  }

  predicate Shaped(h: Host) {
    && Runnable(h) && h.cbw.length == Max(h.incoming, |h.outgoing|) && h.cbw.incoming == (h.incoming > 0)
    && (h.incoming > 0 ==> h.outgoing == [])
  }

  /** The device is on this command, and the host has taken exactly what it holds. */
  predicate Serving(h: Host, d: Device) {
    && d.cmd == h.cbw && d.taken == |h.data| && h.data <= Stream(d) && !h.usable
    && (d.halted <==> d.status.Some? && !d.cmd.incoming && |d.got| < d.cmd.length)
  }

  predicate Tracks(h: Host, d: Device) {
    && Shaped(h) && Accounted(d)
    && match h.pc
       case SendCbw => Synced(d) && !h.usable && h.data == []
       case ReadData => Serving(h, d) && h.incoming > 0
       case WriteData(at) => Serving(h, d) && h.incoming == 0 && h.data == [] && d.got == h.outgoing[..at]
       case ReadStatus => Serving(h, d) && |h.data| == h.incoming && d.got == h.outgoing
       case Done(r) =>
         && (h.usable ==> Synced(d))
         && (r.Ok? ==> h.usable && d.cmd == h.cbw && d.sent == r.value && |r.value| == h.incoming
                       && d.got == h.outgoing && d.status == Some(Status(0, 0)))
         && (h.usable <==> r.Ok? || r == Err(CommandFailed))
  }

  lemma TracksMove(h: Host, d: Device, e: Device)
    requires Tracks(h, d) && Acts(d, e)
    ensures Tracks(h, e)
  {
    if Finishes(d, e) {
      StampedByEncoding(e);
    }
    assert Stream(d) <= Stream(e);
  }

  /** Taking the status: `incoming + 13` bytes have left a pipe that began empty, and the device
      puts at most that many on it, so no byte of either is misplaced. */
  lemma StatusTaken(h: Host, d: Device, bytes: seq<byte>, e: Device)
    requires Accounted(d) && Serving(h, d) && Shaped(h) && |h.data| == h.incoming && |bytes| == 13
    requires AnswersIn(d, Got(bytes), e)
    ensures d.status.Some? && h.data == d.sent && bytes == d.csw && e.taken == |Stream(e)|
  {
    assert Stream(d)[..d.taken] == d.sent;
  }

  lemma TracksStatus(h: Host, d: Device, a: Answer, e: Device)
    requires Tracks(h, d) && h.pc.ReadStatus? && AnswersIn(d, a, e)
    ensures Tracks(Resume(h, a), e)
  {
    if a.Got? && |a.bytes| == 13 {
      StatusTaken(h, d, a.bytes, e);
      var s := d.status.value;
    }
  }

  lemma TracksRead(h: Host, d: Device, a: Answer, e: Device)
    requires Tracks(h, d) && h.pc.ReadData? && AnswersIn(d, a, e)
    ensures Tracks(Resume(h, a), e)
  {
    if a.Got? {
      assert h.data + a.bytes <= Stream(e);
    }
  }

  lemma TracksWrite(h: Host, d: Device, a: Answer, e: Device)
    requires Tracks(h, d) && h.pc.WriteData? && Answers(d, Ask(h), a, e)
    ensures Tracks(Resume(h, a), e)
  {
    if a.Moved? && a.count == |Piece(h)| {
      assert d.got + Piece(h) <= h.outgoing;
      assert e.got == h.outgoing[..h.pc.at + a.count];
    }
  }

  lemma TracksCbw(h: Host, d: Device, a: Answer, e: Device)
    requires Tracks(h, d) && h.pc.SendCbw? && AnswersCbw(d, Some(h.cbw), 31, a, e)
    ensures Tracks(Resume(h, a), e)
  {
  }

  lemma TracksAnswer(h: Host, d: Device, a: Answer, e: Device)
    requires Tracks(h, d) && !h.pc.Done? && Answers(d, Ask(h), a, e)
    ensures Tracks(Resume(h, a), e)
  {
    match h.pc {
      case SendCbw =>
        CbwRoundTrip(h.cbw);
        TracksCbw(h, d, a, e);
      case ReadData => TracksRead(h, d, a, e);
      case WriteData(_) => TracksWrite(h, d, a, e);
      case ReadStatus => TracksStatus(h, d, a, e);
    }
  }

  // ----- Second invariant: what the status vouches for, and which bytes may change -----

  /** The bytes a command may store. */
  function Content(c: Cbw, outgoing: seq<byte>): seq<byte> {
    if IsWrite(c) then outgoing else []
  }

  /** The disk is `before` except for a confined part of this content at `base`, and no store of
      anything else is under way: so it stays, whatever the device does next on its own. */
  predicate Settling(d: Device, before: seq<byte>, base: nat, content: seq<byte>) {
    && Confined(before, d.disk, base, content)
    && (d.status.None? && IsWrite(d.cmd) ==> d.got <= content && (d.got != [] ==> Base(d) == base))
  }

  predicate Vouched(d: Device) {
    WellFormed(d.cmd) && (d.status.Some? ==> Honest(d, d.status.value))
  }

  /** The parts of the host and device that one command never changes. */
  predicate SameCommand(h: Host, d: Device, start: Host, blockSize: nat) {
    h.cbw == start.cbw && h.incoming == start.incoming && h.outgoing == start.outgoing && d.blockSize == blockSize
  }

  predicate Effects(h: Host, d: Device, start: Host, blockSize: nat, before: seq<byte>) {
    && Tracks(h, d) && Vouched(d) && SameCommand(h, d, start, blockSize)
    && Settling(d, before, BaseOf(start.cbw, blockSize), Content(start.cbw, start.outgoing))
    && (h.pc.SendCbw? ==> d.disk == before)
  }

  lemma SettlingStore(d: Device, e: Device, before: seq<byte>, base: nat, content: seq<byte>)
    requires Settling(d, before, base, content) && Stores(d, e)
    ensures Settling(e, before, base, content)
  {
    forall p | 0 <= p < |before|
      ensures e.disk[p] == before[p] || (base <= p < base + |content| && e.disk[p] == content[p - base])
    {
      if e.disk[p] != d.disk[p] {
        assert d.got[p - base] == content[p - base];
      }
    }
  }

  /** Moves of the device alone never leave the confinement: it outlives the host. */
  lemma SettlingMove(d: Device, e: Device, before: seq<byte>, base: nat, content: seq<byte>)
    requires Settling(d, before, base, content) && WellFormed(d.cmd) && Acts(d, e)
    ensures Settling(e, before, base, content)
  {
    if Stores(d, e) {
      SettlingStore(d, e, before, base, content);
    }
  }

  lemma EffectsMove(h: Host, d: Device, e: Device, start: Host, blockSize: nat, before: seq<byte>)
    requires Effects(h, d, start, blockSize, before) && Acts(d, e)
    ensures Effects(h, e, start, blockSize, before)
  {
    TracksMove(h, d, e);
    SettlingMove(d, e, before, BaseOf(start.cbw, blockSize), Content(start.cbw, start.outgoing));
  }

  lemma VouchedCbw(h: Host, d: Device, a: Answer, e: Device, before: seq<byte>)
    requires Tracks(h, d) && h.pc.SendCbw? && AnswersCbw(d, Some(h.cbw), 31, a, e)
    requires Vouched(d) && Settling(d, before, BaseOf(h.cbw, d.blockSize), Content(h.cbw, h.outgoing))
    ensures Vouched(e) && Settling(e, before, BaseOf(h.cbw, d.blockSize), Content(h.cbw, h.outgoing))
  {
  }

  lemma VouchedWrite(h: Host, d: Device, a: Answer, e: Device, before: seq<byte>)
    requires Tracks(h, d) && h.pc.WriteData? && Answers(d, Ask(h), a, e)
    requires Vouched(d) && Settling(d, before, BaseOf(h.cbw, d.blockSize), Content(h.cbw, h.outgoing))
    ensures Vouched(e) && Settling(e, before, BaseOf(h.cbw, d.blockSize), Content(h.cbw, h.outgoing))
  {
    assert d.got + Piece(h) <= h.outgoing;
  }

  lemma VouchedAnswer(h: Host, d: Device, a: Answer, e: Device, before: seq<byte>)
    requires Tracks(h, d) && !h.pc.Done? && Answers(d, Ask(h), a, e)
    requires Vouched(d) && Settling(d, before, BaseOf(h.cbw, d.blockSize), Content(h.cbw, h.outgoing))
    ensures e.blockSize == d.blockSize
    ensures Vouched(e) && Settling(e, before, BaseOf(h.cbw, d.blockSize), Content(h.cbw, h.outgoing))
  {
    match h.pc {
      case SendCbw =>
        CbwRoundTrip(h.cbw);
        VouchedCbw(h, d, a, e, before);
      case WriteData(_) => VouchedWrite(h, d, a, e, before);
      case _ =>
    }
  }

  lemma EffectsAnswer(h: Host, d: Device, a: Answer, e: Device, start: Host, blockSize: nat, before: seq<byte>)
    requires Effects(h, d, start, blockSize, before) && !h.pc.Done? && Answers(d, Ask(h), a, e)
    ensures Effects(Resume(h, a), e, start, blockSize, before)
  {
    TracksAnswer(h, d, a, e);
    VouchedAnswer(h, d, a, e, before);
  }

  lemma EffectsDrive(h: Host, w: Wire)
    requires Effects(h, w.dev, h, w.dev.blockSize, w.dev.disk) && Drive(h, w).1.lawful
    ensures var o := Drive(h, w); Effects(o.0, o.1.dev, h, w.dev.blockSize, w.dev.disk)
  {
    var inv := (x, d) => Effects(x, d, h, w.dev.blockSize, w.dev.disk);
    forall x, d, e | inv(x, d) && WellFormed(d.cmd) && Acts(d, e)
      ensures inv(x, e)
    {
      EffectsMove(x, d, e, h, w.dev.blockSize, w.dev.disk);
    }
    forall x, d, a, e | inv(x, d) && Runnable(x) && !x.pc.Done? && Answers(d, Ask(x), a, e)
      ensures inv(Resume(x, a), e)
    {
      EffectsAnswer(x, d, a, e, h, w.dev.blockSize, w.dev.disk);
    }
    DriveInduction(inv, h, w);
  }

  // ----- One command on a conforming device -----

  /** What the host may rely on between commands. */
  predicate Between(s: Sess, d: Device) {
    Accounted(d) && Vouched(d) && (s.usable ==> Synced(d))
  }

  /** The data and the stored bytes a successful command stands for. */
  predicate Performed(c: Cbw, data: seq<byte>, outgoing: seq<byte>, d: Device)
    requires WellFormed(c)
  {
    && d.cmd == c && d.sent == data && |data| == (if c.incoming then c.length else 0) && (c.incoming ==> Truthful(d))
    && (IsWrite(c) ==> BaseOf(c, d.blockSize) + |outgoing| <= |d.disk|
                       && d.disk[BaseOf(c, d.blockSize)..BaseOf(c, d.blockSize) + |outgoing|] == outgoing)
  }

  /** Under cancellation at any await, failed and short transfers, early status and short data:
      a usable session is framed; success returns exactly the bytes the device sent and vouched
      for; and whatever happened, and whatever the device still does, only this command's own
      range may hold new bytes. */
  lemma CommandOnDevice(s: Sess, w: Wire, cdb: seq<byte>, incoming: nat, outgoing: seq<byte>)
    requires Between(s, w.dev)
    requires Command(s, w, cdb, incoming, outgoing).w.lawful
    ensures var o := Command(s, w, cdb, incoming, outgoing);
            Between(o.s, o.w.dev) && o.w.dev.blockSize == w.dev.blockSize
    ensures var o := Command(s, w, cdb, incoming, outgoing);
            !Refused(s, cdb, incoming, outgoing) ==>
              var c := Start(NextTag(s.tag), s.lun, cdb, incoming, outgoing).cbw;
              && Settling(o.w.dev, w.dev.disk, BaseOf(c, w.dev.blockSize), Content(c, outgoing))
              && (o.r.Ok? ==> Performed(c, o.r.value, outgoing, o.w.dev))
    ensures var o := Command(s, w, cdb, incoming, outgoing);
            o.s.usable <==>
              s.usable && (o.r.Ok? || o.r == Err(CommandFailed) || Refused(s, cdb, incoming, outgoing))
  {
    if !Refused(s, cdb, incoming, outgoing) {
      var h := Start(NextTag(s.tag), s.lun, cdb, incoming, outgoing);
      EffectsDrive(h, w);
    }
  }
}
