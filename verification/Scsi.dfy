/** SCSI operations over one Bulk-Only session: what each does to session and wire. */
module ScsiSpec {
  import opened Bytes
  import opened Codec
  import opened Bot
  import Soundness

  const TEST_UNIT_READY: seq<byte> := [0, 0, 0, 0, 0, 0]
  const REQUEST_SENSE: seq<byte> := [3, 0, 0, 0, 18, 0]
  const EJECT: seq<byte> := [0x1b, 0, 0, 0, 2, 0]
  const READ_CAPACITY: seq<byte> := [0x25, 0, 0, 0, 0, 0, 0, 0, 0, 0]
  const SYNCHRONIZE_CACHE: seq<byte> := [0x35, 0, 0, 0, 0, 0, 0, 0, 0, 0]

  function Keep<T, U>(o: Run<T>, e: Error): Run<U> {
    Run(o.s, o.w, Err(e))
  }

  function Unit(o: Run<seq<byte>>): Run<()> {
    if o.r.Ok? then Run(o.s, o.w, Ok(())) else Keep(o, o.r.error)
  }

  function TestUnitReady(s: Sess, w: Wire): Run<()> {
    Unit(Command(s, w, TEST_UNIT_READY, 0, []))
  }

  /** Fixed-format current UNIT ATTENTION for power-on, reset or medium change, nothing else. */
  predicate ResetOrNewMedium(sense: seq<byte>) {
    && |sense| >= 14 && sense[0] % 128 == 0x70 && sense[7] >= 6 && sense[2] % 16 == 6
    && ((sense[12] == 0x28 && sense[13] == 0) || (sense[12] == 0x29 && sense[13] <= 7))
  }

  function InitializeReady(s: Sess, w: Wire): Run<()> {
    var t := TestUnitReady(s, w);
    if t.r != Err(CommandFailed) then t
    else
      var q := Command(t.s, t.w, REQUEST_SENSE, 18, []);
      if q.r.Err? then Keep(q, q.r.error)
      else if !ResetOrNewMedium(q.r.value) then Keep(q, CommandFailed)
      else TestUnitReady(q.s, q.w)
  }

  function Eject(s: Sess, w: Wire): Run<()> {
    var o := Unit(Command(s, w, EJECT, 0, []));
    if o.r.Ok? then o.(s := o.s.(usable := false)) else o
  }

  function Flush(s: Sess, w: Wire): Run<()> {
    Unit(Command(s, w, SYNCHRONIZE_CACHE, 0, []))
  }

  datatype Geometry = Geometry(blocks: nat, blockSize: nat)

  predicate PowerOfTwo(n: nat)
  {
    n == 1 || (n > 1 && n % 2 == 0 && PowerOfTwo(n / 2))
  }

  function ParseCapacity(reply: seq<byte>): Result<Geometry>
    requires |reply| == 8
  {
    var last, size := FromBe32(reply[..4]), FromBe32(reply[4..]);
    if last == 0xffff_ffff || size == 0 || !PowerOfTwo(size) then Err(Protocol(Capacity))
    else Ok(Geometry(last + 1, size))
  }

  function ReadGeometry(s: Sess, w: Wire): Run<Geometry> {
    var o := Command(s, w, READ_CAPACITY, 8, []);
    if o.r.Err? then Keep(o, o.r.error)
    else
      Soundness.ReplyLength(s, w, READ_CAPACITY, 8, []);
      Run(o.s, o.w, ParseCapacity(o.r.value))
  }

  function BlockCommand(op: byte, lba: u32, count: u16, blockSize: u32): Result<(seq<byte>, nat)> {
    if count == 0 || blockSize == 0 || !PowerOfTwo(blockSize) || lba + count - 1 >= 0x1_0000_0000 then
      Err(Protocol(BlockRange))
    else Ok((EncodeBlock(BlockCdb(op, lba, count)), count * blockSize))
  }

  function ReadBlocks(s: Sess, w: Wire, lba: u32, count: u16, blockSize: u32): Run<seq<byte>> {
    var b := BlockCommand(READ10, lba, count, blockSize);
    if b.Err? then Run(s, w, Err(b.error)) else Command(s, w, b.value.0, b.value.1, [])
  }

  lemma BlockLength(s: Sess, w: Wire, lba: u32, count: u16, blockSize: u32)
    ensures var o := ReadBlocks(s, w, lba, count, blockSize); o.r.Ok? ==> |o.r.value| == count * blockSize
  {
    var b := BlockCommand(READ10, lba, count, blockSize);
    if b.Ok? {
      Soundness.ReplyLength(s, w, b.value.0, b.value.1, []);
    }
  }

  function WriteBlocks(s: Sess, w: Wire, lba: u32, count: u16, blockSize: u32, bytes: seq<byte>): Run<()> {
    var b := BlockCommand(WRITE10, lba, count, blockSize);
    if b.Err? then Run(s, w, Err(b.error))
    else if |bytes| != b.value.1 then Run(s, w, Err(Protocol(WriteLength)))
    else Unit(Command(s, w, b.value.0, 0, bytes))
  }

}

/** The objects that do it: a transport, and the session driving it. */
module ScsiObjects {
  import opened Bytes
  import opened Codec
  import opened Device
  import opened Bot
  import Soundness
  import opened ScsiSpec

  /** A bulk transport whose future is fixed by its turns. */
  class Link {
    var dev: Device
    var turns: seq<Turn>
    var log: seq<Exchange>
    var lawful: bool

    function V(): Wire
      reads this
    {
      Wire(dev, turns, log, lawful)
    }

    constructor (w: Wire)
      ensures V() == w
    {
      dev, turns, log, lawful := w.dev, w.turns, w.log, w.lawful;
    }

    method Transfer(r: Request) returns (a: Answer)
      modifies this
      ensures (a, V()) == Await(old(V()), r)
    {
      while turns != [] && turns[0].Moves?
        invariant Await(V(), r) == Await(old(V()), r)
        decreases |turns|
      {
        var next := turns[0].next;
        lawful := lawful && WellFormed(dev.cmd) && Acts(dev, next);
        dev, turns := next, turns[1..];
      }
      if turns == [] {
        a := Dropped;
      } else {
        a := turns[0].answer;
        lawful := lawful && Answers(dev, r, a, turns[0].next);
        dev, turns := turns[0].next, turns[1..];
      }
      log := log + [Exchange(r, a)];
    }
  }

  /** A transfer that did not complete, as the error the operation ends with. */
  function Broken(a: Answer): Error {
    if a.Dropped? then Cancelled else Usb
  }

  class Scsi {
    const io: Link
    var tag: u32
    const unit: lun
    var usable: bool

    function S(): Sess
      reads this
    {
      Sess(tag, unit, usable)
    }

    constructor (io: Link, unit: lun)
      ensures this.io == io && S() == Sess(0, unit, true)
    {
      this.io, this.tag, this.unit, this.usable := io, 0, unit, true;
    }

    /** The rest of a command is over: the drive from `h` has reached its end here. */
    ghost predicate Ended(h: Host, w: Wire, e: Error)
      requires Runnable(h)
      reads io
    {
      Drive(h, w).0.pc == Done(Err(e)) && Drive(h, w).0.usable == h.usable && Drive(h, w).1 == io.V()
    }

    method ReceiveData(incoming: nat, ghost h: Host) returns (r: Result<seq<byte>>)
      requires Runnable(h) && h.pc.ReadData? && h.data == [] && h.incoming == incoming
      modifies io
      ensures r.Ok? ==> Drive(h, old(io.V())) == Drive(h.(pc := ReadStatus, data := r.value), io.V())
      ensures r.Err? ==> Ended(h, old(io.V()), r.error)
    {
      var data: seq<byte> := [];
      ghost var x := h;
      while |data| < incoming
        invariant |data| <= incoming
        invariant x == h.(pc := if |data| < incoming then ReadData else ReadStatus, data := data)
        invariant Drive(x, io.V()) == Drive(h, old(io.V()))
      {
        DriveAwait(x, io.V());
        var a := io.Transfer(In(Min(incoming - |data|, CHUNK)));
        x := Resume(x, a);
        if !a.Got? {
          return Err(Broken(a));
        }
        if a.bytes == [] || |a.bytes| > incoming - |data| {
          return Err(Protocol(DataStage));
        }
        data := data + a.bytes;
      }
      return Ok(data);
    }

    method SendData(outgoing: seq<byte>, ghost h: Host) returns (r: Result<()>)
      requires Runnable(h) && h.pc == WriteData(0) && h.outgoing == outgoing
      modifies io
      ensures r.Ok? ==> Drive(h, old(io.V())) == Drive(h.(pc := ReadStatus), io.V())
      ensures r.Err? ==> Ended(h, old(io.V()), r.error)
    {
      var at := 0;
      ghost var x := h;
      while at < |outgoing|
        invariant at <= |outgoing|
        invariant x == h.(pc := if at < |outgoing| then WriteData(at) else ReadStatus)
        invariant Drive(x, io.V()) == Drive(h, old(io.V()))
      {
        var chunk := outgoing[at..Min(at + CHUNK, |outgoing|)];
        DriveAwait(x, io.V());
        var a := io.Transfer(Out(chunk));
        x := Resume(x, a);
        if !a.Moved? {
          return Err(Broken(a));
        }
        if a.count != |chunk| {
          return Err(Protocol(ShortWrite));
        }
        at := at + |chunk|;
      }
      return Ok(());
    }

    method TakeStatus(cbw: Cbw, data: seq<byte>, ghost h: Host) returns (r: Result<seq<byte>>)
      requires Runnable(h) && h.pc.ReadStatus? && h.cbw == cbw && h.data == data && !h.usable && !usable
      modifies io, this`usable
      ensures (Done(r), usable, io.V()) == (var o := Drive(h, old(io.V())); (o.0.pc, o.0.usable, o.1))
    {
      DriveAwait(h, io.V());
      var a := io.Transfer(In(13));
      if !a.Got? {
        return Err(Broken(a));
      }
      if !ValidCsw(a.bytes, cbw.tag) {
        return Err(Protocol(StatusBlock));
      }
      var residue := FromLe32(a.bytes[8..12]);
      if residue > cbw.length {
        return Err(Protocol(Residue));
      }
      if a.bytes[12] == 0 && residue == 0 {
        usable := true;
        return Ok(data);
      } else if a.bytes[12] == 1 {
        usable := true;
        return Err(CommandFailed);
      }
      return Err(Protocol(Phase));
    }

    method Command(cdb: seq<byte>, incoming: nat, outgoing: seq<byte>) returns (r: Result<seq<byte>>)
      modifies this, io
      ensures Run(S(), io.V(), r) == Bot.Command(old(S()), old(io.V()), cdb, incoming, outgoing)
    {
      if !usable {
        return Err(Retired);
      }
      if cdb == [] || |cdb| > 16 || (incoming > 0 && outgoing != []) {
        return Err(Protocol(Shape));
      }
      if Max(incoming, |outgoing|) >= 0x1_0000_0000 {
        return Err(Protocol(TooLong));
      }
      tag := NextTag(tag);
      var cbw := Cbw(tag, Max(incoming, |outgoing|), incoming > 0, unit, cdb);
      // Before the first await: dropping the future retires the session.
      usable := false;
      ghost var h := Start(tag, unit, cdb, incoming, outgoing);
      DriveAwait(h, io.V());
      var a := io.Transfer(Out(EncodeCbw(cbw)));
      h := Resume(h, a);
      if !a.Moved? {
        return Err(Broken(a));
      }
      if a.count != 31 {
        return Err(Protocol(ShortCbw));
      }
      var data: seq<byte> := [];
      if incoming > 0 {
        var got := ReceiveData(incoming, h);
        if got.Err? {
          return Err(got.error);
        }
        data := got.value;
      } else if outgoing != [] {
        var sent := SendData(outgoing, h);
        if sent.Err? {
          return Err(sent.error);
        }
      }
      h := h.(pc := ReadStatus, data := data);
      r := TakeStatus(cbw, data, h);
    }

    method TestUnitReady() returns (r: Result<()>)
      modifies this, io
      ensures Run(S(), io.V(), r) == ScsiSpec.TestUnitReady(old(S()), old(io.V()))
    {
      var o := Command(TEST_UNIT_READY, 0, []);
      r := if o.Ok? then Ok(()) else Err(o.error);
    }

    method InitializeReady() returns (r: Result<()>)
      modifies this, io
      ensures Run(S(), io.V(), r) == ScsiSpec.InitializeReady(old(S()), old(io.V()))
    {
      r := TestUnitReady();
      if r == Err(CommandFailed) {
        var sense := Command(REQUEST_SENSE, 18, []);
        if sense.Err? {
          return Err(sense.error);
        }
        if !ResetOrNewMedium(sense.value) {
          return Err(CommandFailed);
        }
        r := TestUnitReady();
      }
    }

    method Eject() returns (r: Result<()>)
      modifies this, io
      ensures Run(S(), io.V(), r) == ScsiSpec.Eject(old(S()), old(io.V()))
    {
      var o := Command(EJECT, 0, []);
      if o.Err? {
        return Err(o.error);
      }
      usable := false;
      return Ok(());
    }

    method Flush() returns (r: Result<()>)
      modifies this, io
      ensures Run(S(), io.V(), r) == ScsiSpec.Flush(old(S()), old(io.V()))
    {
      var o := Command(SYNCHRONIZE_CACHE, 0, []);
      r := if o.Ok? then Ok(()) else Err(o.error);
    }

    method ReadGeometry() returns (r: Result<Geometry>)
      modifies this, io
      ensures Run(S(), io.V(), r) == ScsiSpec.ReadGeometry(old(S()), old(io.V()))
    {
      var o := Command(READ_CAPACITY, 8, []);
      if o.Err? {
        return Err(o.error);
      }
      Soundness.ReplyLength(old(S()), old(io.V()), READ_CAPACITY, 8, []);
      r := ParseCapacity(o.value);
    }

    method ReadBlocks(lba: u32, count: u16, blockSize: u32) returns (r: Result<seq<byte>>)
      modifies this, io
      ensures Run(S(), io.V(), r) == ScsiSpec.ReadBlocks(old(S()), old(io.V()), lba, count, blockSize)
    {
      var b := BlockCommand(READ10, lba, count, blockSize);
      if b.Err? {
        return Err(b.error);
      }
      r := Command(b.value.0, b.value.1, []);
    }

    method WriteBlocks(lba: u32, count: u16, blockSize: u32, bytes: seq<byte>) returns (r: Result<()>)
      modifies this, io
      ensures Run(S(), io.V(), r) == ScsiSpec.WriteBlocks(old(S()), old(io.V()), lba, count, blockSize, bytes)
    {
      var b := BlockCommand(WRITE10, lba, count, blockSize);
      if b.Err? {
        return Err(b.error);
      }
      if |bytes| != b.value.1 {
        return Err(Protocol(WriteLength));
      }
      var o := Command(b.value.0, 0, bytes);
      r := if o.Ok? then Ok(()) else Err(o.error);
    }
  }
}
