/** A conforming Bulk-Only Transport device over a byte disk, as the set of moves it may make.
    It runs concurrently with the host: it may produce data or status early, send short data,
    fail a command, fail or swallow part of any transfer, and store any part of received data
    at any time. What it may not do is stated by `Acts` and `Answers`. */
module Device {
  import opened Bytes
  import opened Codec

  datatype Request = Out(data: seq<byte>) | In(length: nat)

  /** What one awaited transfer gives the host; `Dropped` is a future dropped before completion. */
  datatype Answer = Moved(count: nat) | Got(bytes: seq<byte>) | Failed | Dropped

  datatype Status = Status(residue: u32, code: byte)

  /** `cmd` is the last accepted wrapper, `sent` the data produced for it, `got` the data received
      for it, `status` its status once issued and `csw` the block that carries it, and `taken` how
      many bytes of data and status the host has taken off the bulk-IN pipe. A halted device
      refuses bulk-OUT. */
  datatype Device = Device(disk: seq<byte>, blockSize: nat, cmd: Cbw, sent: seq<byte>, got: seq<byte>,
                           status: Option<Status>, csw: seq<byte>, taken: nat, halted: bool)

  /** Everything put on bulk-IN since the command was accepted. */
  function Stream(d: Device): seq<byte> {
    d.sent + d.csw
  }

  /** Framing lockstep: the device awaits a wrapper and neither pipe holds anything unread. */
  predicate Synced(d: Device) {
    d.status.Some? && d.taken == |Stream(d)| && !d.halted
  }

  function Block(c: Cbw): BlockCdb {
    if |c.cdb| == 10 then DecodeBlock(c.cdb) else BlockCdb(0, 0, 0)
  }

  predicate IsWrite(c: Cbw) {
    |c.cdb| == 10 && c.cdb[0] == 0x2a && !c.incoming
  }

  function BaseOf(c: Cbw, blockSize: nat): nat {
    Block(c).lba * blockSize
  }

  function Base(d: Device): nat {
    BaseOf(d.cmd, d.blockSize)
  }

  /** The READ CAPACITY(10) reply of section 5.15 of SBC-3. */
  function CapacityReply(size: nat, blockSize: nat): seq<byte>
    requires 0 < blockSize < 0x1_0000_0000
  {
    var last := Min(Max(size / blockSize - 1, 0), 0xffff_ffff);
    Be32(last) + Be32(blockSize)
  }

  /** The data a good status vouches for. */
  predicate Truthful(d: Device)
    requires WellFormed(d.cmd)
  {
    match d.cmd.cdb[0]
    case 0x28 => |d.cmd.cdb| == 10 ==>
                   Base(d) + |d.sent| <= |d.disk| && d.sent == d.disk[Base(d)..Base(d) + |d.sent|]
    case 0x25 => 0 < d.blockSize < 0x1_0000_0000 && d.sent <= CapacityReply(|d.disk|, d.blockSize)
    case _ => true
  }

  /** Status 0 tells the truth about the residue, about data sent and about data stored. */
  predicate Honest(d: Device, s: Status)
    requires WellFormed(d.cmd)
  {
    && s.residue <= d.cmd.length
    && (s.code == 0 ==>
          if d.cmd.incoming then
            s.residue == d.cmd.length - |d.sent| && Truthful(d)
          else
            s.residue == 0 ==>
              |d.got| == d.cmd.length
              && (IsWrite(d.cmd) ==> Base(d) + |d.got| <= |d.disk| && d.disk[Base(d)..Base(d) + |d.got|] == d.got))
  }

  // ----- The device's own moves, between transfers -----

  predicate Emits(d: Device, e: Device) {
    && d.status.None? && d.cmd.incoming && d.sent <= e.sent && |e.sent| <= d.cmd.length
    && e == d.(sent := e.sent)
  }

  /** Any part of what was received, at its own place, nothing else. */
  predicate Stores(d: Device, e: Device) {
    && d.status.None? && IsWrite(d.cmd)
    && Confined(d.disk, e.disk, Base(d), d.got)
    && e == d.(disk := e.disk)
  }

  /** Issues the status; a data-out stage cut short leaves bulk-OUT halted (section 6.7.3). */
  predicate Finishes(d: Device, e: Device)
    requires WellFormed(d.cmd)
  {
    && d.status.None? && e.status.Some?
    && Honest(d, e.status.value) && e.csw == EncodeCsw(d.cmd.tag, e.status.value.residue, e.status.value.code)
    && e == d.(status := e.status, csw := e.csw, halted := !d.cmd.incoming && |d.got| < d.cmd.length)
  }

  predicate Acts(d: Device, e: Device)
    requires WellFormed(d.cmd)
  {
    Emits(d, e) || Stores(d, e) || Finishes(d, e)
  }

  // ----- How transfers may end -----

  function Accept(d: Device, c: Cbw): Device {
    d.(cmd := c, sent := [], got := [], status := None, csw := [], taken := 0)
  }

  /** A wrapper offered while synced. A failed or dropped transfer may still have delivered it. */
  predicate AnswersCbw(d: Device, c: Option<Cbw>, whole: nat, a: Answer, e: Device) {
    match a
    case Moved(n) => if n == whole && c.Some? then e == Accept(d, c.value) else e == d.(halted := true)
    case Got(_) => false
    case _ => e == d || e == d.(halted := true) || (c.Some? && e == Accept(d, c.value))
  }

  /** Data offered while the command wants it; the device may take any prefix. */
  predicate AnswersData(d: Device, data: seq<byte>, a: Answer, e: Device) {
    && e == d.(got := e.got)
    && d.got <= e.got <= d.got + data && |e.got| <= d.cmd.length
    && match a
       case Moved(n) => |e.got| == |d.got| + n
       case Got(_) => false
       case _ => true
  }

  /** Bytes leave bulk-IN in order, in pieces of any size; a failed or dropped read may lose some. */
  predicate AnswersIn(d: Device, a: Answer, e: Device) {
    && e == d.(taken := e.taken) && d.taken <= e.taken <= |Stream(d)|
    && match a
       case Got(bytes) => bytes == Stream(d)[d.taken..e.taken]
       case Moved(_) => false
       case _ => true
  }

  /** Nothing is promised for a wrapper sent while bulk-IN holds unread bytes: no host may. */
  predicate Answers(d: Device, r: Request, a: Answer, e: Device) {
    match r
    case In(_) => AnswersIn(d, a, e)
    case Out(data) =>
      if d.halted || (d.status.None? && (d.cmd.incoming || |d.got| == d.cmd.length)) then
        e == d && (a.Failed? || a.Dropped?)
      else if d.status.None? then AnswersData(d, data, a, e)
      else Synced(d) ==> AnswersCbw(d, DecodeCbw(data), |data|, a, e)
  }
}
