/** The host side of Bulk-Only Transport: one command as a step machine over awaited transfers,
    and the SCSI operations built on it. */
module Bot {
  import opened Bytes
  import opened Codec
  import opened Device

  datatype Fault =
    | InvalidLun | Shape | TooLong | ShortCbw | DataStage | ShortWrite | StatusBlock | Residue | Phase
    | BlockRange | WriteLength | Capacity | BadGeometry | RangeLength | RangeBounds | RangeCount | ReadOnly

  /** `Cancelled` stands for the caller dropping the future: no value is ever returned for it. */
  datatype Error = Retired | Protocol(fault: Fault) | CommandFailed | Usb | Cancelled

  datatype Result<+T> = Ok(value: T) | Err(error: Error)

  const CHUNK: nat := 1048576

  // ----- The wire: everything the environment will still do, and everything that happened -----

  datatype Turn = Moves(next: Device) | Replies(answer: Answer, next: Device)

  datatype Exchange = Exchange(request: Request, answer: Answer)

  /** `turns` fixes what the environment will do; quantifying over it quantifies over every
      environment. `lawful` records whether each move so far was one a conforming device may make;
      statements about arbitrary transports simply do not mention it. */
  datatype Wire = Wire(dev: Device, turns: seq<Turn>, log: seq<Exchange>, lawful: bool)

  function AfterMove(w: Wire): Wire
    requires w.turns != [] && w.turns[0].Moves?
  {
    w.(dev := w.turns[0].next, turns := w.turns[1..],
       lawful := w.lawful && WellFormed(w.dev.cmd) && Acts(w.dev, w.turns[0].next))
  }

  function AfterReply(w: Wire, r: Request): Wire
    requires w.turns != [] && w.turns[0].Replies?
  {
    var t := w.turns[0];
    w.(dev := t.next, turns := w.turns[1..], log := w.log + [Exchange(r, t.answer)],
       lawful := w.lawful && Answers(w.dev, r, t.answer, t.next))
  }

  /** One `.await`. When the environment does nothing more, the future is dropped. */
  function Await(w: Wire, r: Request): (o: (Answer, Wire))
    ensures |o.1.turns| < |w.turns| || (w.turns == [] && o.0 == Dropped)
    decreases |w.turns|
  {
    if w.turns == [] then (Dropped, w.(log := w.log + [Exchange(r, Dropped)]))
    else if w.turns[0].Moves? then Await(AfterMove(w), r)
    else (w.turns[0].answer, AfterReply(w, r))
  }

  // ----- One command as a step machine -----

  datatype Pc = SendCbw | ReadData | WriteData(at: nat) | ReadStatus | Done(result: Result<seq<byte>>)

  datatype Host = Host(pc: Pc, cbw: Cbw, incoming: nat, outgoing: seq<byte>, data: seq<byte>, usable: bool)

  predicate Runnable(h: Host) {
    WellFormed(h.cbw) && (h.pc.WriteData? ==> h.pc.at < |h.outgoing|) && (h.pc.ReadData? ==> |h.data| < h.incoming)
  }

  function Piece(h: Host): seq<byte>
    requires h.pc.WriteData? && h.pc.at < |h.outgoing|
  {
    h.outgoing[h.pc.at..Min(h.pc.at + CHUNK, |h.outgoing|)]
  }

  /** The transfer the host is waiting for. */
  function Ask(h: Host): Request
    requires Runnable(h) && !h.pc.Done?
  {
    match h.pc
    case SendCbw => Out(EncodeCbw(h.cbw))
    case ReadData => In(Min(h.incoming - |h.data|, CHUNK))
    case WriteData(_) => Out(Piece(h))
    case ReadStatus => In(13)
  }

  function Fail(h: Host, e: Error): Host {
    h.(pc := Done(Err(e)))
  }

  datatype Verdict = Passed | Refuses | Uncertain(fault: Fault)

  /** What a status block tells the host waiting under this tag. */
  function Verdict13(csw: seq<byte>, tag: u32, length: u32): Verdict {
    if !ValidCsw(csw, tag) then Uncertain(StatusBlock)
    else if FromLe32(csw[8..12]) > length then Uncertain(Residue)
    else if csw[12] == 0 && FromLe32(csw[8..12]) == 0 then Passed
    else if csw[12] == 1 then Refuses
    else Uncertain(Phase)
  }

  /** The status alone decides whether the session may be used again. */
  function Judge(h: Host, v: Verdict): Host {
    match v
    case Passed => h.(pc := Done(Ok(h.data)), usable := true)
    case Refuses => Fail(h, CommandFailed).(usable := true)
    case Uncertain(fault) => Fail(h, Protocol(fault))
  }

  /** What the host does with a completed, failed or dropped transfer. */
  function Resume(h: Host, a: Answer): (r: Host)
    requires Runnable(h) && !h.pc.Done?
    ensures Runnable(r) && !r.pc.SendCbw? && r.cbw == h.cbw && r.incoming == h.incoming && r.outgoing == h.outgoing
    ensures a == Dropped ==> r.pc == Done(Err(Cancelled)) && r.usable == h.usable
  {
    match (h.pc, a)
    case (SendCbw, Moved(n)) =>
      if n != 31 then Fail(h, Protocol(ShortCbw))
      else if h.incoming > 0 then h.(pc := ReadData, data := [])
      else if h.outgoing != [] then h.(pc := WriteData(0), data := [])
      else h.(pc := ReadStatus, data := [])
    case (ReadData, Got(bytes)) =>
      if bytes == [] || |bytes| > h.incoming - |h.data| then Fail(h, Protocol(DataStage))
      else
        var data := h.data + bytes;
        h.(data := data, pc := if |data| < h.incoming then ReadData else ReadStatus)
    case (WriteData(at), Moved(n)) =>
      if n != |Piece(h)| then Fail(h, Protocol(ShortWrite))
      else h.(pc := if at + n < |h.outgoing| then WriteData(at + n) else ReadStatus)
    case (ReadStatus, Got(bytes)) => Judge(h, Verdict13(bytes, h.cbw.tag, h.cbw.length))
    case (_, Dropped) => Fail(h, Cancelled)
    case _ => Fail(h, Usb)
  }

  /** The command driven to its end, one environment turn at a time. */
  function Drive(h: Host, w: Wire): (o: (Host, Wire))
    requires Runnable(h)
    ensures o.0.pc.Done?
    decreases |w.turns|, if h.pc.Done? then 0 else 1
  {
    if h.pc.Done? then (h, w)
    else if w.turns == [] then (Resume(h, Dropped), w.(log := w.log + [Exchange(Ask(h), Dropped)]))
    else if w.turns[0].Moves? then Drive(h, AfterMove(w))
    else Drive(Resume(h, w.turns[0].answer), AfterReply(w, Ask(h)))
  }

  /** Awaiting one transfer and resuming is one stretch of the drive. */
  lemma {:induction false} DriveAwait(h: Host, w: Wire)
    requires Runnable(h) && !h.pc.Done?
    ensures var o := Await(w, Ask(h)); Drive(h, w) == Drive(Resume(h, o.0), o.1)
    decreases |w.turns|
  {
    if w.turns != [] && w.turns[0].Moves? {
      DriveAwait(h, AfterMove(w));
    }
  }

  // ----- Sessions -----

  datatype Sess = Sess(tag: u32, lun: lun, usable: bool)

  datatype Run<+T> = Run(s: Sess, w: Wire, r: Result<T>)

  function NextTag(tag: u32): u32 {
    if tag == 0xffff_ffff then 0 else tag + 1
  }

  function Start(tag: u32, lun: lun, cdb: seq<byte>, incoming: nat, outgoing: seq<byte>): Host
    requires Max(incoming, |outgoing|) < 0x1_0000_0000
  {
    Host(SendCbw, Cbw(tag, Max(incoming, |outgoing|), incoming > 0, lun, cdb), incoming, outgoing, [], false)
  }

  /** Nothing goes on the wire and nothing changes. */
  predicate Refused(s: Sess, cdb: seq<byte>, incoming: nat, outgoing: seq<byte>) {
    || !s.usable || cdb == [] || |cdb| > 16 || (incoming > 0 && outgoing != [])
    || Max(incoming, |outgoing|) >= 0x1_0000_0000
  }

  function Command(s: Sess, w: Wire, cdb: seq<byte>, incoming: nat, outgoing: seq<byte>): Run<seq<byte>> {
    if !s.usable then Run(s, w, Err(Retired))
    else if cdb == [] || |cdb| > 16 || (incoming > 0 && outgoing != []) then Run(s, w, Err(Protocol(Shape)))
    else if Max(incoming, |outgoing|) >= 0x1_0000_0000 then Run(s, w, Err(Protocol(TooLong)))
    else
      var tag := NextTag(s.tag);
      var o := Drive(Start(tag, s.lun, cdb, incoming, outgoing), w);
      Run(Sess(tag, s.lun, o.0.usable), o.1, o.0.pc.result)
  }
}
