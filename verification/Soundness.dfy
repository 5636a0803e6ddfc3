/** Results about every transport whatever, and about whole sessions. */
module Soundness {
  import opened Bytes
  import opened Codec
  import opened Device
  import opened Bot
  import opened Lockstep

  // ----- The transfers behind a success -----

  /** These reads, each asking for what is left up to one chunk, delivered exactly `data`. */
  predicate Received(log: seq<Exchange>, data: seq<byte>, total: nat)
    decreases |log|
  {
    if log == [] then data == []
    else
      var x := log[|log| - 1];
      && x.answer.Got? && 0 < |x.answer.bytes| <= |data| <= total
      && var k := |data| - |x.answer.bytes|;
         x.request == In(Min(total - k, 0x10_0000)) && data[k..] == x.answer.bytes
         && Received(log[..|log| - 1], data[..k], total)
  }

  /** These writes, each of one full chunk except the last, moved exactly `data`. */
  predicate Given(log: seq<Exchange>, data: seq<byte>)
    decreases |log|
  {
    if log == [] then data == []
    else
      var x := log[|log| - 1];
      && x.request.Out? && 0 < |x.request.data| <= |data| && |x.request.data| <= 0x10_0000
      && x.answer == Moved(|x.request.data|)
      && var k := |data| - |x.request.data|;
         k % 0x10_0000 == 0 && data[k..] == x.request.data && Given(log[..|log| - 1], data[..k])
  }

  function Opening(h: Host): Exchange
    requires WellFormed(h.cbw)
  {
    Exchange(Out(EncodeCbw(h.cbw)), Moved(31))
  }

  /** One full wrapper, then the exact data stage. */
  predicate Body(h: Host, log: seq<Exchange>, sent: nat)
    requires WellFormed(h.cbw) && sent <= |h.outgoing|
  {
    && |log| > 0 && log[0] == Opening(h)
    && if h.incoming > 0 then Received(log[1..], h.data, h.incoming)
       else Given(log[1..], h.outgoing[..sent]) && h.data == []
  }

  /** The 13 bytes of a status block that says so: signature, this tag, a residue within the transfer,
      and code 0 with nothing left over, or code 1. */
  predicate StatusBytes(b: seq<byte>, tag: u32, length: u32, v: Verdict) {
    && |b| == 13 && b[0] == 0x55 && b[1] == 0x53 && b[2] == 0x42 && b[3] == 0x53
    && b[4] as int + 0x100 * b[5] as int + 0x1_0000 * b[6] as int + 0x100_0000 * b[7] as int == tag
    && var residue := b[8] as int + 0x100 * b[9] as int + 0x1_0000 * b[10] as int + 0x100_0000 * b[11] as int;
       residue <= length
       && match v
          case Passed => b[12] == 0 && residue == 0
          case Refuses => b[12] == 1
          case Uncertain(_) => b[12] >= 2 || (b[12] == 0 && residue > 0)
  }

  /** The host's verdict is what the bytes say, for success and refusal exactly. */
  lemma VerdictIsBytes(b: seq<byte>, tag: u32, length: u32)
    ensures Verdict13(b, tag, length) == Passed <==> StatusBytes(b, tag, length, Passed)
    ensures Verdict13(b, tag, length) == Refuses <==> StatusBytes(b, tag, length, Refuses)
  {
    Le32RoundTrip(tag);
    if |b| == 13 {
      var t, r := b[4..8], b[8..12];
      assert t[0] == b[4] && t[1] == b[5] && t[2] == b[6] && t[3] == b[7];
      assert r[0] == b[8] && r[1] == b[9] && r[2] == b[10] && r[3] == b[11];
      LittleEndian(t, tag);
      assert b[..4] == [b[0], b[1], b[2], b[3]];
    }
  }

  /** Four bytes are the encoding of a number exactly when they weigh as much. */
  lemma LittleEndian(t: seq<byte>, n: u32)
    requires |t| == 4
    ensures t == Le32(n) <==> FromLe32(t) == n
  {
    Le32RoundTrip(n);
    if FromLe32(t) == n {
      BytesOf(t[0], t[1], t[2], t[3], n);
    }
  }

  lemma BytesOf(a: byte, b: byte, c: byte, d: byte, n: u32)
    requires a as int + 0x100 * b as int + 0x1_0000 * c as int + 0x100_0000 * d as int == n
    ensures a == n % 256 && b == n / 256 % 256 && c == n / 65536 % 256 && d == n / 16777216
  {
    var x := b as int + 0x100 * c as int + 0x1_0000 * d as int;
    assert n == a as int + 256 * x;
    assert n / 256 == x;
    assert n / 65536 == x / 256;
    assert n / 16777216 == x / 65536;
  }

  /** The whole exchange of a command that ended with this verdict on its status. */
  predicate Receipt(h: Host, log: seq<Exchange>, v: Verdict)
    requires WellFormed(h.cbw)
  {
    && |log| >= 2 && Body(h, log[..|log| - 1], |h.outgoing|) && |h.data| == h.incoming
    && var x := log[|log| - 1];
       x.request == In(13) && x.answer.Got? && Verdict13(x.answer.bytes, h.cbw.tag, h.cbw.length) == v
       && StatusBytes(x.answer.bytes, h.cbw.tag, h.cbw.length, v)
  }

  /** The status was accepted: the command succeeded, or the device refused it. */
  predicate Accepted<T>(r: Result<T>) {
    r.Ok? || r == Err(CommandFailed)
  }

  function VerdictOf<T>(r: Result<T>): Verdict {
    if r.Ok? then Passed else Refuses
  }

  predicate Traced(h: Host, log: seq<Exchange>) {
    && Runnable(h) && (h.incoming > 0 ==> h.outgoing == []) && (h.usable <==> h.pc.Done? && Accepted(h.pc.result))
    && match h.pc
       case SendCbw => log == [] && h.data == []
       case ReadData => h.incoming > 0 && Body(h, log, 0)
       case WriteData(at) => h.incoming == 0 && Body(h, log, at) && at % CHUNK == 0
       case ReadStatus => Body(h, log, |h.outgoing|) && |h.data| == h.incoming
       case Done(r) =>
         && (Accepted(r) ==> Receipt(h, log, VerdictOf(r)))
         && (r.Ok? ==> r.value == h.data)
  }

  lemma TracedRead(h: Host, log: seq<Exchange>, bytes: seq<byte>)
    requires Traced(h, log) && h.pc.ReadData?
    ensures Traced(Resume(h, Got(bytes)), log + [Exchange(Ask(h), Got(bytes))])
  {
    var r, next := Resume(h, Got(bytes)), log + [Exchange(Ask(h), Got(bytes))];
    assert next[1..][..|next[1..]| - 1] == log[1..];
    if !r.pc.Done? {
      assert r.data[..|h.data|] == h.data;
    }
  }

  lemma GivenNext(log: seq<Exchange>, data: seq<byte>, at: nat, to: nat)
    requires at < to <= |data| && to <= at + CHUNK && at % CHUNK == 0 && Given(log, data[..at])
    ensures Given(log + [Exchange(Out(data[at..to]), Moved(to - at))], data[..to])
  {
    var x := Exchange(Out(data[at..to]), Moved(to - at));
    assert (log + [x])[..|log|] == log;
    assert data[..to][..at] == data[..at] && data[..to][at..] == data[at..to];
  }

  lemma BodyNext(h: Host, log: seq<Exchange>, at: nat, to: nat)
    requires WellFormed(h.cbw) && h.incoming == 0 && at < to <= |h.outgoing| && to <= at + CHUNK && at % CHUNK == 0
    requires Body(h, log, at)
    ensures Body(h, log + [Exchange(Out(h.outgoing[at..to]), Moved(to - at))], to)
  {
    var x := Exchange(Out(h.outgoing[at..to]), Moved(to - at));
    GivenNext(log[1..], h.outgoing, at, to);
    assert (log + [x])[1..] == log[1..] + [x];
  }

  lemma ChunkStep(at: nat)
    requires at % CHUNK == 0
    ensures (at + CHUNK) % CHUNK == 0
  {
  }

  /** What is said of the body depends on the command and the data only. */
  lemma BodySame(h: Host, r: Host, log: seq<Exchange>, sent: nat)
    requires WellFormed(h.cbw) && sent <= |h.outgoing| && Body(h, log, sent)
    requires r.cbw == h.cbw && r.incoming == h.incoming && r.outgoing == h.outgoing && r.data == h.data
    ensures Body(r, log, sent)
  {
  }

  lemma WriteResumes(h: Host, n: nat)
    requires Runnable(h) && h.pc.WriteData? && !h.usable
    ensures var r, to := Resume(h, Moved(n)), h.pc.at + n;
            if n == |Piece(h)| then
              to <= |h.outgoing| && r == h.(pc := if to < |h.outgoing| then WriteData(to) else ReadStatus)
              && (to < |h.outgoing| ==> n == CHUNK) && n <= CHUNK && Ask(h) == Out(h.outgoing[h.pc.at..to])
            else r == Fail(h, Protocol(ShortWrite))
  {
  }

  lemma TracedWrite(h: Host, log: seq<Exchange>, n: nat)
    requires Traced(h, log) && h.pc.WriteData?
    ensures Traced(Resume(h, Moved(n)), log + [Exchange(Ask(h), Moved(n))])
  {
    WriteResumes(h, n);
    if n == |Piece(h)| {
      BodyNext(h, log, h.pc.at, h.pc.at + n);
      ChunkStep(h.pc.at);
      BodySame(h, Resume(h, Moved(n)), log + [Exchange(Ask(h), Moved(n))], h.pc.at + n);
    }
  }

  lemma TracedStep(h: Host, log: seq<Exchange>, a: Answer)
    requires Traced(h, log) && !h.pc.Done?
    ensures Traced(Resume(h, a), log + [Exchange(Ask(h), a)])
  {
    var next := log + [Exchange(Ask(h), a)];
    match (h.pc, a) {
      case (ReadData, Got(bytes)) => TracedRead(h, log, bytes);
      case (WriteData(_), Moved(n)) => TracedWrite(h, log, n);
      case (ReadStatus, Got(bytes)) =>
        assert next[..|log|] == log;
        VerdictIsBytes(bytes, h.cbw.tag, h.cbw.length);
      case _ =>
    }
  }

  lemma TracedExchange(h: Host, log: seq<Exchange>, from: nat, a: Answer)
    requires from <= |log| && Traced(h, log[from..]) && !h.pc.Done?
    ensures Traced(Resume(h, a), (log + [Exchange(Ask(h), a)])[from..])
  {
    assert (log + [Exchange(Ask(h), a)])[from..] == log[from..] + [Exchange(Ask(h), a)];
    TracedStep(h, log[from..], a);
  }

  lemma {:induction false} TracedDrive(h: Host, w: Wire, from: nat)
    requires from <= |w.log| && Traced(h, w.log[from..])
    ensures var o := Drive(h, w); w.log <= o.1.log && Traced(o.0, o.1.log[from..])
                                  && o.0.cbw == h.cbw && o.0.incoming == h.incoming && o.0.outgoing == h.outgoing
    decreases |w.turns|, if h.pc.Done? then 0 else 1
  {
    if !h.pc.Done? {
      if w.turns == [] {
        TracedExchange(h, w.log, from, Dropped);
      } else if w.turns[0].Moves? {
        TracedDrive(h, AfterMove(w), from);
      } else {
        TracedExchange(h, w.log, from, w.turns[0].answer);
        TracedDrive(Resume(h, w.turns[0].answer), AfterReply(w, Ask(h)), from);
      }
    }
  }

  /** Against any transport at all, success means: one full 31-byte wrapper, then exactly the data
      stage in pieces that add up to the declared length, then a 13-byte status block with this
      command's tag, zero residue and zero status, and nothing else went on the wire. */
  lemma SuccessIsReceipted(s: Sess, w: Wire, cdb: seq<byte>, incoming: nat, outgoing: seq<byte>)
    requires Command(s, w, cdb, incoming, outgoing).r.Ok?
    ensures !Refused(s, cdb, incoming, outgoing)
    ensures var o := Command(s, w, cdb, incoming, outgoing);
            w.log <= o.w.log
            && Receipt(Start(NextTag(s.tag), s.lun, cdb, incoming, outgoing).(data := o.r.value),
                       o.w.log[|w.log|..], Passed)
  {
    var data := UsableIsReceipted(s, w, cdb, incoming, outgoing);
  }

  /** Against any transport at all, a session is usable after a command that went on the wire exactly
      when the command succeeded or the device refused it; and then one full wrapper went out, the
      exact data stage was moved, and a 13-byte status block with this command's tag said which. */
  lemma UsableIsReceipted(s: Sess, w: Wire, cdb: seq<byte>, incoming: nat, outgoing: seq<byte>)
    returns (data: seq<byte>)
    requires !Refused(s, cdb, incoming, outgoing)
    ensures var o := Command(s, w, cdb, incoming, outgoing);
            && w.log <= o.w.log && (o.s.usable <==> Accepted(o.r)) && (o.r.Ok? ==> data == o.r.value)
            && (Accepted(o.r) ==>
                  Receipt(Start(NextTag(s.tag), s.lun, cdb, incoming, outgoing).(data := data),
                          o.w.log[|w.log|..], VerdictOf(o.r)))
  {
    var h := Start(NextTag(s.tag), s.lun, cdb, incoming, outgoing);
    TracedDrive(h, w, |w.log|);
    data := Drive(h, w).0.data;
    assert Accepted(Drive(h, w).0.pc.result) ==>
             Receipt(h.(data := data), Drive(h, w).1.log[|w.log|..], VerdictOf(Drive(h, w).0.pc.result));
  }

  /** No reply is ever shorter or longer than asked for, whatever the transport does: the callers'
      slices of it cannot go out of bounds. */
  lemma ReplyLength(s: Sess, w: Wire, cdb: seq<byte>, incoming: nat, outgoing: seq<byte>)
    ensures var o := Command(s, w, cdb, incoming, outgoing); o.r.Ok? ==> |o.r.value| == incoming
  {
    if Command(s, w, cdb, incoming, outgoing).r.Ok? {
      SuccessIsReceipted(s, w, cdb, incoming, outgoing);
    }
  }

  // ----- Whole sessions -----

  datatype Job = Job(cdb: seq<byte>, incoming: nat, outgoing: seq<byte>)

  function Perform(s: Sess, w: Wire, j: Job): Run<seq<byte>> {
    Command(s, w, j.cdb, j.incoming, j.outgoing)
  }

  /** Any commands, one after the other, on one session. */
  function RunAll(s: Sess, w: Wire, jobs: seq<Job>): (Sess, Wire)
    decreases |jobs|
  {
    if jobs == [] then (s, w)
    else
      var o := Perform(s, w, jobs[0]);
      RunAll(o.s, o.w, jobs[1..])
  }

  lemma {:induction false} LawfulAllAlong(s: Sess, w: Wire, jobs: seq<Job>)
    requires RunAll(s, w, jobs).1.lawful
    ensures w.lawful
    decreases |jobs|
  {
    if jobs != [] {
      var o := Perform(s, w, jobs[0]);
      LawfulAllAlong(o.s, o.w, jobs[1..]);
      if !Refused(s, jobs[0].cdb, jobs[0].incoming, jobs[0].outgoing) {
        LawfulSoFar(Start(NextTag(s.tag), s.lun, jobs[0].cdb, jobs[0].incoming, jobs[0].outgoing), w);
      }
    }
  }

  /** Framing lockstep over every run with a conforming device: between commands, a usable session
      faces a device that awaits a wrapper with nothing unread in either pipe. */
  lemma {:induction false} LockstepForever(s: Sess, w: Wire, jobs: seq<Job>)
    requires Between(s, w.dev) && RunAll(s, w, jobs).1.lawful
    ensures var o := RunAll(s, w, jobs); Between(o.0, o.1.dev) && (o.0.usable ==> Synced(o.1.dev))
    decreases |jobs|
  {
    if jobs != [] {
      var j := jobs[0];
      var o := Perform(s, w, j);
      LawfulAllAlong(o.s, o.w, jobs[1..]);
      CommandOnDevice(s, w, j.cdb, j.incoming, j.outgoing);
      LockstepForever(o.s, o.w, jobs[1..]);
    }
  }

  /** Once retired, a session never transfers anything again and never comes back. */
  lemma {:induction false} RetiredIsSilent(s: Sess, w: Wire, jobs: seq<Job>)
    requires !s.usable
    ensures RunAll(s, w, jobs) == (s, w)
    decreases |jobs|
  {
    if jobs != [] {
      RetiredIsSilent(s, w, jobs[1..]);
    }
  }

  /** How many of the commands reached the wire. */
  function Issued(s: Sess, w: Wire, jobs: seq<Job>): nat
    decreases |jobs|
  {
    if jobs == [] then 0
    else
      var o := Perform(s, w, jobs[0]);
      (if Refused(s, jobs[0].cdb, jobs[0].incoming, jobs[0].outgoing) then 0 else 1) + Issued(o.s, o.w, jobs[1..])
  }

  lemma {:induction false} TagCounts(s: Sess, w: Wire, jobs: seq<Job>)
    ensures RunAll(s, w, jobs).0.tag == (s.tag + Issued(s, w, jobs)) % 0x1_0000_0000
    decreases |jobs|
  {
    if jobs != [] {
      var o := Perform(s, w, jobs[0]);
      TagCounts(o.s, o.w, jobs[1..]);
    }
  }

  lemma TagsWrap(tag: u32, n: nat)
    ensures NextTag((tag + n) % 0x1_0000_0000) == NextTag(tag) <==> n % 0x1_0000_0000 == 0
  {
    var m: nat := n % 0x1_0000_0000;
    var k: nat := n / 0x1_0000_0000;
    assert tag + n == (tag + m) + k * 0x1_0000_0000;
    assert (tag + n) % 0x1_0000_0000 == (tag + m) % 0x1_0000_0000;
    assert (tag + m) % 0x1_0000_0000 == if tag + m < 0x1_0000_0000 then tag + m else tag + m - 0x1_0000_0000;
  }

  lemma AcceptedStatus(s: Sess, w: Wire, j: Job)
    requires !Refused(s, j.cdb, j.incoming, j.outgoing) && Accepted(Perform(s, w, j).r)
    ensures var log := Perform(s, w, j).w.log;
            |log| > 0 && log[|log| - 1].answer.Got? && ValidCsw(log[|log| - 1].answer.bytes, NextTag(s.tag))
  {
    var data := UsableIsReceipted(s, w, j.cdb, j.incoming, j.outgoing);
    var log := Perform(s, w, j).w.log;
    assert log[|w.log|..][|log| - |w.log| - 1] == log[|log| - 1];
  }

  /** The status block that a later command accepted, as success or as the device's refusal, would
      have satisfied an earlier command of the session exactly when a multiple of 2^32 commands lies
      between them: so over fewer than 2^32 commands no earlier command's status is ever accepted. */
  lemma StaleStatusRefused(s: Sess, w: Wire, jobs: seq<Job>, last: Job)
    requires s.usable && jobs != [] && !Refused(s, jobs[0].cdb, jobs[0].incoming, jobs[0].outgoing)
    requires var o := RunAll(s, w, jobs);
             !Refused(o.0, last.cdb, last.incoming, last.outgoing) && Accepted(Perform(o.0, o.1, last).r)
    ensures var o := RunAll(s, w, jobs); var log := Perform(o.0, o.1, last).w.log;
            && |log| > 0 && log[|log| - 1].answer.Got?
            && (ValidCsw(log[|log| - 1].answer.bytes, NextTag(s.tag)) <==> Issued(s, w, jobs) % 0x1_0000_0000 == 0)
  {
    var o := RunAll(s, w, jobs);
    AcceptedStatus(o.0, o.1, last);
    var log := Perform(o.0, o.1, last).w.log;
    CswNamesOneCommand(log[|log| - 1].answer.bytes, NextTag(o.0.tag), NextTag(s.tag));
    TagCounts(s, w, jobs);
    TagsWrap(s.tag, Issued(s, w, jobs));
  }
}
