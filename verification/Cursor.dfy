/** The seekable cursor, over the whole stack, is a file of fixed size. */
module CursorProofs {
  import opened Bytes
  import opened GuardSpec
  import opened GuardObjects
  import EndToEnd
  import Mailbox

  datatype FileOp = ReadSome(out: nat) | WriteSome(bytes: seq<byte>) | FlushFile | SeekTo(from: SeekFrom)

  datatype FileReply = Bytes(data: seq<byte>) | Done | At(position: nat) | Failed

  // ----- The reference: a file of fixed size in memory -----

  datatype File = File(data: seq<byte>, position: nat, writable: bool)

  predicate Proper(f: File) {
    f.position <= |f.data| < 0x1_0000_0000_0000_0000
  }

  function JumpTo(f: File, to: int): (o: (File, FileReply))
    requires Proper(f)
    ensures Proper(o.0) && |o.0.data| == |f.data| && (o.1.Failed? ==> o.0 == f)
  {
    if to < 0 || |f.data| < to then (f, Failed) else (f.(position := to), At(to))
  }

  /** One operation on the reference file: a read stops at the end, a write or seek past it fails. */
  function FileStep(f: File, op: FileOp): (o: (File, FileReply))
    requires Proper(f)
    ensures Proper(o.0) && |o.0.data| == |f.data| && (o.1.Failed? ==> o.0 == f)
  {
    match op
    case ReadSome(out) =>
      var to := Min(f.position + out, |f.data|);
      (f.(position := to), Bytes(f.data[f.position..to]))
    case WriteSome(bytes) =>
      if !f.writable || f.position + |bytes| > |f.data| then (f, Failed)
      else (f.(data := Patch(f.data, f.position, bytes), position := f.position + |bytes|), Done)
    case FlushFile => (f, Done)
    case SeekTo(Start(n)) => JumpTo(f, n)
    case SeekTo(Current(n)) => JumpTo(f, f.position + n)
    case SeekTo(End(n)) => JumpTo(f, |f.data| + n)
  }

  function FileRun(f: File, ops: seq<FileOp>): (o: (File, seq<FileReply>))
    requires Proper(f)
    ensures Proper(o.0) && |o.0.data| == |f.data|
    decreases |ops|
  {
    if ops == [] then (f, [])
    else
      var p := FileRun(f, ops[..|ops| - 1]);
      var q := FileStep(p.0, ops[|ops| - 1]);
      (q.0, p.1 + [q.1])
  }

  // ----- The cursor over a guarded device -----

  /** Where a run has left the cursor, the calls it made and what it returned. */
  datatype Trail = Trail(position: nat, calls: seq<Call>, replies: seq<FileReply>)

  /** The call an operation makes; a seek makes none. */
  function CallOf(op: FileOp, size: nat, position: nat, limit: nat): Call
    requires !op.SeekTo? && position < 0x1_0000_0000_0000_0000 && limit > 0
  {
    match op
    case ReadSome(out) => ReadAt(position, Max(ReadCount(size, position, out, limit), 0))
    case WriteSome(bytes) => WriteAt(position, bytes)
    case _ => FlushAll
  }

  function FileReplyOf(op: FileOp, r: Reply): FileReply {
    if !r.Served? then Failed else if op.ReadSome? then Bytes(r.data) else Done
  }

  function OnTrail(t: Trail, op: FileOp, r: Reply, size: nat, limit: nat): (u: Trail)
    requires t.position <= size < 0x1_0000_0000_0000_0000 && limit > 0
    ensures u.position <= size
  {
    match op
    case SeekTo(from) =>
      var to := SeekTarget(size, t.position, from);
      if 0 <= to <= size then Trail(to, t.calls, t.replies + [At(to)]) else t.(replies := t.replies + [Failed])
    case _ =>
      var c := CallOf(op, size, t.position, limit);
      Trail(MoveTo(size, t.position, if r.Served? then Moved(LengthOf(c)) else Stayed), t.calls + [c],
            t.replies + [FileReplyOf(op, r)])
  }

  /** The run of these operations, given what the device answers to each of its calls. */
  function Follow(size: nat, ops: seq<FileOp>, answers: seq<Reply>, limit: nat): (t: Trail)
    requires size < 0x1_0000_0000_0000_0000 && limit > 0
    ensures t.position <= size
    decreases |ops|
  {
    if ops == [] then Trail(0, [], [])
    else
      var t := Follow(size, ops[..|ops| - 1], answers, limit);
      OnTrail(t, ops[|ops| - 1], if |t.calls| < |answers| then answers[|t.calls|] else Broken, size, limit)
  }

  /** Answers not yet asked for change nothing. */
  lemma {:induction false} FollowOnward(size: nat, ops: seq<FileOp>, answers: seq<Reply>, more: seq<Reply>, limit: nat)
    requires size < 0x1_0000_0000_0000_0000 && limit > 0
    requires |Follow(size, ops, answers, limit).calls| <= |answers|
    ensures Follow(size, ops, answers + more, limit) == Follow(size, ops, answers, limit)
    decreases |ops|
  {
    if ops != [] {
      FollowOnward(size, ops[..|ops| - 1], answers, more, limit);
    }
  }

  /** A cursor in its own form, run by any caller: it makes exactly these calls and gives exactly
      these replies. */
  method RunFile(io: Io, ops: seq<FileOp>, limit: nat)
    returns (replies: seq<FileReply>, ghost calls: seq<Call>, ghost answers: seq<Reply>, ghost chain: seq<Seen>)
    requires io.Within() && io.position == 0 && limit > 0 && Sized(ops, limit)
    modifies io, io.device, io.device.device
    ensures io.Within() && Explained(calls, answers, chain, |io.device.device.start.buf|)
    ensures chain[0] == old(io.device.Now()) && chain[|calls|] == io.device.Now()
    ensures Follow(io.device.device.start.capacity, ops, answers, limit) == Trail(io.position, calls, replies)
  {
    replies, calls, answers, chain := [], [], [], [io.device.Now()];
    ghost var size, mailbox := io.device.device.start.capacity, |io.device.device.start.buf|;
    for i := 0 to |ops|
      invariant io.Within() && Explained(calls, answers, chain, mailbox)
      invariant chain[0] == old(io.device.Now()) && chain[|calls|] == io.device.Now()
      invariant Follow(size, ops[..i], answers, limit) == Trail(io.position, calls, replies)
    {
      assert ops[..i + 1][..i] == ops[..i];
      if ops[i].SeekTo? {
        var to := io.Seek(ops[i].from);
        replies := replies + [if to.Some? then At(to.value) else Failed];
      } else {
        ghost var c := CallOf(ops[i], size, io.position, limit);
        var r := RunOne(io, ops[i], limit);
        FollowOnward(size, ops[..i], answers, [r], limit);
        ExplainedStep(calls, answers, chain, c, r, io.device.Now(), mailbox);
        calls, answers, chain := calls + [c], answers + [r], chain + [io.device.Now()];
        replies := replies + [FileReplyOf(ops[i], r)];
      }
    }
    assert ops[..|ops|] == ops;
  }

  method RunOne(io: Io, op: FileOp, limit: nat) returns (r: Reply)
    requires io.Within() && !op.SeekTo? && (op.ReadSome? ==> op.out < limit) && limit > 0
    modifies io, io.device, io.device.device
    ensures io.Within()
    ensures var size, c := io.device.device.start.capacity,
                          CallOf(op, io.device.device.start.capacity, old(io.position), limit);
            Answered(c, r, old(io.device.Now()), io.device.Now(), |io.device.device.start.buf|)
            && io.position == MoveTo(size, old(io.position), if r.Served? then Moved(LengthOf(c)) else Stayed)
  {
    ReadCountFits(io.device.device.start.capacity, io.position, if op.ReadSome? then op.out else 0, limit);
    match op {
      case ReadSome(out) => r := io.Read(out, limit);
      case WriteSome(bytes) => r := io.Write(bytes);
      case FlushFile => r := io.Flush();
    }
  }

  // ----- The refinement -----

  /** Refusals come from the guard's checks alone, as long as nothing has failed. */
  predicate Judged(calls: seq<Call>, answers: seq<Reply>, size: nat, writable: bool) {
    && |answers| == |calls|
    && forall i :: 0 <= i < |calls| ==>
         !answers[i].Broken? && (answers[i].Refused? <==> Check(Guard(size, writable, false, []), calls[i]).Some?)
  }

  /** In a life at whose end the guard is not retired, it never was, nor was anything broken; and it
      always was the same guard. */
  lemma {:induction false} GuardsAgree(calls: seq<Call>, answers: seq<Reply>, chain: seq<Seen>, mailbox: nat, n: nat)
    requires mailbox > 0 && Lived(calls, answers, chain, mailbox) && n <= |calls| && !chain[n].guard.retired
    ensures chain[n].guard.size == chain[0].guard.size && chain[n].guard.writable == chain[0].guard.writable
    ensures forall i :: 0 <= i <= n ==> !chain[i].guard.retired
    decreases n
  {
    if n > 0 {
      MetOpen(calls[n - 1], answers[n - 1], chain[n - 1], chain[n], mailbox);
      GuardsAgree(calls, answers, chain, mailbox, n - 1);
    }
  }

  lemma MetOpen(c: Call, r: Reply, a: Seen, b: Seen, mailbox: nat)
    requires mailbox > 0 && Met(c, r, a, b, mailbox) && !b.guard.retired
    ensures !a.guard.retired && Answered(c, r, a, b, mailbox) && !r.Broken?
    ensures b.guard.size == a.guard.size && b.guard.writable == a.guard.writable
    ensures r.Refused? <==> Check(a.guard, c).Some?
  {
  }

  lemma OpenIsJudged(calls: seq<Call>, answers: seq<Reply>, chain: seq<Seen>, mailbox: nat)
    requires mailbox > 0 && Lived(calls, answers, chain, mailbox) && !chain[|calls|].guard.retired
    ensures Judged(calls, answers, chain[0].guard.size, chain[0].guard.writable)
  {
    GuardsAgree(calls, answers, chain, mailbox, |calls|);
    forall i | 0 <= i < |calls|
      ensures !answers[i].Broken?
      ensures answers[i].Refused? <==> Check(Guard(chain[0].guard.size, chain[0].guard.writable, false, []),
                                             calls[i]).Some?
    {
      assert Met(calls[i], answers[i], chain[i], chain[i + 1], mailbox);
      MetOpen(calls[i], answers[i], chain[i], chain[i + 1], mailbox);
      GuardsAgree(calls, answers, chain, mailbox, i);
    }
  }

  /** A cursor's own calls never retire an open guard unless one of them is broken. */
  lemma {:induction false} UnbrokenStaysOpen(calls: seq<Call>, answers: seq<Reply>, chain: seq<Seen>, mailbox: nat,
                                             n: nat)
    requires mailbox > 0 && Explained(calls, answers, chain, mailbox) && EndToEnd.Unbroken(answers) && n <= |calls|
    requires !chain[0].guard.retired
    ensures !chain[n].guard.retired
    decreases n
  {
    if n > 0 {
      UnbrokenStaysOpen(calls, answers, chain, mailbox, n - 1);
      AnsweredPasses(calls[n - 1], answers[n - 1], chain[n - 1], chain[n], mailbox);
    }
  }

  /** What is known of a run of calls, taken apart at the last one. */
  lemma LastCall(disk: seq<byte>, calls: seq<Call>, answers: seq<Reply>, c: Call, r: Reply, writable: bool)
    requires |answers| == |calls| && Judged(calls + [c], answers + [r], |disk|, writable)
    ensures Judged(calls, answers, |disk|, writable)
    ensures !r.Broken? && (r.Refused? <==> Check(Guard(|disk|, writable, false, []), c).Some?)
    ensures var d := EndToEnd.FlatRun(disk, calls, answers);
            EndToEnd.FlatRun(disk, calls + [c], answers + [r])
            == if d.None? then None else EndToEnd.FlatCall(d.value, c, r)
  {
    var k := |calls|;
    forall i | 0 <= i < k
      ensures !answers[i].Broken?
      ensures answers[i].Refused? <==> Check(Guard(|disk|, writable, false, []), calls[i]).Some?
    {
      assert (answers + [r])[i] == answers[i] && (calls + [c])[i] == calls[i];
    }
    assert (answers + [r])[k] == r && (calls + [c])[k] == c;
    assert (answers + [r])[..k] == answers && (calls + [c])[..k] == calls;
  }

  /** The cast of the remaining length loses nothing that this operation wants. */
  predicate Lossless(size: nat, position: nat, op: FileOp, limit: nat)
    requires position <= size && limit > 0
  {
    op.ReadSome? ==> size - position < limit || op.out <= (size - position) % limit
  }

  /** So it is at every operation of a run, wherever the file's position then is. */
  predicate AllLossless(f: File, ops: seq<FileOp>, limit: nat)
    requires Proper(f) && limit > 0
    decreases |ops|
  {
    ops == []
    || (var n := |ops| - 1;
        AllLossless(f, ops[..n], limit) && Lossless(|f.data|, FileRun(f, ops[..n]).0.position, ops[n], limit))
  }

  /** Buffers are no longer than `usize` can say. */
  predicate Sized(ops: seq<FileOp>, limit: nat) {
    forall i :: 0 <= i < |ops| && ops[i].ReadSome? ==> ops[i].out < limit
  }

  /** One operation of the cursor, on a device that is the flat array, is that of the file exactly
      when the cast loses nothing; when it does lose, the reply is another one. */
  lemma CursorStep(f: File, op: FileOp, r: Reply, limit: nat)
    requires Proper(f) && limit > 0 && !op.SeekTo? && Sized([op], limit)
    requires var c := CallOf(op, |f.data|, f.position, limit);
             !r.Broken? && (r.Refused? <==> Check(Guard(|f.data|, f.writable, false, []), c).Some?)
             && EndToEnd.FlatCall(f.data, c, r).Some?
    ensures var c, o := CallOf(op, |f.data|, f.position, limit), FileStep(f, op);
            Lossless(|f.data|, f.position, op, limit) ==>
              EndToEnd.FlatCall(f.data, c, r).value == o.0.data
              && MoveTo(|f.data|, f.position, if r.Served? then Moved(LengthOf(c)) else Stayed) == o.0.position
    ensures FileReplyOf(op, r) == FileStep(f, op).1 <==> Lossless(|f.data|, f.position, op, limit)
  {
    if op.ReadSome? {
      assert [op][0] == op;
      CastIsLossless(|f.data|, f.position, op.out, limit);
      ReadCountFits(|f.data|, f.position, op.out, limit);
      ReadReply(f, op.out, r, ReadCount(|f.data|, f.position, op.out, limit));
    }
  }

  /** A served read of fewer bytes than the file gives is told from the file's by its length. */
  lemma ReadReply(f: File, out: nat, r: Reply, n: nat)
    requires Proper(f) && n <= Min(out, |f.data| - f.position) && r.Served?
    requires EndToEnd.FlatCall(f.data, ReadAt(f.position, n), r).Some?
    ensures r.data == FileStep(f, ReadSome(out)).1.data <==> n == Min(out, |f.data| - f.position)
  {
  }

  /** The cursor's run and the file's have the same replies, position and bytes. */
  predicate Agrees(disk: seq<byte>, writable: bool, t: Trail, answers: seq<Reply>, f: File, replies: seq<FileReply>) {
    && |t.calls| <= |answers| && t.replies == replies && t.position == f.position && f.writable == writable
    && EndToEnd.FlatRun(disk, t.calls, answers[..|t.calls|]) == Some(f.data)
  }

  /** Whether the device answered this run's calls as an unfailing flat array does. */
  predicate AnsweredFlat(disk: seq<byte>, writable: bool, t: Trail, answers: seq<Reply>) {
    && |t.calls| <= |answers| && Judged(t.calls, answers[..|t.calls|], |disk|, writable)
    && EndToEnd.FlatRun(disk, t.calls, answers[..|t.calls|]).Some?
  }

  lemma NextPrefix<T>(s: seq<T>, k: nat)
    requires k < |s|
    ensures s[..k + 1] == s[..k] + [s[k]] && |s[..k]| == k
  {
  }

  lemma AnsweredOne(disk: seq<byte>, writable: bool, calls: seq<Call>, c: Call, answers: seq<Reply>)
    requires |calls| < |answers| && Judged(calls + [c], answers[..|calls| + 1], |disk|, writable)
    requires EndToEnd.FlatRun(disk, calls + [c], answers[..|calls| + 1]).Some?
    ensures var k := |calls|;
            && Judged(calls, answers[..k], |disk|, writable) && EndToEnd.FlatRun(disk, calls, answers[..k]).Some?
            && !answers[k].Broken? && (answers[k].Refused? <==> Check(Guard(|disk|, writable, false, []), c).Some?)
            && EndToEnd.FlatRun(disk, calls + [c], answers[..k + 1])
               == EndToEnd.FlatCall(EndToEnd.FlatRun(disk, calls, answers[..k]).value, c, answers[k])
  {
    var k := |calls|;
    NextPrefix(answers, k);
    LastCall(disk, calls, answers[..k], c, answers[k], writable);
  }

  lemma AnsweredBefore(disk: seq<byte>, writable: bool, t: Trail, op: FileOp, answers: seq<Reply>, limit: nat)
    requires t.position <= |disk| < 0x1_0000_0000_0000_0000 && limit > 0 && !op.SeekTo?
    requires var r := if |t.calls| < |answers| then answers[|t.calls|] else Broken;
             AnsweredFlat(disk, writable, OnTrail(t, op, r, |disk|, limit), answers)
    ensures AnsweredFlat(disk, writable, t, answers)
    ensures var k, c := |t.calls|, CallOf(op, |disk|, t.position, limit);
            && k < |answers| && !answers[k].Broken?
            && (answers[k].Refused? <==> Check(Guard(|disk|, writable, false, []), c).Some?)
            && EndToEnd.FlatRun(disk, t.calls + [c], answers[..k + 1])
               == EndToEnd.FlatCall(EndToEnd.FlatRun(disk, t.calls, answers[..k]).value, c, answers[k])
            && EndToEnd.FlatRun(disk, t.calls + [c], answers[..k + 1]).Some?
  {
    AnsweredOne(disk, writable, t.calls, CallOf(op, |disk|, t.position, limit), answers);
  }

  lemma AgreesOnward(disk: seq<byte>, writable: bool, t: Trail, op: FileOp, answers: seq<Reply>, limit: nat,
                     f: File, replies: seq<FileReply>)
    requires Proper(f) && |f.data| == |disk| && limit > 0 && !op.SeekTo? && Sized([op], limit)
    requires Agrees(disk, writable, t, answers, f, replies)
    requires var r := if |t.calls| < |answers| then answers[|t.calls|] else Broken;
             AnsweredFlat(disk, writable, OnTrail(t, op, r, |disk|, limit), answers)
    ensures |t.calls| < |answers|
    ensures var u, o := OnTrail(t, op, answers[|t.calls|], |disk|, limit), FileStep(f, op);
            && (Lossless(|disk|, f.position, op, limit) ==>
                  Agrees(disk, writable, u, answers, o.0, replies + [o.1]))
            && (u.replies == replies + [o.1] <==> Lossless(|disk|, f.position, op, limit))
  {
    AnsweredBefore(disk, writable, t, op, answers, limit);
    CursorStep(f, op, answers[|t.calls|], limit);
    SameEnds(t.replies, replies, FileReplyOf(op, answers[|t.calls|]), FileStep(f, op).1);
  }

  /** A seek of the cursor, which makes no call, is that of the file. */
  lemma SeekOnward(disk: seq<byte>, writable: bool, t: Trail, op: FileOp, answers: seq<Reply>, limit: nat,
                   f: File, replies: seq<FileReply>)
    requires Proper(f) && |f.data| == |disk| && limit > 0 && op.SeekTo?
             && Agrees(disk, writable, t, answers, f, replies)
    ensures var r := if |t.calls| < |answers| then answers[|t.calls|] else Broken;
            var u, o := OnTrail(t, op, r, |disk|, limit), FileStep(f, op);
            Agrees(disk, writable, u, answers, o.0, replies + [o.1]) && u.replies == replies + [o.1]
  {
  }

  lemma SameEnds<T>(a: seq<T>, b: seq<T>, x: T, y: T)
    ensures a + [x] == b + [y] <==> a == b && x == y
  {
    if a + [x] == b + [y] {
      assert (a + [x])[..|a|] == a && (b + [y])[..|b|] == b;
      assert (a + [x])[|a|] == x && (b + [y])[|b|] == y;
    }
  }

  /** Any operations on a cursor over a device that behaves as a flat array are the same operations
      on the file, with the same replies, position and bytes, if and only if the cast of the
      remaining length loses nothing at any of its reads. */
  lemma {:induction false} CursorIsFile(disk: seq<byte>, writable: bool, ops: seq<FileOp>, answers: seq<Reply>,
                                        limit: nat)
    requires |disk| < 0x1_0000_0000_0000_0000 && limit > 0 && Sized(ops, limit)
    requires AnsweredFlat(disk, writable, Follow(|disk|, ops, answers, limit), answers)
    ensures var f, t := File(disk, 0, writable), Follow(|disk|, ops, answers, limit);
            && (AllLossless(f, ops, limit) ==>
                  Agrees(disk, writable, t, answers, FileRun(f, ops).0, FileRun(f, ops).1))
            && (t.replies == FileRun(f, ops).1 <==> AllLossless(f, ops, limit))
    decreases |ops|
  {
    if ops != [] {
      var n := |ops| - 1;
      var f, t := File(disk, 0, writable), Follow(|disk|, ops[..n], answers, limit);
      var o := FileRun(f, ops[..n]);
      if !ops[n].SeekTo? {
        AnsweredBefore(disk, writable, t, ops[n], answers, limit);
      }
      CursorIsFile(disk, writable, ops[..n], answers, limit);
      if AllLossless(f, ops[..n], limit) {
        if ops[n].SeekTo? {
          SeekOnward(disk, writable, t, ops[n], answers, limit, o.0, o.1);
        } else {
          AgreesOnward(disk, writable, t, ops[n], answers, limit, o.0, o.1);
        }
      } else {
        var u := Follow(|disk|, ops, answers, limit);
        SameEnds(t.replies, o.1, u.replies[|t.replies|], FileStep(o.0, ops[n]).1);
      }
    }
  }

  /** Over the whole stack: as long as the guard has not been retired, by a device failure or by the
      session, a cursor from the start is a file over the medium, and the medium behind it all is that
      file's content, if and only if the cast loses nothing at any read. A medium that `usize` can
      measure always qualifies. */
  lemma StackIsFile(st: EndToEnd.Store, s: Mailbox.Sys, ops: seq<FileOp>, answers: seq<Reply>, chain: seq<Seen>,
                    limit: nat)
    requires |EndToEnd.Disk(st)| < 0x1_0000_0000_0000_0000 && limit > 0 && Sized(ops, limit)
    requires var t := Follow(|EndToEnd.Disk(st)|, ops, answers, limit);
             EndToEnd.Stacked(st, s, t.calls, answers, chain) && !chain[|t.calls|].guard.retired
    ensures |s.journal| <= |s.settled| <= |s.ops|
    ensures var f := File(EndToEnd.Disk(st), 0, chain[0].guard.writable);
            var t, o := Follow(|EndToEnd.Disk(st)|, ops, answers, limit), FileRun(f, ops);
            && (t.replies == o.1 <==> AllLossless(f, ops, limit))
            && (AllLossless(f, ops, limit) ==>
                  t.position == o.0.position && EndToEnd.Disk(EndToEnd.After(st, s, |s.journal|)) == o.0.data)
  {
    var t := Follow(|EndToEnd.Disk(st)|, ops, answers, limit);
    OpenIsJudged(t.calls, answers, chain, |s.buf|);
    EndToEnd.StackIsFlat(st, s, t.calls, answers, chain);
    EndToEnd.WholePrefix(answers);
    CursorIsFile(EndToEnd.Disk(st), chain[0].guard.writable, ops, answers, limit);
  }

  /** When `usize` can hold the length of the whole file, no run loses anything. */
  lemma {:induction false} MeasurableIsLossless(f: File, ops: seq<FileOp>, limit: nat)
    requires Proper(f) && |f.data| < limit
    ensures AllLossless(f, ops, limit)
    decreases |ops|
  {
    if ops != [] {
      MeasurableIsLossless(f, ops[..|ops| - 1], limit);
    }
  }

  /** On a larger file a read can lose what lies before the end: at any position whose remaining
      length is a multiple of what `usize` counts to, every read that should give bytes gives none. */
  lemma LossyRead(f: File, out: nat, r: Reply, limit: nat)
    requires Proper(f) && 0 < out < limit <= |f.data| - f.position && (|f.data| - f.position) % limit == 0
    requires !r.Broken? && EndToEnd.FlatCall(f.data, CallOf(ReadSome(out), |f.data|, f.position, limit), r).Some?
    requires r.Refused? <==> Check(Guard(|f.data|, f.writable, false, []),
                                   CallOf(ReadSome(out), |f.data|, f.position, limit)).Some?
    ensures FileReplyOf(ReadSome(out), r) == Bytes([]) && |FileStep(f, ReadSome(out)).1.data| == out
  {
  }
}
