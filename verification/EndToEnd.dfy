/** Guard, chunking, mailbox, byte ranges and Bulk-Only Transport together: one flat byte array. */
module EndToEnd {
  import opened Bytes
  import Device
  import Bot
  import Lockstep
  import ScsiSpec
  import RangeSpec
  import FlatDisk
  import opened Mailbox
  import opened Chunking
  import GuardSpec
  import GuardObjects
  import WorkerObjects

  // ----- The storage the broker calls -----

  datatype Store = Store(g: ScsiSpec.Geometry, access: RangeSpec.Access, s: Bot.Sess, w: Bot.Wire)

  function Disk(st: Store): seq<byte> {
    st.w.dev.disk
  }

  /** One storage operation of the broker, on the range session. */
  function Serve(st: Store, op: Op): (Store, Outcome)
    requires RangeSpec.Supported(st.g)
  {
    if !(0 <= op.offset < 0x1_0000_0000_0000_0000) then (st, Rejected)
    else
      match op.kind
      case Read =>
        var o := RangeSpec.ReadRange(st.g, st.s, st.w, op.offset, op.length);
        (st.(s := o.s, w := o.w), if o.r.Ok? then Settled(o.r.value) else Rejected)
      case Write =>
        var o := RangeSpec.WriteRange(st.g, st.access, st.s, st.w, op.offset, op.data);
        (st.(s := o.s, w := o.w), if o.r.Ok? then Settled([]) else Rejected)
      case Sync =>
        var o := ScsiSpec.Flush(st.s, st.w);
        (st.(s := o.s, w := o.w), if o.r.Ok? then Settled([]) else Rejected)
  }

  /** The broker awaits each operation before it starts the next. */
  function ServeAll(st: Store, ops: seq<Op>): (o: (Store, seq<Outcome>))
    requires RangeSpec.Supported(st.g)
    ensures o.0.g == st.g && |o.1| == |ops|
    decreases |ops|
  {
    if ops == [] then (st, [])
    else
      var n := |ops| - 1;
      var p := ServeAll(st, ops[..n]);
      var q := Serve(p.0, ops[n]);
      (q.0, p.1 + [q.1])
  }

  /** A connected session on a conforming device. */
  predicate Connected(st: Store) {
    && RangeSpec.Supported(st.g) && st.s.usable && Lockstep.Between(st.s, st.w.dev) && FlatDisk.Fits(st.g, st.w.dev)
  }

  lemma ServeLawful(st: Store, op: Op)
    requires RangeSpec.Supported(st.g) && Serve(st, op).0.w.lawful
    ensures st.w.lawful
  {
    if 0 <= op.offset < 0x1_0000_0000_0000_0000 {
      match op.kind {
        case Read => FlatDisk.ReadRangeLawful(st.g, st.s, st.w, op.offset, op.length);
        case Write => FlatDisk.WriteRangeLawful(st.g, st.access, st.s, st.w, op.offset, op.data);
        case Sync => FlatDisk.CommandLawful(st.s, st.w, ScsiSpec.SYNCHRONIZE_CACHE, 0, []);
      }
    }
  }

  /** What a successful operation means on the flat array: a read is its slice, a write its update. */
  function Applied(disk: seq<byte>, kind: Kind, offset: int, data: seq<byte>, bytes: seq<byte>): Option<seq<byte>> {
    match kind
    case Read =>
      if 0 <= offset && offset + |bytes| <= |disk| && bytes == disk[offset..offset + |bytes|] then Some(disk) else None
    case Write => if 0 <= offset && offset + |data| <= |disk| then Some(Patch(disk, offset, data)) else None
    case Sync => Some(disk)
  }

  /** What is promised of one operation: success is the flat operation, and whatever came of it,
      whatever the device still does, only a write's own range may hold new bytes. */
  ghost predicate ServedFlat(st: Store, op: Op, o: (Store, Outcome)) {
    && (o.1.Settled? ==>
          Connected(o.0) && Applied(Disk(st), op.kind, op.offset, op.data, o.1.bytes) == Some(Disk(o.0)))
    && FlatDisk.Torn(o.0.w.dev, Disk(st), op.offset, if op.kind == Write then op.data else [])
  }

  lemma ReadIsTorn(st: Store, offset: nat, length: nat)
    requires Connected(st) && offset < 0x1_0000_0000_0000_0000
    requires RangeSpec.ReadRange(st.g, st.s, st.w, offset, length).w.lawful
    ensures FlatDisk.Torn(RangeSpec.ReadRange(st.g, st.s, st.w, offset, length).w.dev, Disk(st), offset, [])
  {
    var o := RangeSpec.ReadRange(st.g, st.s, st.w, offset, length);
    FlatDisk.ReadRangeFlat(st.g, st.s, st.w, offset, length);
    if o.w == st.w {
      FlatDisk.SyncedTorn(st.w.dev, offset, []);
    } else {
      FlatDisk.UntouchedTorn(o.w.dev, Disk(st), offset, []);
    }
  }

  lemma SliceApplies(disk: seq<byte>, offset: nat, length: nat, data: seq<byte>, bytes: seq<byte>)
    requires offset + length <= |disk| && bytes == disk[offset..offset + length]
    ensures Applied(disk, Read, offset, data, bytes) == Some(disk)
  {
    assert |bytes| == length;
  }

  lemma ReadServes(st: Store, op: Op)
    requires Connected(st) && op.kind == Read && 0 <= op.offset < 0x1_0000_0000_0000_0000
    ensures var o, r := Serve(st, op), RangeSpec.ReadRange(st.g, st.s, st.w, op.offset, op.length);
            && o.0 == st.(s := r.s, w := r.w) && o.1 == (if r.r.Ok? then Settled(r.r.value) else Rejected)
  {
  }

  lemma ReadIsFlat(st: Store, op: Op)
    requires Connected(st) && op.kind == Read && 0 <= op.offset < 0x1_0000_0000_0000_0000 && Serve(st, op).0.w.lawful
    ensures ServedFlat(st, op, Serve(st, op))
  {
    var r := RangeSpec.ReadRange(st.g, st.s, st.w, op.offset, op.length);
    ReadServes(st, op);
    FlatDisk.ReadRangeFlat(st.g, st.s, st.w, op.offset, op.length);
    ReadIsTorn(st, op.offset, op.length);
    if r.r.Ok? {
      SliceApplies(Disk(st), op.offset, op.length, op.data, r.r.value);
    }
  }

  lemma WriteIsFlat(st: Store, op: Op)
    requires Connected(st) && op.kind == Write && 0 <= op.offset < 0x1_0000_0000_0000_0000 && Serve(st, op).0.w.lawful
    ensures ServedFlat(st, op, Serve(st, op))
  {
    FlatDisk.SyncedTorn(st.w.dev, op.offset, op.data);
    FlatDisk.WriteRangeFlat(st.g, st.access, st.s, st.w, op.offset, op.data);
  }

  lemma SyncIsFlat(st: Store, op: Op)
    requires Connected(st) && op.kind == Sync && 0 <= op.offset < 0x1_0000_0000_0000_0000 && Serve(st, op).0.w.lawful
    ensures ServedFlat(st, op, Serve(st, op))
  {
    FlatDisk.PureCommand(st.s, st.w, ScsiSpec.SYNCHRONIZE_CACHE, 0);
    FlatDisk.UntouchedTorn(Serve(st, op).0.w.dev, Disk(st), op.offset, []);
  }

  /** Every operation the broker makes on a connected session is such. */
  lemma ServeIsFlat(st: Store, op: Op)
    requires Connected(st) && Serve(st, op).0.w.lawful
    ensures ServedFlat(st, op, Serve(st, op))
  {
    if 0 <= op.offset < 0x1_0000_0000_0000_0000 {
      match op.kind {
        case Read => ReadIsFlat(st, op);
        case Write => WriteIsFlat(st, op);
        case Sync => SyncIsFlat(st, op);
      }
    } else {
      FlatDisk.SyncedTorn(st.w.dev, op.offset, if op.kind == Write then op.data else []);
    }
  }

  // ----- The journal of normal returns, replayed on a flat array -----

  function Replay(disk: seq<byte>, entries: seq<Entry>): Option<seq<byte>>
    decreases |entries|
  {
    if entries == [] then Some(disk)
    else
      var n := |entries| - 1;
      var d := Replay(disk, entries[..n]);
      if d.None? then None
      else Applied(d.value, entries[n].req.kind, entries[n].req.offset, entries[n].req.payload, entries[n].data)
  }

  /** The storage promises settled as the range session, called in this order, makes them. */
  predicate Backed(st: Store, s: Sys)
    requires RangeSpec.Supported(st.g) && |s.settled| <= |s.ops|
  {
    s.settled == ServeAll(st, s.ops[..|s.settled|]).1 && ServeAll(st, s.ops[..|s.settled|]).0.w.lawful
  }

  /** The store after the first `n` operations. */
  function After(st: Store, s: Sys, n: nat): Store
    requires RangeSpec.Supported(st.g) && n <= |s.ops|
  {
    ServeAll(st, s.ops[..n]).0
  }

  lemma {:induction false} ServedPrefix(st: Store, ops: seq<Op>, n: nat)
    requires RangeSpec.Supported(st.g) && n <= |ops|
    ensures ServeAll(st, ops[..n]).1 == ServeAll(st, ops).1[..n]
    ensures ServeAll(st, ops).0.w.lawful ==> ServeAll(st, ops[..n]).0.w.lawful
    decreases |ops|
  {
    if n == |ops| {
      assert ops[..n] == ops;
    } else {
      var m := |ops| - 1;
      ServedPrefix(st, ops[..m], n);
      assert ops[..m][..n] == ops[..n];
      var p := ServeAll(st, ops[..m]);
      assert (p.1 + [Serve(p.0, ops[m]).1])[..n] == p.1[..n];
      if ServeAll(st, ops).0.w.lawful {
        ServeLawful(p.0, ops[m]);
      }
    }
  }

  lemma AfterNext(st: Store, s: Sys, n: nat)
    requires RangeSpec.Supported(st.g) && n < |s.ops|
    ensures After(st, s, n + 1) == Serve(After(st, s, n), s.ops[n]).0
    ensures ServeAll(st, s.ops[..n + 1]).1 == ServeAll(st, s.ops[..n]).1 + [Serve(After(st, s, n), s.ops[n]).1]
  {
    var ops := s.ops[..n + 1];
    assert ops[..n] == s.ops[..n] && ops[n] == s.ops[n];
  }

  /** The `n`-th settled operation, as the range session served it. */
  lemma SettledNext(st: Store, s: Sys, n: nat)
    requires RangeSpec.Supported(st.g) && n < |s.settled| <= |s.ops| && Backed(st, s)
    ensures var o := Serve(After(st, s, n), s.ops[n]);
            s.settled[n] == o.1 && After(st, s, n + 1) == o.0 && o.0.w.lawful
  {
    var done := s.ops[..|s.settled|];
    assert done[..n + 1] == s.ops[..n + 1];
    ServedPrefix(st, done, n + 1);
    AfterNext(st, s, n);
    assert s.settled[..n + 1][n] == s.settled[n];
  }

  /** Every normal return of the mailbox, in every run, is the flat operation at that point. */
  lemma {:induction false} JournalIsFlat(st: Store, s: Sys, n: nat)
    requires Inv(s) && Connected(st) && Backed(st, s) && n <= |s.journal|
    ensures n <= |s.ops| && Connected(After(st, s, n))
            && Replay(Disk(st), s.journal[..n]) == Some(Disk(After(st, s, n)))
    decreases n
  {
    if n > 0 {
      JournalIsFlat(st, s, n - 1);
      SettledNext(st, s, n - 1);
      ServeIsFlat(After(st, s, n - 1), s.ops[n - 1]);
      assert Matches(s.journal[n - 1], s.ops[n - 1], s.settled[n - 1]);
      JournalStep(st, s, n);
    }
  }

  lemma JournalStep(st: Store, s: Sys, n: nat)
    requires RangeSpec.Supported(st.g) && 0 < n <= |s.journal| <= |s.settled| <= |s.ops|
             && Matches(s.journal[n - 1], s.ops[n - 1], s.settled[n - 1])
    requires Replay(Disk(st), s.journal[..n - 1]) == Some(Disk(After(st, s, n - 1)))
    requires var o := Serve(After(st, s, n - 1), s.ops[n - 1]);
             s.settled[n - 1] == o.1 && After(st, s, n) == o.0
             && Some(Disk(o.0)) == Applied(Disk(After(st, s, n - 1)), s.ops[n - 1].kind, s.ops[n - 1].offset,
                                           s.ops[n - 1].data, o.1.bytes)
    ensures Replay(Disk(st), s.journal[..n]) == Some(Disk(After(st, s, n)))
  {
    var e := s.journal[..n];
    assert e[..n - 1] == s.journal[..n - 1];
  }

  // ----- Chunked transfers on the flat array -----

  lemma {:induction false} ReplayJoin(disk: seq<byte>, a: seq<Entry>, b: seq<Entry>)
    ensures Replay(disk, a + b) == (var d := Replay(disk, a); if d.None? then None else Replay(d.value, b))
    decreases |b|
  {
    if b == [] {
      assert a + b == a;
    } else {
      var n := |b| - 1;
      ReplayJoin(disk, a, b[..n]);
      assert (a + b)[..|a + b| - 1] == a + b[..n];
    }
  }

  /** Reads in the journal are full length. */
  predicate Sized(entries: seq<Entry>) {
    forall i :: 0 <= i < |entries| && entries[i].req.kind == Read ==> |entries[i].data| == entries[i].req.length
  }

  /** These entries were made for the first of these requests. */
  predicate AskedBy(es: seq<Entry>, p: seq<Req>) {
    |es| <= |p| && forall i :: 0 <= i < |es| ==> es[i].req == p[i]
  }

  lemma RequestsAsked(es: seq<Entry>, p: seq<Req>, k: nat)
    requires k <= |p| && Requests(es) == p[..k]
    ensures |es| == k && AskedBy(es, p)
  {
    forall i | 0 <= i < |es|
      ensures es[i].req == p[i]
    {
      assert Requests(es)[i] == p[..k][i];
    }
  }

  lemma ReadOnward(disk: seq<byte>, got: seq<byte>, offset: nat, mid: nat, payload: seq<byte>, bytes: seq<byte>)
    requires offset <= mid <= |disk| && got == disk[offset..mid] && Applied(disk, Read, mid, payload, bytes).Some?
    ensures Applied(disk, Read, mid, payload, bytes) == Some(disk)
    ensures mid + |bytes| <= |disk| && got + bytes == disk[offset..mid + |bytes|]
  {
    SliceOnward(disk, offset, mid, mid + |bytes|);
  }

  /** Replay and what was read, taken apart at the last entry. */
  lemma LastEntry(disk: seq<byte>, es: seq<Entry>)
    requires es != [] && Replay(disk, es).Some?
    ensures var n := |es| - 1; var r := es[n].req;
            Replay(disk, es[..n]).Some?
            && Replay(disk, es) == Applied(Replay(disk, es[..n]).value, r.kind, r.offset, r.payload, es[n].data)
            && Gathered(es) == Gathered(es[..n]) + es[n].data
  {
  }

  /** A chunked read returns the slice as far as it got, and leaves the array alone. */
  lemma {:induction false} ReadReplay(disk: seq<byte>, es: seq<Entry>, p: seq<Req>, offset: nat, length: nat,
                                      mailbox: nat)
    requires offset + length <= |disk| && Listed(p, Read, offset, length, [], mailbox) && AskedBy(es, p)
             && Replay(disk, es).Some?
    requires Sized(es)
    ensures var at := Begun(p, |es|, offset, length);
            0 <= at <= length && Replay(disk, es) == Some(disk) && Gathered(es) == disk[offset..offset + at]
    decreases |es|
  {
    if es != [] {
      var n := |es| - 1;
      LastEntry(disk, es);
      ReadReplay(disk, es[..n], p, offset, length, mailbox);
      PieceAt(p, n, Read, offset, length, [], mailbox);
      ReadOnward(disk, Gathered(es[..n]), offset, offset + Begun(p, n, offset, length), es[n].req.payload, es[n].data);
    }
  }

  lemma SliceOnward(disk: seq<byte>, from: nat, mid: nat, to: nat)
    requires from <= mid <= to <= |disk|
    ensures disk[from..mid] + disk[mid..to] == disk[from..to]
  {
  }

  /** A chunked write has updated the range as far as it got. */
  lemma {:induction false} WriteReplay(disk: seq<byte>, es: seq<Entry>, p: seq<Req>, offset: nat, data: seq<byte>,
                                       mailbox: nat)
    requires offset + |data| <= |disk| && Listed(p, Write, offset, |data|, data, mailbox) && AskedBy(es, p)
             && Replay(disk, es).Some?
    ensures var at := Begun(p, |es|, offset, |data|);
            0 <= at <= |data| && Replay(disk, es) == Some(Patch(disk, offset, data[..at]))
    decreases |es|
  {
    if es == [] {
      assert Patch(disk, offset, data[..0]) == disk;
    } else {
      var n := |es| - 1;
      LastEntry(disk, es);
      WriteReplay(disk, es[..n], p, offset, data, mailbox);
      PieceAt(p, n, Write, offset, |data|, data, mailbox);
      PatchOnward(disk, offset, data, Begun(p, n, offset, |data|), p[n].length);
    }
  }

  lemma PatchOnward(disk: seq<byte>, offset: nat, data: seq<byte>, at: nat, n: nat)
    requires offset + |data| <= |disk| && at + n <= |data|
    ensures Patch(Patch(disk, offset, data[..at]), offset + at, data[at..at + n]) == Patch(disk, offset, data[..at + n])
  {
    var l := Patch(Patch(disk, offset, data[..at]), offset + at, data[at..at + n]);
    var r := Patch(disk, offset, data[..at + n]);
    forall i | 0 <= i < |disk|
      ensures l[i] == r[i]
    {
    }
  }

  // ----- Engine calls on the flat array -----

  /** What a reply means: a served read is the slice, a served write the update, a served flush or
      any refusal nothing. */
  function FlatCall(disk: seq<byte>, c: GuardSpec.Call, r: GuardSpec.Reply): Option<seq<byte>> {
    match r
    case Refused(_) => Some(disk)
    case Broken => None
    case Served(bytes) =>
      match c
      case ReadAt(offset, n) =>
        if offset + n <= |disk| && bytes == disk[offset..offset + n] then Some(disk) else None
      case WriteAt(offset, data) => if offset + |data| <= |disk| then Some(Patch(disk, offset, data)) else None
      case FlushAll => Some(disk)
  }

  function FlatRun(disk: seq<byte>, calls: seq<GuardSpec.Call>, replies: seq<GuardSpec.Reply>): Option<seq<byte>>
    requires |calls| == |replies|
    decreases |calls|
  {
    if calls == [] then Some(disk)
    else
      var n := |calls| - 1;
      var d := FlatRun(disk, calls[..n], replies[..n]);
      if d.None? then None else FlatCall(d.value, calls[n], replies[n])
  }

  lemma SizedSuffix(entries: seq<Entry>, k: nat)
    requires Sized(entries) && k <= |entries|
    ensures Sized(entries[k..]) && Sized(entries[..k])
  {
  }

  lemma ServedRead(disk: seq<byte>, es: seq<Entry>, offset: nat, n: nat, bytes: seq<byte>, mailbox: nat)
    requires mailbox > 0 && offset + n <= |disk| && Sized(es) && Replay(disk, es).Some? && bytes == Gathered(es)
    requires Requests(es) == Pieces(Read, offset, n, [], mailbox)
    ensures Replay(disk, es) == Some(disk) && bytes == disk[offset..offset + n]
  {
    var p := Pieces(Read, offset, n, [], mailbox);
    WholePrefix(p);
    PiecesListed(Read, offset, n, [], mailbox);
    RequestsAsked(es, p, |p|);
    ReadReplay(disk, es, p, offset, n, mailbox);
  }

  lemma ServedWrite(disk: seq<byte>, es: seq<Entry>, offset: nat, data: seq<byte>, mailbox: nat)
    requires mailbox > 0 && offset + |data| <= |disk| && Replay(disk, es).Some?
    requires Requests(es) == Pieces(Write, offset, |data|, data, mailbox)
    ensures Replay(disk, es) == Some(Patch(disk, offset, data))
  {
    var p := Pieces(Write, offset, |data|, data, mailbox);
    WholePrefix(p);
    WholePrefix(data);
    PiecesListed(Write, offset, |data|, data, mailbox);
    RequestsAsked(es, p, |p|);
    WriteReplay(disk, es, p, offset, data, mailbox);
  }

  lemma ServedFlush(disk: seq<byte>, es: seq<Entry>)
    requires Requests(es) == [Req(Sync, 0, 0, [])]
    ensures Replay(disk, es) == Some(disk)
  {
    assert Requests(es)[0] == es[0].req && es[..0] == [];
  }

  lemma TransferredWhole(p: seq<Req>, before: seq<Entry>, after: seq<Entry>, bytes: seq<byte>, last: Req)
    requires Transferred(p, before, after, Some(bytes), last)
    ensures before <= after && Requests(after[|before|..]) == p && bytes == Gathered(after[|before|..])
  {
    WholePrefix(p);
  }

  lemma AnsweredServed(c: GuardSpec.Call, bytes: seq<byte>, a: GuardObjects.Seen, b: GuardObjects.Seen, mailbox: nat)
    requires mailbox > 0 && GuardObjects.Answered(c, GuardSpec.Served(bytes), a, b, mailbox)
    ensures GuardSpec.OffsetOf(c) + GuardSpec.LengthOf(c) <= a.guard.size && a.journal <= b.journal
    ensures var es := b.journal[|a.journal|..];
            Requests(es) == GuardObjects.PiecesOf(c, mailbox) && bytes == Gathered(es)
  {
    TransferredWhole(GuardObjects.PiecesOf(c, mailbox), a.journal, b.journal, bytes, b.last);
  }

  lemma ServedEntries(disk: seq<byte>, c: GuardSpec.Call, bytes: seq<byte>, es: seq<Entry>, mailbox: nat)
    requires mailbox > 0 && GuardSpec.OffsetOf(c) + GuardSpec.LengthOf(c) <= |disk| && Sized(es)
             && Replay(disk, es).Some?
    requires Requests(es) == GuardObjects.PiecesOf(c, mailbox) && bytes == Gathered(es)
    ensures Replay(disk, es) == FlatCall(disk, c, GuardSpec.Served(bytes))
  {
    match c {
      case ReadAt(offset, n) => ServedRead(disk, es, offset, n, bytes, mailbox);
      case WriteAt(offset, data) => ServedWrite(disk, es, offset, data, mailbox);
      case FlushAll => ServedFlush(disk, es);
    }
  }

  /** One served call is one flat operation. */
  lemma ServedCall(disk: seq<byte>, c: GuardSpec.Call, bytes: seq<byte>, a: GuardObjects.Seen, b: GuardObjects.Seen,
                   mailbox: nat)
    requires mailbox > 0 && GuardObjects.Answered(c, GuardSpec.Served(bytes), a, b, mailbox)
    requires a.guard.size == |disk| && Sized(b.journal)
    requires |a.journal| <= |b.journal| && Replay(disk, b.journal[|a.journal|..]).Some?
    ensures Replay(disk, b.journal[|a.journal|..]) == FlatCall(disk, c, GuardSpec.Served(bytes))
  {
    AnsweredServed(c, bytes, a, b, mailbox);
    SizedSuffix(b.journal, |a.journal|);
    ServedEntries(disk, c, bytes, b.journal[|a.journal|..], mailbox);
  }

  lemma {:induction false} ReplayKeepsSize(disk: seq<byte>, entries: seq<Entry>)
    ensures Replay(disk, entries).Some? ==> |Replay(disk, entries).value| == |disk|
    decreases |entries|
  {
    if entries != [] {
      ReplayKeepsSize(disk, entries[..|entries| - 1]);
    }
  }

  predicate Unbroken(replies: seq<GuardSpec.Reply>) {
    forall i :: 0 <= i < |replies| ==> !replies[i].Broken?
  }

  /** Any engine run without a device failure is the same run on one flat array. */
  lemma {:induction false} EngineIsFlat(disk: seq<byte>, calls: seq<GuardSpec.Call>, replies: seq<GuardSpec.Reply>,
                                        chain: seq<GuardObjects.Seen>, mailbox: nat, n: nat)
    requires mailbox > 0 && GuardObjects.Lived(calls, replies, chain, mailbox) && n <= |calls|
             && Unbroken(replies[..n])
    requires chain[0].guard.size == |disk| && chain[0].journal == [] && Sized(chain[n].journal)
    requires Replay(disk, chain[n].journal).Some?
    ensures FlatRun(disk, calls[..n], replies[..n]) == Replay(disk, chain[n].journal)
    ensures chain[n].guard.size == |disk|
    decreases n
  {
    if n > 0 {
      var m := n - 1;
      assert GuardObjects.Met(calls[m], replies[m], chain[m], chain[n], mailbox);
      assert replies[..n][m] == replies[m];
      EngineStep(disk, calls[m], replies[m], chain[m], chain[n], mailbox);
      UnbrokenPrefix(replies, n);
      EngineIsFlat(disk, calls, replies, chain, mailbox, m);
      var d := Replay(disk, chain[m].journal).value;
      ReplayKeepsSize(disk, chain[m].journal);
      assert calls[..n][..m] == calls[..m] && replies[..n][..m] == replies[..m];
      if replies[m].Served? {
        ServedCall(d, calls[m], replies[m].data, chain[m], chain[n], mailbox);
      }
    }
  }

  lemma UnbrokenPrefix(replies: seq<GuardSpec.Reply>, n: nat)
    requires 0 < n <= |replies| && Unbroken(replies[..n])
    ensures Unbroken(replies[..n - 1]) && !replies[n - 1].Broken?
  {
    assert replies[..n][n - 1] == replies[n - 1];
    assert replies[..n][..n - 1] == replies[..n - 1];
  }

  /** One call continues the journal, and the journal's replay. */
  lemma EngineStep(disk: seq<byte>, c: GuardSpec.Call, r: GuardSpec.Reply, a: GuardObjects.Seen, b: GuardObjects.Seen,
                   mailbox: nat)
    requires mailbox > 0 && GuardObjects.Met(c, r, a, b, mailbox) && Sized(b.journal)
             && Replay(disk, b.journal).Some?
    ensures a.journal <= b.journal && Sized(a.journal) && Replay(disk, a.journal).Some?
    ensures Replay(disk, b.journal) == Replay(Replay(disk, a.journal).value, b.journal[|a.journal|..])
    ensures b.guard.size == a.guard.size
  {
    assert a.journal <= b.journal;
    var es := b.journal[|a.journal|..];
    PrefixParts(a.journal, b.journal);
    SizedSuffix(b.journal, |a.journal|);
    ReplayJoin(disk, a.journal, es);
  }

  lemma PrefixParts<T>(a: seq<T>, b: seq<T>)
    requires a <= b
    ensures b == a + b[|a|..] && a == b[..|a|]
  {
  }

  lemma RetiredRefusesOne(calls: seq<GuardSpec.Call>, replies: seq<GuardSpec.Reply>, chain: seq<GuardObjects.Seen>,
                          mailbox: nat, j: nat)
    requires mailbox > 0 && GuardObjects.Lived(calls, replies, chain, mailbox) && j < |calls|
             && chain[j].guard.retired
    ensures chain[j + 1] == chain[j] && replies[j] == GuardSpec.Refused(GuardSpec.DeviceRetired)
  {
    assert GuardObjects.Met(calls[j], replies[j], chain[j], chain[j + 1], mailbox);
  }

  /** Once the guard is retired every call is refused and nothing moves. */
  lemma {:induction false} RetiredRefuses(calls: seq<GuardSpec.Call>, replies: seq<GuardSpec.Reply>,
                                          chain: seq<GuardObjects.Seen>, mailbox: nat, i: nat, j: nat)
    requires mailbox > 0 && GuardObjects.Lived(calls, replies, chain, mailbox) && i <= j <= |calls|
             && chain[i].guard.retired
    ensures chain[j] == chain[i]
    ensures i < j ==> replies[j - 1] == GuardSpec.Refused(GuardSpec.DeviceRetired)
    decreases j
  {
    if i < j {
      RetiredRefuses(calls, replies, chain, mailbox, i, j - 1);
      RetiredRefusesOne(calls, replies, chain, mailbox, j - 1);
    }
  }

  // ----- The whole stack -----

  /** The engine made these calls over this mailbox from the start, the session perhaps retiring the
      guard at some point, with this store behind the broker. */
  ghost predicate Stacked(st: Store, s: Sys, calls: seq<GuardSpec.Call>, replies: seq<GuardSpec.Reply>,
                          chain: seq<GuardObjects.Seen>) {
    && Inv(s) && |s.buf| > 0 && GuardObjects.Lived(calls, replies, chain, |s.buf|)
    && chain[|calls|].journal == s.journal && chain[|calls|].last == s.w.req
    && chain[0].journal == [] && chain[0].guard.size == |Disk(st)|
    && Connected(st) && Backed(st, s)
  }

  lemma JournalSized(s: Sys)
    requires Inv(s)
    ensures Sized(s.journal)
  {
    forall i | 0 <= i < |s.journal| && s.journal[i].req.kind == Read
      ensures |s.journal[i].data| == s.journal[i].req.length
    {
      assert Matches(s.journal[i], s.ops[i], s.settled[i]);
    }
  }

  lemma WholePrefix<T>(s: seq<T>)
    ensures s[..|s|] == s
  {
  }

  /** As long as no device failure has been returned to the engine, every reply of every call, and
      the disk behind it all, are exactly those of one flat byte array. */
  lemma StackIsFlat(st: Store, s: Sys, calls: seq<GuardSpec.Call>, replies: seq<GuardSpec.Reply>,
                    chain: seq<GuardObjects.Seen>)
    requires Stacked(st, s, calls, replies, chain) && Unbroken(replies)
    ensures |s.journal| <= |s.settled|
    ensures FlatRun(Disk(st), calls, replies) == Some(Disk(After(st, s, |s.journal|)))
    ensures s.w.pc == Idle ==> After(st, s, |s.journal|) == ServeAll(st, s.ops).0
  {
    JournalIsFlat(st, s, |s.journal|);
    JournalSized(s);
    WholePrefix(s.journal);
    WholePrefix(calls);
    WholePrefix(replies);
    EngineIsFlat(Disk(st), calls, replies, chain, |s.buf|, |calls|);
    WholePrefix(s.ops);
  }

  lemma ConfinedOnward(disk: seq<byte>, now: seq<byte>, offset: nat, data: seq<byte>, at: nat, n: nat)
    requires offset + |data| <= |disk| && at + n <= |data|
    requires Confined(Patch(disk, offset, data[..at]), now, offset + at, data[at..at + n])
    ensures Confined(disk, now, offset, data)
  {
    var mid := Patch(disk, offset, data[..at]);
    forall p | 0 <= p < |disk|
      ensures now[p] == disk[p] || (offset <= p < offset + |data| && now[p] == data[p - offset])
    {
      assert now[p] == mid[p] || (offset + at <= p < offset + at + n && now[p] == data[at..at + n][p - offset - at]);
    }
  }

  lemma ConfinedPatch(disk: seq<byte>, offset: nat, data: seq<byte>, at: nat)
    requires offset + |data| <= |disk| && at <= |data|
    ensures Confined(disk, Patch(disk, offset, data[..at]), offset, data)
  {
  }

  /** What one byte range of a failed call may hold: for a write, old or new bytes inside its range
      and nothing else; for a read or flush, no change at all. */
  predicate FailedCall(disk: seq<byte>, c: GuardSpec.Call, now: seq<byte>) {
    if c.WriteAt? then Confined(disk, now, c.offset, c.data) else now == disk
  }

  /** The failed call itself: what its completed requests did, and where the last one aimed. */
  lemma BrokenCall(disk: seq<byte>, c: GuardSpec.Call, a: GuardObjects.Seen, b: GuardObjects.Seen, mailbox: nat)
    returns (at: nat)
    requires mailbox > 0 && GuardObjects.Answered(c, GuardSpec.Broken, a, b, mailbox)
    requires a.guard.size == |disk| && Sized(b.journal) && a.journal <= b.journal
    requires Replay(disk, b.journal[|a.journal|..]).Some?
    ensures if c.WriteAt? then
              c.offset + |c.data| <= |disk| && b.last.kind == Write && b.last.offset == c.offset + at
              && at + b.last.length <= |c.data|
              && b.last.payload == c.data[at..at + b.last.length]
              && Replay(disk, b.journal[|a.journal|..]) == Some(Patch(disk, c.offset, c.data[..at]))
            else b.last.kind != Write && Replay(disk, b.journal[|a.journal|..]) == Some(disk)
  {
    var es := b.journal[|a.journal|..];
    var p := GuardObjects.PiecesOf(c, mailbox);
    SizedSuffix(b.journal, |a.journal|);
    var k: nat, got :| k < |p| && Partial(p, a.journal, b.journal, got, k) && b.last == p[k];
    RequestsAsked(es, p, k);
    match c {
      case ReadAt(offset, n) =>
        at := 0;
        PiecesListed(Read, offset, n, [], mailbox);
        ReadReplay(disk, es, p, offset, n, mailbox);
        PieceAt(p, k, Read, offset, n, [], mailbox);
      case WriteAt(offset, data) =>
        PiecesListed(Write, offset, |data|, data, mailbox);
        WriteReplay(disk, es, p, offset, data, mailbox);
        PieceAt(p, k, Write, offset, |data|, data, mailbox);
        at := Begun(p, k, offset, |data|);
      case FlushAll =>
        at := 0;
        assert es == [];
    }
  }

  lemma OnePastJournal(s: Sys)
    requires Inv(s)
    ensures |s.journal| <= |s.settled| <= |s.ops| <= |s.journal| + 1
    ensures |s.ops| > |s.journal| ==> Serves(s.ops[|s.journal|], s.w.req)
  {
  }

  /** What the disk holds after one more operation, and after whatever the device then still does. */
  lemma OneMore(st: Store, s: Sys, n: nat, moves: seq<Device.Device>)
    requires RangeSpec.Supported(st.g) && n < |s.ops| && Connected(After(st, s, n)) && After(st, s, n + 1).w.lawful
    requires FlatDisk.Drifts(After(st, s, n + 1).w.dev, moves)
    ensures var d, f, op := Disk(After(st, s, n)), FlatDisk.Rest(After(st, s, n + 1).w.dev, moves).disk, s.ops[n];
            if op.kind == Write then Confined(d, f, op.offset, op.data) else d == f
  {
    AfterNext(st, s, n);
    ServeIsFlat(After(st, s, n), s.ops[n]);
    TornOnce(After(st, s, n + 1).w.dev, Disk(After(st, s, n)), s.ops[n].offset,
             if s.ops[n].kind == Write then s.ops[n].data else [], moves);
  }

  lemma TornOnce(d: Device.Device, before: seq<byte>, offset: int, bytes: seq<byte>, moves: seq<Device.Device>)
    requires FlatDisk.Torn(d, before, offset, bytes) && FlatDisk.Drifts(d, moves)
    ensures Confined(before, FlatDisk.Rest(d, moves).disk, offset, bytes)
    ensures bytes == [] ==> FlatDisk.Rest(d, moves).disk == before
  {
  }

  /** After the failure: the last storage operation, settled or still to settle, is for the last request. */
  lemma LastOperation(st: Store, s: Sys, m: nat, moves: seq<Device.Device>)
    requires RangeSpec.Supported(st.g) && |s.journal| <= m <= |s.ops| && m <= |s.journal| + 1
    requires m > |s.journal| ==> Serves(s.ops[|s.journal|], s.w.req)
    requires Connected(After(st, s, |s.journal|)) && After(st, s, m).w.lawful
    requires FlatDisk.Drifts(After(st, s, m).w.dev, moves)
    ensures var d, f := Disk(After(st, s, |s.journal|)), FlatDisk.Rest(After(st, s, m).w.dev, moves).disk;
            if s.w.req.kind == Write && m > |s.journal| then Confined(d, f, s.w.req.offset, s.w.req.payload) else d == f
  {
    if m > |s.journal| {
      OneMore(st, s, |s.journal|, moves);
    } else {
      FlatDisk.SyncedTorn(After(st, s, m).w.dev, 0, []);
      TornOnce(After(st, s, m).w.dev, Disk(After(st, s, m)), 0, [], moves);
    }
  }

  /** The first underlying failure ends everything: the calls before it were those of a flat array;
      every call after it is refused without a request, a message or a transfer; and the disk is
      that array except, for a write, old or new bytes inside its own range: after the `m` operations
      that have settled, likewise however one still under way may end, and after every move the
      device goes on to make by itself. */
  lemma StackFailsClosed(st: Store, s: Sys, calls: seq<GuardSpec.Call>, replies: seq<GuardSpec.Reply>,
                         chain: seq<GuardObjects.Seen>, i: nat, m: nat, moves: seq<Device.Device>)
    requires Stacked(st, s, calls, replies, chain) && i < |replies| && replies[i].Broken? && Unbroken(replies[..i])
    requires |s.settled| <= m <= |s.ops| && After(st, s, m).w.lawful && FlatDisk.Drifts(After(st, s, m).w.dev, moves)
    ensures |s.journal| <= |s.settled| <= |s.ops| <= |s.journal| + 1
    ensures var d := FlatRun(Disk(st), calls[..i], replies[..i]);
            d.Some? && FailedCall(d.value, calls[i], FlatDisk.Rest(After(st, s, m).w.dev, moves).disk)
    ensures forall j :: i < j < |replies| ==> replies[j] == GuardSpec.Refused(GuardSpec.DeviceRetired)
    ensures forall j :: i < j <= |calls| ==> chain[j] == chain[i + 1]
  {
    AllRefused(calls, replies, chain, |s.buf|, i);
    FailedDisk(st, s, calls, replies, chain, i, m, moves);
  }

  lemma NothingMoves(calls: seq<GuardSpec.Call>, replies: seq<GuardSpec.Reply>, chain: seq<GuardObjects.Seen>,
                     mailbox: nat, i: nat)
    requires mailbox > 0 && GuardObjects.Lived(calls, replies, chain, mailbox) && i <= |calls|
             && chain[i].guard.retired
    ensures forall j :: i <= j < |replies| ==> replies[j] == GuardSpec.Refused(GuardSpec.DeviceRetired)
    ensures forall j :: i <= j <= |calls| ==> chain[j] == chain[i]
  {
    forall j | i <= j <= |calls|
      ensures chain[j] == chain[i]
    {
      RetiredRefuses(calls, replies, chain, mailbox, i, j);
    }
    forall j | i <= j < |replies|
      ensures replies[j] == GuardSpec.Refused(GuardSpec.DeviceRetired)
    {
      RetiredRefuses(calls, replies, chain, mailbox, i, j + 1);
    }
  }

  lemma BrokenRetires(c: GuardSpec.Call, r: GuardSpec.Reply, a: GuardObjects.Seen, b: GuardObjects.Seen, mailbox: nat)
    requires mailbox > 0 && GuardObjects.Answered(c, r, a, b, mailbox) && r.Broken?
    ensures b.guard.retired
  {
  }

  /** After a failure nothing moves any more. */
  lemma AllRefused(calls: seq<GuardSpec.Call>, replies: seq<GuardSpec.Reply>, chain: seq<GuardObjects.Seen>,
                   mailbox: nat, i: nat)
    requires mailbox > 0 && GuardObjects.Lived(calls, replies, chain, mailbox) && i < |calls| && replies[i].Broken?
    ensures GuardObjects.Answered(calls[i], GuardSpec.Broken, chain[i], chain[|calls|], mailbox)
    ensures forall j :: i < j < |replies| ==> replies[j] == GuardSpec.Refused(GuardSpec.DeviceRetired)
    ensures forall j :: i < j <= |calls| ==> chain[j] == chain[i + 1]
  {
    assert GuardObjects.Met(calls[i], replies[i], chain[i], chain[i + 1], mailbox);
    BrokenRetires(calls[i], replies[i], chain[i], chain[i + 1], mailbox);
    NothingMoves(calls, replies, chain, mailbox, i + 1);
  }

  /** Up to the failed call the run is flat, and the journal goes on from there. */
  lemma FailedPrefix(st: Store, s: Sys, calls: seq<GuardSpec.Call>, replies: seq<GuardSpec.Reply>,
                     chain: seq<GuardObjects.Seen>, i: nat)
    returns (disk: seq<byte>)
    requires Stacked(st, s, calls, replies, chain) && i < |replies| && Unbroken(replies[..i])
    requires GuardObjects.Answered(calls[i], GuardSpec.Broken, chain[i], chain[|calls|], |s.buf|)
    ensures FlatRun(Disk(st), calls[..i], replies[..i]) == Some(disk) && chain[i].guard.size == |disk|
    ensures chain[i].journal <= s.journal && Sized(s.journal)
            && |s.journal| <= |s.settled| <= |s.ops| <= |s.journal| + 1
    ensures Connected(After(st, s, |s.journal|)) && (|s.ops| > |s.journal| ==> Serves(s.ops[|s.journal|], s.w.req))
    ensures Replay(disk, s.journal[|chain[i].journal|..]) == Some(Disk(After(st, s, |s.journal|)))
  {
    OnePastJournal(s);
    JournalIsFlat(st, s, |s.journal|);
    JournalSized(s);
    WholePrefix(s.journal);
    EngineStep(Disk(st), calls[i], GuardSpec.Broken, chain[i], chain[|calls|], |s.buf|);
    EngineIsFlat(Disk(st), calls, replies, chain, |s.buf|, i);
    ReplayKeepsSize(Disk(st), chain[i].journal);
    disk := Replay(Disk(st), chain[i].journal).value;
  }

  lemma FailedBytes(disk: seq<byte>, c: GuardSpec.Call, a: GuardObjects.Seen, b: GuardObjects.Seen, mailbox: nat,
                    mid: seq<byte>, now: seq<byte>)
    requires mailbox > 0 && GuardObjects.Answered(c, GuardSpec.Broken, a, b, mailbox)
    requires a.guard.size == |disk| && Sized(b.journal) && a.journal <= b.journal
    requires Replay(disk, b.journal[|a.journal|..]) == Some(mid)
    requires now == mid || (b.last.kind == Write && Confined(mid, now, b.last.offset, b.last.payload))
    ensures FailedCall(disk, c, now)
  {
    var at := BrokenCall(disk, c, a, b, mailbox);
    LastBytes(disk, c, b.last, at, mid, now);
  }

  lemma FailedDisk(st: Store, s: Sys, calls: seq<GuardSpec.Call>, replies: seq<GuardSpec.Reply>,
                   chain: seq<GuardObjects.Seen>, i: nat, m: nat, moves: seq<Device.Device>)
    requires Stacked(st, s, calls, replies, chain) && i < |replies| && Unbroken(replies[..i])
    requires GuardObjects.Answered(calls[i], GuardSpec.Broken, chain[i], chain[|calls|], |s.buf|)
    requires |s.settled| <= m <= |s.ops| && After(st, s, m).w.lawful && FlatDisk.Drifts(After(st, s, m).w.dev, moves)
    ensures |s.journal| <= |s.settled| <= |s.ops| <= |s.journal| + 1
    ensures var d := FlatRun(Disk(st), calls[..i], replies[..i]);
            d.Some? && FailedCall(d.value, calls[i], FlatDisk.Rest(After(st, s, m).w.dev, moves).disk)
  {
    var d := FailedPrefix(st, s, calls, replies, chain, i);
    LastOperation(st, s, m, moves);
    FailedBytes(d, calls[i], chain[i], chain[|calls|], |s.buf|, Disk(After(st, s, |s.journal|)),
                FlatDisk.Rest(After(st, s, m).w.dev, moves).disk);
  }

  /** The completed part of the failed call, and then perhaps its last request. */
  lemma LastBytes(disk: seq<byte>, c: GuardSpec.Call, last: Req, at: nat, mid: seq<byte>, now: seq<byte>)
    requires if c.WriteAt? then
               c.offset + |c.data| <= |disk| && last.kind == Write && last.offset == c.offset + at
               && at + last.length <= |c.data|
               && last.payload == c.data[at..at + last.length] && mid == Patch(disk, c.offset, c.data[..at])
             else last.kind != Write && mid == disk
    requires now == mid || (last.kind == Write && Confined(mid, now, last.offset, last.payload))
    ensures FailedCall(disk, c, now)
  {
    if c.WriteAt? {
      if now == mid {
        ConfinedPatch(disk, c.offset, c.data, at);
      } else {
        ConfinedOnward(disk, now, c.offset, c.data, at, last.length);
      }
    }
  }

  /** The objects in their own form stand under these results: whatever calls the engine makes and
      whatever the broker's context does meanwhile, and whatever connected store backs it. */
  method RunStack(capacity: nat, writable: bool, mailbox: nat, beats: seq<WorkerObjects.Beat>,
                  calls: seq<GuardSpec.Call>)
    returns (replies: seq<GuardSpec.Reply>, context: WorkerObjects.Context, ghost chain: seq<GuardObjects.Seen>)
    requires mailbox > 0
    ensures fresh(context) && |replies| == |calls|
    ensures Legal(Initial(capacity, writable, mailbox), context.history)
            && context.sys == Run(Initial(capacity, writable, mailbox), context.history)
    ensures Standing(context.sys, capacity, calls, replies, chain)
  {
    context := new WorkerObjects.Context(capacity, writable, mailbox, beats);
    var guard := new GuardObjects.Guarded(context, writable);
    replies, chain := GuardObjects.RunEngine(guard, calls);
    GuardObjects.ExplainedLived(calls, replies, chain, mailbox);
    context.Sound();
  }

  /** Whatever connected store turns out to back this run, the results about the stack apply to it. */
  ghost predicate Standing(s: Sys, capacity: nat, calls: seq<GuardSpec.Call>, replies: seq<GuardSpec.Reply>,
                           chain: seq<GuardObjects.Seen>) {
    forall st: Store | Connected(st) && |Disk(st)| == capacity && |s.settled| <= |s.ops| && Backed(st, s) ::
      Stacked(st, s, calls, replies, chain)
  }

  /** And so does the whole life of a session object: any operations, failed mutations, finish, abort
      and destructors, in any order, over any behaviour of the broker's context. */
  method RunSession(capacity: nat, writable: bool, mailbox: nat, beats: seq<WorkerObjects.Beat>,
                    doings: seq<GuardObjects.Doing>)
    returns (context: WorkerObjects.Context, ghost ops: seq<GuardSpec.Operation>, ghost life: GuardObjects.Life,
             ghost end: GuardSpec.Session)
    requires mailbox > 0
    ensures fresh(context) && |ops| == |doings|
    ensures Legal(Initial(capacity, writable, mailbox), context.history)
            && context.sys == Run(Initial(capacity, writable, mailbox), context.history)
    ensures var blank := GuardSpec.Session(GuardSpec.Guard(capacity, writable, false, []), true);
            && end == GuardSpec.PerformAll(blank, ops) && life.calls == GuardSpec.AllCallsMade(blank, ops)
            && forall i :: 0 <= i < |ops| ==>
                 GuardObjects.DoneAs(doings[i], GuardSpec.PerformAll(blank, ops[..i]), ops[i])
    ensures Standing(context.sys, capacity, life.calls, life.replies, life.chain)
  {
    context := new WorkerObjects.Context(capacity, writable, mailbox, beats);
    var guard := new GuardObjects.Guarded(context, writable);
    var session := new GuardObjects.FileSession(guard);
    ops, life := session.Live(doings);
    end := session.S();
    context.Sound();
  }
}
