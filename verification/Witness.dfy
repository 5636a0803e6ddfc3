/** The whole stack can serve: over every medium, every call whose requests the ranges accept. */
module Witness {
  import opened Bytes
  import Bot
  import ScsiSpec
  import RangeSpec
  import Progress
  import opened Mailbox
  import opened MailboxProofs
  import opened MailboxRuns
  import opened Chunking
  import GuardSpec
  import GuardObjects
  import EndToEnd

  // ----- Which calls the ranges take -----

  /** The range session takes this request. */
  predicate Taken(g: ScsiSpec.Geometry, r: Req)
    requires RangeSpec.Supported(g)
  {
    && Proper(r) && 0 <= r.offset < 0x1_0000_0000_0000_0000
    && if r.kind == Sync then r.length == 0 && r.offset == 0 else RangeSpec.SpanOf(g, r.offset, r.length).Ok?
  }

  /** The medium takes every request of this call, and the mailbox can number them. */
  predicate Takes(g: ScsiSpec.Geometry, c: GuardSpec.Call, mailbox: nat)
    requires RangeSpec.Supported(g) && mailbox > 0
  {
    var p := GuardObjects.PiecesOf(c, mailbox);
    |p| < 0x7fff_ffff && forall i :: 0 <= i < |p| ==> Taken(g, p[i]) && p[i].length <= mailbox
  }

  lemma PieceTaken(g: ScsiSpec.Geometry, kind: Kind, offset: nat, length: nat, data: seq<byte>, mailbox: nat, i: nat)
    requires RangeSpec.Supported(g) && g.blockSize >= 128 && 0 < mailbox <= RangeSpec.MAX_RANGE_BYTES && kind != Sync
    requires (if kind == Write then |data| == length else data == []) && offset + length <= RangeSpec.SizeBytes(g)
    requires i < |Pieces(kind, offset, length, data, mailbox)|
    ensures var r := Pieces(kind, offset, length, data, mailbox)[i]; Taken(g, r) && r.length <= mailbox
  {
    PiecesListed(kind, offset, length, data, mailbox);
    PieceAt(Pieces(kind, offset, length, data, mailbox), i, kind, offset, length, data, mailbox);
    var r := Pieces(kind, offset, length, data, mailbox)[i];
    RangeSpec.Scale(g.blocks, 0xffff_ffff, g.blockSize);
    RangeSpec.SpanAccepts(g, r.offset, r.length);
  }

  /** With sectors of 128 bytes or more no request of an engine call within bounds is ever refused by
      the ranges, whatever the mailbox holds up to their limit. */
  lemma WideSectorsTake(g: ScsiSpec.Geometry, c: GuardSpec.Call, mailbox: nat)
    requires RangeSpec.Supported(g) && g.blockSize >= 128 && 0 < mailbox <= RangeSpec.MAX_RANGE_BYTES
    requires GuardSpec.OffsetOf(c) + GuardSpec.LengthOf(c) <= RangeSpec.SizeBytes(g)
    ensures var p := GuardObjects.PiecesOf(c, mailbox);
            && (forall i :: 0 <= i < |p| ==> Taken(g, p[i]) && p[i].length <= mailbox)
            && |p| == (if c.FlushAll? then 1 else RangeSpec.CeilDiv(GuardSpec.LengthOf(c), mailbox))
  {
    var p := GuardObjects.PiecesOf(c, mailbox);
    match c {
      case ReadAt(offset, n) =>
        PiecesPartition(Read, offset, n, [], mailbox);
        forall i | 0 <= i < |p| ensures Taken(g, p[i]) && p[i].length <= mailbox {
          PieceTaken(g, Read, offset, n, [], mailbox, i);
        }
      case WriteAt(offset, data) =>
        PiecesPartition(Write, offset, |data|, data, mailbox);
        forall i | 0 <= i < |p| ensures Taken(g, p[i]) && p[i].length <= mailbox {
          PieceTaken(g, Write, offset, |data|, data, mailbox, i);
        }
      case FlushAll =>
    }
  }

  // ----- The storage can serve them -----

  /** The operations these requests start, and the entries they leave when so answered. */
  function OpsOf(p: seq<Req>): (o: seq<Op>)
    ensures |o| == |p|
  {
    seq(|p|, i requires 0 <= i < |p| => Op(p[i].kind, p[i].offset, p[i].length, p[i].payload, i + 1))
  }

  predicate AllAnswered(p: seq<Req>, x: seq<Outcome>) {
    |x| == |p| && forall i :: 0 <= i < |p| ==> x[i].Settled? && Answers(p[i], x[i].bytes)
  }

  function EntriesOf(p: seq<Req>, x: seq<Outcome>): (e: seq<Entry>)
    requires AllAnswered(p, x)
    ensures |e| == |p|
  {
    seq(|p|, i requires 0 <= i < |p| => Entry(p[i], if p[i].kind == Read then x[i].bytes else [], i + 1))
  }

  lemma OpsBefore(p: seq<Req>)
    requires p != []
    ensures var n := |p| - 1;
            OpsOf(p)[..n] == OpsOf(p[..n])
            && OpsOf(p)[n] == Op(p[n].kind, p[n].offset, p[n].length, p[n].payload, n + 1)
  {
  }

  lemma EntriesBefore(p: seq<Req>, x: seq<Outcome>)
    requires p != [] && AllAnswered(p, x)
    ensures var n := |p| - 1;
            && AllAnswered(p[..n], x[..n])
            && EntriesOf(p, x) == EntriesOf(p[..n], x[..n])
                                  + [Entry(p[n], if p[n].kind == Read then x[n].bytes else [], n + 1)]
  {
  }

  /** This store with more to come from its environment. */
  function Onward(st: EndToEnd.Store, more: seq<Bot.Turn>): EndToEnd.Store {
    st.(w := st.w.(turns := st.w.turns + more))
  }

  lemma ServeOnward(st: EndToEnd.Store, op: Op, more: seq<Bot.Turn>)
    requires RangeSpec.Supported(st.g) && st.access == RangeSpec.ReadWrite && EndToEnd.Serve(st, op).1.Settled?
    ensures var o := EndToEnd.Serve(st, op); EndToEnd.Serve(Onward(st, more), op) == (Onward(o.0, more), o.1)
  {
    match op.kind {
      case Read => Progress.ReadRangeOnward(st.g, st.s, st.w, op.offset, op.length, more);
      case Write => Progress.WriteRangeOnward(st.g, st.s, st.w, op.offset, op.data, more);
      case Sync => Progress.CommandOnward(st.s, st.w, ScsiSpec.SYNCHRONIZE_CACHE, 0, [], more);
    }
  }

  predicate AllSettled(x: seq<Outcome>) {
    forall i :: 0 <= i < |x| ==> x[i].Settled?
  }

  lemma {:induction false} ServeAllOnward(st: EndToEnd.Store, ops: seq<Op>, more: seq<Bot.Turn>)
    requires RangeSpec.Supported(st.g) && st.access == RangeSpec.ReadWrite && AllSettled(EndToEnd.ServeAll(st, ops).1)
    ensures var o := EndToEnd.ServeAll(st, ops);
            EndToEnd.ServeAll(Onward(st, more), ops) == (Onward(o.0, more), o.1) && o.0.access == st.access
    decreases |ops|
  {
    if ops != [] {
      var n := |ops| - 1;
      var p, o := EndToEnd.ServeAll(st, ops[..n]), EndToEnd.ServeAll(st, ops);
      assert o.1[..n] == p.1 && o.1[n] == EndToEnd.Serve(p.0, ops[n]).1;
      ServeAllOnward(st, ops[..n], more);
      ServeOnward(p.0, ops[n], more);
    }
  }

  /** A connected store whose environment has nothing more to do. */
  predicate Waits(st: EndToEnd.Store) {
    EndToEnd.Connected(st) && st.access == RangeSpec.ReadWrite && st.w.lawful && st.w.turns == []
  }

  /** From there one request can be served, and the store waits again. */
  lemma ServesOne(st: EndToEnd.Store, r: Req, sequence: nat) returns (turns: seq<Bot.Turn>)
    requires Waits(st) && Taken(st.g, r)
    ensures var o := EndToEnd.Serve(Onward(st, turns), Op(r.kind, r.offset, r.length, r.payload, sequence));
            Waits(o.0) && o.1.Settled? && Answers(r, o.1.bytes)
  {
    var d, log := st.w.dev, st.w.log;
    match r.kind {
      case Read => turns := Progress.RangeCanBeRead(st.g, st.s, d, log, r.offset, r.length, []);
      case Write => turns := Progress.RangeCanBeWritten(st.g, st.s, d, log, r.offset, r.payload, []);
      case Sync => turns := Progress.CommandCanSucceed(st.s, d, log, ScsiSpec.SYNCHRONIZE_CACHE, [], [], []);
    }
    var v := Onward(st, turns);
    assert v.w == Bot.Wire(d, turns, log, true);
    EndToEnd.ServeIsFlat(v, Op(r.kind, r.offset, r.length, r.payload, sequence));
  }

  lemma ServeNext(st: EndToEnd.Store, p: seq<Req>)
    requires RangeSpec.Supported(st.g) && p != []
    ensures var n := |p| - 1;
            var q := EndToEnd.ServeAll(st, OpsOf(p[..n]));
            var l := EndToEnd.Serve(q.0, Op(p[n].kind, p[n].offset, p[n].length, p[n].payload, n + 1));
            EndToEnd.ServeAll(st, OpsOf(p)) == (l.0, q.1 + [l.1])
  {
    OpsBefore(p);
  }

  lemma AnsweredNext(p: seq<Req>, x: seq<Outcome>, o: Outcome)
    requires p != [] && AllAnswered(p[..|p| - 1], x) && o.Settled? && Answers(p[|p| - 1], o.bytes)
    ensures AllAnswered(p, x + [o])
  {
    forall i | 0 <= i < |p|
      ensures (x + [o])[i].Settled? && Answers(p[i], (x + [o])[i].bytes)
    {
      assert i < |p| - 1 ==> p[i] == p[..|p| - 1][i];
    }
  }

  lemma AnsweredSettled(p: seq<Req>, x: seq<Outcome>)
    requires AllAnswered(p, x)
    ensures AllSettled(x)
  {
  }

  lemma {:induction false} ServesAll(st: EndToEnd.Store, p: seq<Req>) returns (turns: seq<Bot.Turn>)
    requires Waits(st) && forall i :: 0 <= i < |p| ==> Taken(st.g, p[i])
    ensures var o := EndToEnd.ServeAll(Onward(st, turns), OpsOf(p)); Waits(o.0) && AllAnswered(p, o.1)
    decreases |p|
  {
    if p == [] {
      turns := [];
    } else {
      var n := |p| - 1;
      var first := ServesAll(st, p[..n]);
      var before := Onward(st, first);
      var o := EndToEnd.ServeAll(before, OpsOf(p[..n]));
      var next := ServesOne(o.0, p[n], n + 1);
      turns := first + next;
      AnsweredSettled(p[..n], o.1);
      ServeAllOnward(before, OpsOf(p[..n]), next);
      OnwardTwice(st, first, next);
      ServeNext(Onward(st, turns), p);
      var last := EndToEnd.Serve(Onward(o.0, next), Op(p[n].kind, p[n].offset, p[n].length, p[n].payload, n + 1));
      AnsweredNext(p, o.1, last.1);
    }
  }

  lemma OnwardTwice(st: EndToEnd.Store, a: seq<Bot.Turn>, b: seq<Bot.Turn>)
    ensures Onward(Onward(st, a), b) == Onward(st, a + b)
  {
    assert st.w.turns + a + b == st.w.turns + (a + b);
  }

  // ----- The mailbox can deliver them -----

  /** The mailbox between requests, these having been so answered. */
  predicate Delivered(s: Sys, size: nat, mailbox: nat, p: seq<Req>, x: seq<Outcome>)
    requires AllAnswered(p, x)
  {
    && Calm(s) && s.w.sequence == |p| && s.capacity == size && s.writable && |s.buf| == mailbox
    && s.ops == OpsOf(p) && s.settled == x && s.journal == EntriesOf(p, x)
  }

  lemma DeliversOne(s: Sys, size: nat, mailbox: nat, p: seq<Req>, x: seq<Outcome>) returns (run: seq<Action>)
    requires p != [] && AllAnswered(p, x) && |p| < 0x7fff_ffff && AllAnswered(p[..|p| - 1], x[..|p| - 1])
    requires Delivered(s, size, mailbox, p[..|p| - 1], x[..|p| - 1])
    requires var r := p[|p| - 1];
             && Proper(r) && 0 <= r.offset && r.length <= mailbox && r.offset + r.length <= size
             && (r.kind == Sync ==> r.length == 0 && r.offset == 0)
    ensures Legal(s, run) && Delivered(Run(s, run), size, mailbox, p, x)
  {
    var n := |p| - 1;
    assert Admissible(s, p[n]);
    run := RequestCanReturn(s, p[n], x[n].bytes);
    OpsBefore(p);
    EntriesBefore(p, x);
    DeliveredOnward(s, Run(s, run), size, mailbox, p, x);
  }

  lemma DeliveredOnward(s: Sys, t: Sys, size: nat, mailbox: nat, p: seq<Req>, x: seq<Outcome>)
    requires p != [] && AllAnswered(p, x) && AllAnswered(p[..|p| - 1], x[..|p| - 1])
    requires Delivered(s, size, mailbox, p[..|p| - 1], x[..|p| - 1])
    requires var n := |p| - 1;
             && Calm(t) && t.w.sequence == |p| && t.capacity == size && t.writable && |t.buf| == mailbox
             && t.ops == s.ops + [Op(p[n].kind, p[n].offset, p[n].length, p[n].payload, |p|)]
             && t.settled == s.settled + [x[n]]
             && t.journal == s.journal + [Entry(p[n], if p[n].kind == Read then x[n].bytes else [], |p|)]
    ensures Delivered(t, size, mailbox, p, x)
  {
    OpsBefore(p);
    EntriesBefore(p, x);
    assert OpsOf(p) == OpsOf(p)[..|p| - 1] + [OpsOf(p)[|p| - 1]];
    assert x == x[..|p| - 1] + [x[|p| - 1]];
  }

  lemma {:induction false} DeliversAll(size: nat, mailbox: nat, p: seq<Req>, x: seq<Outcome>) returns (run: seq<Action>)
    requires AllAnswered(p, x) && |p| < 0x7fff_ffff
    requires forall i :: 0 <= i < |p| ==>
               && Proper(p[i]) && 0 <= p[i].offset && p[i].length <= mailbox && p[i].offset + p[i].length <= size
               && (p[i].kind == Sync ==> p[i].length == 0 && p[i].offset == 0)
    ensures var start := Initial(size, true, mailbox);
            Legal(start, run) && Delivered(Run(start, run), size, mailbox, p, x)
    decreases |p|
  {
    var start := Initial(size, true, mailbox);
    if p == [] {
      run := [];
    } else {
      EntriesBefore(p, x);
      run := DeliversAll(size, mailbox, p[..|p| - 1], x[..|p| - 1]);
      var rest := DeliversOne(Run(start, run), size, mailbox, p, x);
      RunOn(start, run, rest);
      run := run + rest;
    }
  }

  // ----- The whole stack -----

  /** From a fresh start, over any medium, guard, chunks, mailbox, ranges and transport serve the whole
      call, however many requests it takes, and the results about the stack apply to that run. */
  lemma CallCanBeServed(g: ScsiSpec.Geometry, disk: seq<byte>, unit: lun, c: GuardSpec.Call, mailbox: nat)
    returns (st: EndToEnd.Store, run: seq<Action>, data: seq<byte>, chain: seq<GuardObjects.Seen>)
    requires RangeSpec.Supported(g) && |disk| == RangeSpec.SizeBytes(g) && mailbox > 0 && Takes(g, c, mailbox)
    requires GuardSpec.OffsetOf(c) + GuardSpec.LengthOf(c) <= |disk|
    ensures EndToEnd.Disk(st) == disk && Legal(Initial(|disk|, true, mailbox), run)
    ensures var s := Run(Initial(|disk|, true, mailbox), run);
            && EndToEnd.Stacked(st, s, [c], [GuardSpec.Served(data)], chain)
            && |s.journal| == |GuardObjects.PiecesOf(c, mailbox)| == |s.ops|
            && EndToEnd.FlatCall(disk, c, GuardSpec.Served(data))
               == Some(EndToEnd.Disk(EndToEnd.After(st, s, |s.journal|)))
  {
    var p := GuardObjects.PiecesOf(c, mailbox);
    var blank := FreshStore(g, disk, unit);
    var turns := ServesAll(blank, p);
    st := Onward(blank, turns);
    var x := EndToEnd.ServeAll(st, OpsOf(p)).1;
    InBounds(g, p, |disk|);
    run := DeliversAll(|disk|, mailbox, p, x);
    InitialInv(|disk|, true, mailbox);
    RunKeeps(Initial(|disk|, true, mailbox), run);
    var s := Run(Initial(|disk|, true, mailbox), run);
    data, chain := Watch(g, c, disk, mailbox, s, p, x);
    Backing(st, s, OpsOf(p));
    ServedFlat(st, s, c, data, chain);
  }

  lemma FreshStore(g: ScsiSpec.Geometry, disk: seq<byte>, unit: lun) returns (st: EndToEnd.Store)
    requires RangeSpec.Supported(g) && |disk| == RangeSpec.SizeBytes(g)
    ensures Waits(st) && EndToEnd.Disk(st) == disk && st.g == g
  {
    Progress.AnyMediumCanBeServed(g, disk, unit);
    st := EndToEnd.Store(g, RangeSpec.ReadWrite, Bot.Sess(0, unit, true),
                         Bot.Wire(Progress.Fresh(disk, g.blockSize), [], [], true));
  }

  lemma InBounds(g: ScsiSpec.Geometry, p: seq<Req>, size: nat)
    requires RangeSpec.Supported(g) && size == RangeSpec.SizeBytes(g) && forall i :: 0 <= i < |p| ==> Taken(g, p[i])
    ensures forall i :: 0 <= i < |p| ==> p[i].offset + p[i].length <= size
  {
    forall i | 0 <= i < |p|
      ensures p[i].offset + p[i].length <= size
    {
      if p[i].kind != Sync {
        RangeSpec.SpanAccepts(g, p[i].offset, p[i].length);
      }
    }
  }

  lemma AllRequests(p: seq<Req>, x: seq<Outcome>)
    requires AllAnswered(p, x)
    ensures Requests(EntriesOf(p, x)) == p
    ensures Partial(p, [], EntriesOf(p, x), Gathered(EntriesOf(p, x)), |p|)
  {
    var e := EntriesOf(p, x);
    assert e[0..] == e && p[..|p|] == p;
    assert Requests(e) == p;
  }

  /** What is seen before and after the call. */
  lemma Watch(g: ScsiSpec.Geometry, c: GuardSpec.Call, disk: seq<byte>, mailbox: nat, s: Sys, p: seq<Req>,
              x: seq<Outcome>)
    returns (data: seq<byte>, chain: seq<GuardObjects.Seen>)
    requires RangeSpec.Supported(g) && |disk| == RangeSpec.SizeBytes(g) && mailbox > 0 && AllAnswered(p, x)
    requires p == GuardObjects.PiecesOf(c, mailbox) && GuardSpec.OffsetOf(c) + GuardSpec.LengthOf(c) <= |disk|
    requires s.journal == EntriesOf(p, x)
    ensures GuardObjects.Lived([c], [GuardSpec.Served(data)], chain, mailbox)
    ensures chain[0].journal == [] && chain[0].guard.size == |disk|
    ensures chain[1].journal == s.journal && chain[1].last == s.w.req
  {
    var guard := GuardSpec.Guard(|disk|, true, false, []);
    data := Gathered(s.journal);
    AllRequests(p, x);
    RangeSpec.Scale(g.blocks, 0xffff_ffff, g.blockSize);
    chain := [GuardObjects.Seen(guard, [], Req(Sync, 0, 0, [])),
              GuardObjects.Seen(GuardSpec.Pass(guard, c, true), s.journal, s.w.req)];
    assert GuardObjects.Answered(c, GuardSpec.Served(data), chain[0], chain[1], mailbox);
    GuardObjects.ExplainedLived([c], [GuardSpec.Served(data)], chain, mailbox);
  }

  lemma Backing(st: EndToEnd.Store, s: Sys, ops: seq<Op>)
    requires RangeSpec.Supported(st.g) && s.ops == ops && s.settled == EndToEnd.ServeAll(st, ops).1
    requires EndToEnd.ServeAll(st, ops).0.w.lawful
    ensures |s.settled| == |s.ops| && EndToEnd.Backed(st, s)
  {
    EndToEnd.WholePrefix(ops);
  }

  lemma ServedFlat(st: EndToEnd.Store, s: Sys, c: GuardSpec.Call, data: seq<byte>, chain: seq<GuardObjects.Seen>)
    requires EndToEnd.Stacked(st, s, [c], [GuardSpec.Served(data)], chain)
    ensures |s.journal| <= |s.ops|
    ensures EndToEnd.FlatCall(EndToEnd.Disk(st), c, GuardSpec.Served(data))
            == Some(EndToEnd.Disk(EndToEnd.After(st, s, |s.journal|)))
  {
    EndToEnd.StackIsFlat(st, s, [c], [GuardSpec.Served(data)], chain);
    OneCall(EndToEnd.Disk(st), c, data);
  }

  lemma OneCall(disk: seq<byte>, c: GuardSpec.Call, data: seq<byte>)
    ensures EndToEnd.FlatRun(disk, [c], [GuardSpec.Served(data)]) == EndToEnd.FlatCall(disk, c, GuardSpec.Served(data))
  {
    assert [c][..0] == [] && [GuardSpec.Served(data)][..0] == [];
  }
}
