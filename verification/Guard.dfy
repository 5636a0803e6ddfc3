/** The guarded block device: what an arbitrary filesystem engine can make reach the device. */
module GuardSpec {
  import opened Bytes
  import opened RangeSpec

  datatype Call = ReadAt(offset: u64, count: nat) | WriteAt(offset: u64, data: seq<byte>) | FlushAll

  function LengthOf(c: Call): nat {
    match c
    case ReadAt(_, n) => n
    case WriteAt(_, data) => |data|
    case FlushAll => 0
  }

  function OffsetOf(c: Call): u64 {
    if c.FlushAll? then 0 else c.offset
  }

  datatype Refusal = DeviceRetired | OutOfBounds | ReadOnlyDevice

  /** What the engine gets: the bytes read, a refusal before the device, or the device's failure. */
  datatype Reply = Served(data: seq<byte>) | Refused(why: Refusal) | Broken

  /** A call that reached the device beneath, and whether it succeeded there. */
  datatype Reached = Reached(call: Call, ok: bool)

  datatype Guard = Guard(size: nat, writable: bool, retired: bool, reached: seq<Reached>)

  function Check(g: Guard, c: Call): Option<Refusal> {
    if g.retired then Some(DeviceRetired)
    else if OffsetOf(c) + LengthOf(c) >= 0x1_0000_0000_0000_0000 || OffsetOf(c) + LengthOf(c) > g.size then
      Some(OutOfBounds)
    else if c.WriteAt? && !g.writable then Some(ReadOnlyDevice)
    else None
  }

  /** Why an open guard refuses a call: a range past the end first, then a write where writing was not granted,
      and nothing else. */
  lemma RefusalReasons(g: Guard, c: Call)
    requires !g.retired && g.size < 0x1_0000_0000_0000_0000
    ensures Check(g, c) == Some(OutOfBounds) <==>
              match c
              case ReadAt(offset, n) => offset + n > g.size
              case WriteAt(offset, data) => offset + |data| > g.size
              case FlushAll => false
    ensures Check(g, c) == Some(ReadOnlyDevice) <==> c.WriteAt? && c.offset + |c.data| <= g.size && !g.writable
    ensures Check(g, c) != Some(DeviceRetired)
  {
  }

  /** One call through the guard, `ok` being what the device would answer. */
  function Pass(g: Guard, c: Call, ok: bool): Guard {
    if Check(g, c).Some? then g else g.(retired := !ok, reached := g.reached + [Reached(c, ok)])
  }

  /** Everything that happens to a guard: engine calls, from its operations or its destructors, and
      the session retiring it. */
  datatype Event = Called(call: Call, ok: bool) | Retire

  function Play(g: Guard, events: seq<Event>): Guard
    decreases |events|
  {
    if events == [] then g
    else
      var h := Play(g, events[..|events| - 1]);
      match events[|events| - 1]
      case Called(c, ok) => Pass(h, c, ok)
      case Retire => h.(retired := true)
  }

  /** Every call that reached the device was in bounds, none wrote a read-only session, and none
      but the last failed, after which the guard is retired. */
  predicate Clean(g: Guard) {
    && (forall i :: 0 <= i < |g.reached| ==>
          OffsetOf(g.reached[i].call) + LengthOf(g.reached[i].call) <= g.size
          && (g.reached[i].call.WriteAt? ==> g.writable)
          && (i < |g.reached| - 1 || !g.retired ==> g.reached[i].ok))
  }

  /** For every engine whatever: any calls in any order leave the trace clean, and a retired guard
      lets nothing through and stays retired. */
  lemma {:induction false} EveryTraceIsClean(g: Guard, events: seq<Event>)
    requires Clean(g)
    ensures var h := Play(g, events);
            Clean(h) && g.reached <= h.reached && h.size == g.size && h.writable == g.writable
            && (g.retired ==> h == g)
            && (|h.reached| > 0 && !h.reached[|h.reached| - 1].ok ==> h.retired)
    decreases |events|
  {
    if events == [] {
    } else {
      EveryTraceIsClean(g, events[..|events| - 1]);
    }
  }

  // ----- Session lifecycle over an arbitrary engine -----

  datatype Session = Session(guard: Guard, mounted: bool)

  /** A public operation of the session, with the calls its engine happens to make: `calls` inside
      the operation, `destructor` when the mount is dropped. `ok` is the engine's own verdict. */
  datatype Operation =
    | Query(calls: seq<Event>)
    | Mutate(calls: seq<Event>, ok: bool)
    | FlushMount(calls: seq<Event>, ok: bool)
    | Finish(calls: seq<Event>, ok: bool, flushOk: bool, destructor: seq<Event>)
    | Abort(destructor: seq<Event>)

  predicate Usable(s: Session) {
    s.mounted && !s.guard.retired
  }

  function Aborted(s: Session, destructor: seq<Event>): Session {
    Session(Play(s.guard.(retired := true), destructor), false)
  }

  /** `mutation`: a failed result retires the guard before it is returned. */
  function Mutation(g: Guard, ok: bool): Guard {
    if ok then g else g.(retired := true)
  }

  function Perform(s: Session, o: Operation): Session {
    match o
    case Query(calls) => if Usable(s) then s.(guard := Play(s.guard, calls)) else s
    case Mutate(calls, ok) =>
      if Usable(s) && s.guard.writable then s.(guard := Mutation(Play(s.guard, calls), ok)) else s
    case FlushMount(calls, ok) => if Usable(s) then s.(guard := Mutation(Play(s.guard, calls), ok)) else s
    case Finish(calls, ok, flushOk, destructor) =>
      if !Usable(s) then s
      else if !s.guard.writable then Aborted(s, destructor)
      else
        var g := Mutation(Play(s.guard, calls), ok);
        Session(if ok then Pass(g, FlushAll, flushOk) else g, false)
    case Abort(destructor) => Aborted(s, destructor)
  }

  function CallsOf(events: seq<Event>): seq<Call> {
    if events == [] then []
    else
      var n := |events| - 1;
      CallsOf(events[..n]) + if events[n].Called? then [events[n].call] else []
  }

  /** The calls that an operation makes on the guard, refused ones included. */
  function CallsMade(s: Session, o: Operation): seq<Call> {
    match o
    case Query(calls) => if Usable(s) then CallsOf(calls) else []
    case Mutate(calls, _) => if Usable(s) && s.guard.writable then CallsOf(calls) else []
    case FlushMount(calls, _) => if Usable(s) then CallsOf(calls) else []
    case Finish(calls, ok, _, destructor) =>
      if !Usable(s) then []
      else if !s.guard.writable then CallsOf(destructor)
      else CallsOf(calls) + if ok then [FlushAll] else []
    case Abort(destructor) => CallsOf(destructor)
  }

  function AllCallsMade(s: Session, ops: seq<Operation>): seq<Call>
    decreases |ops|
  {
    if ops == [] then []
    else
      var n := |ops| - 1;
      AllCallsMade(s, ops[..n]) + CallsMade(PerformAll(s, ops[..n]), ops[n])
  }

  function PerformAll(s: Session, ops: seq<Operation>): Session
    decreases |ops|
  {
    if ops == [] then s else PerformAll(Perform(s, ops[0]), ops[1..])
  }

  lemma PerformStaysClean(s: Session, o: Operation)
    requires Clean(s.guard)
    ensures var t := Perform(s, o);
            Clean(t.guard) && s.guard.reached <= t.guard.reached && t.guard.size == s.guard.size
            && t.guard.writable == s.guard.writable
            && (s.guard.retired ==> t.guard == s.guard) && (t.mounted ==> s.mounted)
  {
    match o {
      case Abort(d) => EveryTraceIsClean(s.guard.(retired := true), d);
      case Finish(calls, ok, _, d) =>
        EveryTraceIsClean(s.guard, calls);
        EveryTraceIsClean(s.guard.(retired := true), d);
      case _ => EveryTraceIsClean(s.guard, o.calls);
    }
  }

  /** Operations after which nothing may reach the device any more. */
  predicate Ends(s: Session, o: Operation) {
    match o
    case Query(_) => false
    case Mutate(_, ok) => Usable(s) && s.guard.writable && !ok
    case FlushMount(_, ok) => Usable(s) && !ok
    case Finish(_, _, _, _) => Usable(s)
    case Abort(_) => true
  }

  lemma {:induction false} ClosedIsSilent(s: Session, ops: seq<Operation>)
    requires !Usable(s)
    ensures var t := PerformAll(s, ops); !Usable(t) && t.guard.reached == s.guard.reached
    decreases |ops|
  {
    if ops != [] {
      if ops[0].Abort? {
        RetiredPlay(s.guard.(retired := true), ops[0].destructor);
      }
      ClosedIsSilent(Perform(s, ops[0]), ops[1..]);
    }
  }

  lemma {:induction false} RetiredPlay(g: Guard, events: seq<Event>)
    requires g.retired
    ensures Play(g, events) == g
    decreases |events|
  {
    if events != [] {
      RetiredPlay(g, events[..|events| - 1]);
    }
  }

  /** Over every session whatever its engine does, destructors included: the device sees a clean
      trace, and after an abort or drop, a returned failed mutation or flush, or any finish, it
      sees nothing more, whatever is called next. Read-only finish and abort let nothing through
      themselves; a writable finish that the engine failed keeps its flush back. */
  lemma {:induction false} SessionTraceIsClean(s: Session, before: seq<Operation>, o: Operation, after: seq<Operation>)
    requires Clean(s.guard)
    ensures Clean(PerformAll(s, before + [o] + after).guard)
    ensures var t := PerformAll(s, before); var u := Perform(t, o);
            Ends(t, o) ==>
              && !Usable(u) && PerformAll(s, before + [o] + after).guard.reached == u.guard.reached
              && (o.Abort? || (o.Finish? && !t.guard.writable) ==> u.guard.reached == t.guard.reached)
              && (o.Finish? && t.guard.writable && !o.ok ==> u.guard.reached == Play(t.guard, o.calls).reached)
  {
    var t := PerformAll(s, before);
    var u := Perform(t, o);
    AllStaysClean(s, before);
    PerformStaysClean(t, o);
    AllStaysClean(u, after);
    AllJoin(s, before + [o], after);
    AllJoin(s, before, [o]);
    assert PerformAll(t, [o]) == u by {
      assert [o][1..] == [];
    }
    match o {
      case Abort(d) => RetiredPlay(t.guard.(retired := true), d);
      case Finish(_, _, _, d) => RetiredPlay(t.guard.(retired := true), d);
      case _ =>
    }
    if Ends(t, o) {
      ClosedIsSilent(u, after);
    }
  }

  lemma {:induction false} AllStaysClean(s: Session, ops: seq<Operation>)
    requires Clean(s.guard)
    ensures Clean(PerformAll(s, ops).guard) && (s.guard.retired ==> PerformAll(s, ops).guard == s.guard)
    decreases |ops|
  {
    if ops != [] {
      PerformStaysClean(s, ops[0]);
      AllStaysClean(Perform(s, ops[0]), ops[1..]);
    }
  }

  lemma {:induction false} AllJoin(s: Session, a: seq<Operation>, b: seq<Operation>)
    ensures PerformAll(s, a + b) == PerformAll(PerformAll(s, a), b)
    decreases |a|
  {
    if a == [] {
      assert a + b == b;
    } else {
      AllJoin(Perform(s, a[0]), a[1..], b);
      assert (a + b)[1..] == a[1..] + b;
    }
  }
}

/** The guard, the session and the cursor as objects, over the worker's side of the mailbox. */
module GuardObjects {
  import opened Bytes
  import opened RangeSpec
  import Mailbox
  import opened Chunking
  import opened WorkerObjects
  import opened GuardSpec

  /** The mailbox requests a block call is cut into. */
  function PiecesOf(c: Call, mailbox: nat): seq<Mailbox.Req>
    requires mailbox > 0
  {
    match c
    case ReadAt(offset, n) => Pieces(Mailbox.Read, offset, n, [], mailbox)
    case WriteAt(offset, data) => Pieces(Mailbox.Write, offset, |data|, data, mailbox)
    case FlushAll => [Mailbox.Req(Mailbox.Sync, 0, 0, [])]
  }

  /** The guard, the journal of normal returns, and the worker's last request. */
  datatype Seen = Seen(guard: Guard, journal: seq<Mailbox.Entry>, last: Mailbox.Req)

  /** What a call was answered, what it did to the guard, and what the mailbox saw of it. */
  ghost predicate Answered(c: Call, r: Reply, a: Seen, b: Seen, mailbox: nat)
    requires mailbox > 0
  {
    match r
    case Refused(why) => Check(a.guard, c) == Some(why) && b == a
    case Served(data) =>
      Check(a.guard, c).None? && b.guard == Pass(a.guard, c, true)
      && Transferred(PiecesOf(c, mailbox), a.journal, b.journal, Some(data), b.last)
    case Broken =>
      Check(a.guard, c).None? && b.guard == Pass(a.guard, c, false)
      && Transferred(PiecesOf(c, mailbox), a.journal, b.journal, None, b.last)
  }

  class Guarded {
    const device: Context
    const writable: bool
    var retired: bool
    ghost var reached: seq<Reached>

    ghost function G(): Guard
      reads this
    {
      Guard(device.start.capacity, writable, retired, reached)
    }

    ghost predicate Ready()
      reads this, device
    {
      device.Valid() && device.AtRest() && |device.start.buf| > 0 && (device.sys.w.poisoned ==> retired)
    }

    ghost function Now(): Seen
      reads this, device
    {
      Seen(G(), device.sys.journal, device.sys.w.req)
    }

    constructor (device: Context, writable: bool)
      ensures this.device == device && G() == Guard(device.start.capacity, writable, false, [])
    {
      this.device, this.writable, this.retired, this.reached := device, writable, false, [];
    }

    /** `check`, and for writes the access test after it. */
    method Refusal(c: Call) returns (r: Option<GuardSpec.Refusal>)
      ensures r == Check(G(), c)
    {
      if retired {
        return Some(DeviceRetired);
      }
      var end := OffsetOf(c) + LengthOf(c);
      if end >= 0x1_0000_0000_0000_0000 || end > device.start.capacity {
        return Some(OutOfBounds);
      }
      return if c.WriteAt? && !writable then Some(ReadOnlyDevice) else None;
    }

    /** `complete`: a failure retires the device. */
    method Complete(c: Call, result: Option<seq<byte>>) returns (r: Reply)
      requires Check(G(), c).None?
      modifies this
      ensures G() == Pass(old(G()), c, result.Some?) && r == if result.Some? then Served(result.value) else Broken
    {
      retired := result.None?;
      reached := reached + [Reached(c, result.Some?)];
      r := if result.Some? then Served(result.value) else Broken;
    }

    /** `read_at`, `write_at` and `flush`. */
    method Call(c: GuardSpec.Call) returns (r: Reply, ghost cause: Why)
      requires Ready()
      modifies this, device
      ensures Ready() && Answered(c, r, old(Now()), Now(), |device.start.buf|)
      ensures r.Broken? ==> device.Justified(cause, old(device.sys), old(device.beats))
    {
      cause := AlreadyRetired;
      var why := Refusal(c);
      if why.Some? {
        return Refused(why.value), cause;
      }
      var x: Option<seq<byte>>;
      match c {
        case ReadAt(offset, n) =>
          x, cause := device.Chunks(Mailbox.Read, offset, n, []);
        case WriteAt(offset, data) =>
          x, cause := device.Chunks(Mailbox.Write, offset, |data|, data);
        case FlushAll =>
          assert Partial(PiecesOf(c, |device.start.buf|), device.sys.journal, device.sys.journal, [], 0);
          x, cause := device.RequestPiece(Mailbox.Req(Mailbox.Sync, 0, 0, []), PiecesOf(c, |device.start.buf|),
                                          device.sys.journal, [], 0);
      }
      r := Complete(c, x);
    }
  }

  /** A sequence of calls and replies, and everything seen between them. */
  ghost predicate Explained(calls: seq<Call>, replies: seq<Reply>, chain: seq<Seen>, mailbox: nat)
    requires mailbox > 0
  {
    && |replies| == |calls| && |chain| == |calls| + 1
    && forall i :: 0 <= i < |calls| ==> Answered(calls[i], replies[i], chain[i], chain[i + 1], mailbox)
  }

  /** The calls as events: what the device answered is in the replies. */
  function EventsFor(calls: seq<Call>, replies: seq<Reply>): seq<Event>
    requires |replies| == |calls|
  {
    if calls == [] then []
    else
      var n := |calls| - 1;
      EventsFor(calls[..n], replies[..n]) + [Called(calls[n], !replies[n].Broken?)]
  }

  lemma AnsweredPasses(c: Call, r: Reply, a: Seen, b: Seen, mailbox: nat)
    requires mailbox > 0 && Answered(c, r, a, b, mailbox)
    ensures b.guard == Pass(a.guard, c, !r.Broken?)
  {
  }

  lemma {:induction false} ExplainedPlays(calls: seq<Call>, replies: seq<Reply>, chain: seq<Seen>, mailbox: nat, n: nat)
    requires mailbox > 0 && Explained(calls, replies, chain, mailbox) && n <= |calls|
    ensures chain[n].guard == Play(chain[0].guard, EventsFor(calls[..n], replies[..n]))
    decreases n
  {
    if n > 0 {
      ExplainedPlays(calls, replies, chain, mailbox, n - 1);
      AnsweredPasses(calls[n - 1], replies[n - 1], chain[n - 1], chain[n], mailbox);
      assert calls[..n][..n - 1] == calls[..n - 1] && replies[..n][..n - 1] == replies[..n - 1];
      var e := EventsFor(calls[..n], replies[..n]);
      assert e[..|e| - 1] == EventsFor(calls[..n - 1], replies[..n - 1]);
    }
  }

  /** A filesystem engine is any strategy at all; a run of it is the calls it came to make. */
  method RunEngine(guard: Guarded, calls: seq<Call>) returns (replies: seq<Reply>, ghost chain: seq<Seen>)
    requires guard.Ready()
    modifies guard, guard.device
    ensures guard.Ready() && Explained(calls, replies, chain, |guard.device.start.buf|)
    ensures chain[0] == old(guard.Now()) && chain[|calls|] == guard.Now()
  {
    replies, chain := [], [guard.Now()];
    for i := 0 to |calls|
      invariant guard.Ready() && Explained(calls[..i], replies, chain, |guard.device.start.buf|)
      invariant chain[0] == old(guard.Now()) && chain[i] == guard.Now()
    {
      var r, cause := guard.Call(calls[i]);
      ExplainedStep(calls[..i], replies, chain, calls[i], r, guard.Now(), |guard.device.start.buf|);
      assert calls[..i] + [calls[i]] == calls[..i + 1];
      replies, chain := replies + [r], chain + [guard.Now()];
    }
    assert calls[..|calls|] == calls;
  }

  lemma ExplainedStep(calls: seq<Call>, replies: seq<Reply>, chain: seq<Seen>, c: Call, r: Reply, b: Seen, mailbox: nat)
    requires mailbox > 0 && Explained(calls, replies, chain, mailbox)
    requires Answered(c, r, chain[|calls|], b, mailbox)
    ensures Explained(calls + [c], replies + [r], chain + [b], mailbox)
  {
    forall i | 0 <= i < |calls| + 1
      ensures Answered((calls + [c])[i], (replies + [r])[i], (chain + [b])[i], (chain + [b])[i + 1], mailbox)
    {
      if i < |calls| {
        assert Answered(calls[i], replies[i], chain[i], chain[i + 1], mailbox);
      }
    }
  }

  // ----- Lives: calls between which the session may retire the guard -----

  /** The session retires the guard: nothing else changes. */
  function Retire(a: Seen): Seen {
    a.(guard := a.guard.(retired := true))
  }

  /** A call as the guard meets it, when the session may have retired the guard since the last one. */
  ghost predicate Met(c: Call, r: Reply, a: Seen, b: Seen, mailbox: nat)
    requires mailbox > 0
  {
    Answered(c, r, a, b, mailbox) || (r == Refused(DeviceRetired) && b == Retire(a))
  }

  /** All the calls engines made in the life of a session, their replies, and what was seen. */
  ghost predicate Lived(calls: seq<Call>, replies: seq<Reply>, chain: seq<Seen>, mailbox: nat)
    requires mailbox > 0
  {
    && |replies| == |calls| && |chain| == |calls| + 1
    && forall i :: 0 <= i < |calls| ==> Met(calls[i], replies[i], chain[i], chain[i + 1], mailbox)
  }

  lemma ExplainedLived(calls: seq<Call>, replies: seq<Reply>, chain: seq<Seen>, mailbox: nat)
    requires mailbox > 0 && Explained(calls, replies, chain, mailbox)
    ensures Lived(calls, replies, chain, mailbox)
  {
    forall i | 0 <= i < |calls|
      ensures Met(calls[i], replies[i], chain[i], chain[i + 1], mailbox)
    {
      assert Answered(calls[i], replies[i], chain[i], chain[i + 1], mailbox);
    }
  }

  datatype Life = Life(calls: seq<Call>, replies: seq<Reply>, chain: seq<Seen>)

  /** This life led from `a` to `b`, but for a guard retired after its last call. */
  ghost predicate Spans(l: Life, a: Seen, b: Seen, mailbox: nat)
    requires mailbox > 0
  {
    && Lived(l.calls, l.replies, l.chain, mailbox) && l.chain[0] == a
    && (b == l.chain[|l.calls|] || b == Retire(l.chain[|l.calls|]))
  }

  lemma MetAfterRetire(c: Call, r: Reply, a: Seen, b: Seen, mailbox: nat)
    requires mailbox > 0 && Met(c, r, Retire(a), b, mailbox)
    ensures Met(c, r, a, b, mailbox)
  {
  }

  function Join(l: Life, m: Life): Life
    requires m.chain != []
  {
    Life(l.calls + m.calls, l.replies + m.replies, l.chain + m.chain[1..])
  }

  lemma JoinAt(l: Life, m: Life, i: nat)
    requires |l.replies| == |l.calls| && |l.chain| == |l.calls| + 1
    requires |m.replies| == |m.calls| && |m.chain| == |m.calls| + 1 && i <= |l.calls| + |m.calls|
    ensures var j, k := Join(l, m), |l.calls|;
            && |j.calls| == |j.replies| == k + |m.calls| && |j.chain| == |j.calls| + 1
            && j.chain[i] == (if i <= k then l.chain[i] else m.chain[i - k])
            && (i < k ==> j.calls[i] == l.calls[i] && j.replies[i] == l.replies[i])
            && (k <= i < |j.calls| ==> j.calls[i] == m.calls[i - k] && j.replies[i] == m.replies[i - k])
  {
  }

  lemma JoinMet(l: Life, m: Life, mailbox: nat, i: nat)
    requires mailbox > 0 && Lived(l.calls, l.replies, l.chain, mailbox) && Lived(m.calls, m.replies, m.chain, mailbox)
    requires m.chain[0] == l.chain[|l.calls|] || m.chain[0] == Retire(l.chain[|l.calls|])
    requires i < |l.calls| + |m.calls|
    ensures var j := Join(l, m); |j.calls| == |j.replies| == |l.calls| + |m.calls| && |j.chain| == |j.calls| + 1
    ensures var j := Join(l, m); Met(j.calls[i], j.replies[i], j.chain[i], j.chain[i + 1], mailbox)
  {
    var k := |l.calls|;
    JoinAt(l, m, i);
    JoinAt(l, m, i + 1);
    if i < k {
      assert Met(l.calls[i], l.replies[i], l.chain[i], l.chain[i + 1], mailbox);
    } else {
      assert Met(m.calls[i - k], m.replies[i - k], m.chain[i - k], m.chain[i - k + 1], mailbox);
      if i == k && m.chain[0] == Retire(l.chain[k]) {
        MetAfterRetire(m.calls[0], m.replies[0], l.chain[k], m.chain[1], mailbox);
      }
    }
  }

  lemma JoinLived(l: Life, m: Life, mailbox: nat)
    requires mailbox > 0 && Lived(l.calls, l.replies, l.chain, mailbox) && Lived(m.calls, m.replies, m.chain, mailbox)
    requires m.chain[0] == l.chain[|l.calls|] || m.chain[0] == Retire(l.chain[|l.calls|])
    ensures var j := Join(l, m); Lived(j.calls, j.replies, j.chain, mailbox)
  {
    var j := Join(l, m);
    JoinAt(l, m, 0);
    forall i | 0 <= i < |j.calls|
      ensures Met(j.calls[i], j.replies[i], j.chain[i], j.chain[i + 1], mailbox)
    {
      JoinMet(l, m, mailbox, i);
    }
  }

  lemma JoinSpans(l: Life, m: Life, a: Seen, b: Seen, c: Seen, mailbox: nat)
    requires mailbox > 0 && Spans(l, a, b, mailbox) && Spans(m, b, c, mailbox)
    ensures Spans(Join(l, m), a, c, mailbox)
  {
    JoinLived(l, m, mailbox);
    JoinAt(l, m, 0);
    JoinAt(l, m, |l.calls| + |m.calls|);
  }

  /** A life of no calls. */
  function Still(a: Seen): Life {
    Life([], [], [a])
  }

  /** The session retires the guard and then nothing else than this life. */
  lemma RetiredSpans(l: Life, a: Seen, b: Seen, mailbox: nat)
    requires mailbox > 0 && Spans(l, Retire(a), b, mailbox)
    ensures Spans(Join(Still(a), l), a, b, mailbox)
  {
    JoinSpans(Still(a), l, a, Retire(a), b, mailbox);
  }

  /** A public operation as the caller asks for it: what its engine calls, the engine's verdict, and
      what the mount's destructor calls. */
  datatype Doing =
    | DoQuery(calls: seq<Call>)
    | DoMutate(calls: seq<Call>, verdict: bool)
    | DoFlush(calls: seq<Call>, verdict: bool)
    | DoFinish(calls: seq<Call>, verdict: bool, destructor: seq<Call>)
    | DoAbort(destructor: seq<Call>)

  /** `Session`: one mount over one guarded device. */
  class FileSession {
    const guard: Guarded
    var mounted: bool

    ghost function S(): Session
      reads this, guard
    {
      Session(guard.G(), mounted)
    }

    constructor (guard: Guarded)
      ensures this.guard == guard && mounted
    {
      this.guard, this.mounted := guard, true;
    }

    /** The calls an engine makes inside an operation. */
    method Engine(calls: seq<Call>) returns (ghost events: seq<Event>, ghost life: Life)
      requires guard.Ready()
      modifies guard, guard.device
      ensures guard.Ready() && guard.G() == Play(old(guard.G()), events)
      ensures Spans(life, old(guard.Now()), guard.Now(), |guard.device.start.buf|)
      ensures life.calls == calls == CallsOf(events)
    {
      var replies, chain := RunEngine(guard, calls);
      ExplainedPlays(calls, replies, chain, |guard.device.start.buf|, |calls|);
      assert calls[..|calls|] == calls && replies[..|calls|] == replies;
      EventsAreCalls(calls, replies);
      events := EventsFor(calls, replies);
      ExplainedLived(calls, replies, chain, |guard.device.start.buf|);
      life := Life(calls, replies, chain);
    }

    /** Every read-only operation. */
    method Query(calls: seq<Call>) returns (ok: bool, ghost events: seq<Event>, ghost life: Life)
      requires guard.Ready()
      modifies guard, guard.device
      ensures guard.Ready() && S() == Perform(old(S()), GuardSpec.Query(events)) && ok == Usable(old(S()))
      ensures Spans(life, old(guard.Now()), guard.Now(), |guard.device.start.buf|)
      ensures life.calls == CallsOf(events) == if old(mounted && !guard.retired) then calls else []
      ensures life.calls == CallsMade(old(S()), GuardSpec.Query(events))
    {
      events, life := [], Still(guard.Now());
      ok := mounted && !guard.retired;
      if ok {
        events, life := Engine(calls);
      }
    }

    /** Every mutation: refused unless usable and writable, retired by the engine's failure. */
    method Mutate(calls: seq<Call>, verdict: bool) returns (ok: bool, ghost events: seq<Event>, ghost life: Life)
      requires guard.Ready()
      modifies guard, guard.device
      ensures guard.Ready() && S() == Perform(old(S()), GuardSpec.Mutate(events, verdict))
      ensures ok == (verdict && Usable(old(S())) && guard.writable)
      ensures Spans(life, old(guard.Now()), guard.Now(), |guard.device.start.buf|)
      ensures life.calls == CallsOf(events)
              == if old(mounted && !guard.retired) && guard.writable then calls else []
      ensures life.calls == CallsMade(old(S()), GuardSpec.Mutate(events, verdict))
    {
      events, life := [], Still(guard.Now());
      ok := mounted && !guard.retired && guard.writable;
      if ok {
        events, life := Engine(calls);
        if !verdict {
          guard.retired := true;
          ok := false;
        }
      }
    }

    /** `flush` and `fresh_read`: allowed on a read-only session, retired by the engine's failure. */
    method FlushMount(calls: seq<Call>, verdict: bool) returns (ok: bool, ghost events: seq<Event>, ghost life: Life)
      requires guard.Ready()
      modifies guard, guard.device
      ensures guard.Ready() && S() == Perform(old(S()), GuardSpec.FlushMount(events, verdict))
      ensures ok == (verdict && Usable(old(S())))
      ensures Spans(life, old(guard.Now()), guard.Now(), |guard.device.start.buf|)
      ensures life.calls == CallsOf(events) == if old(mounted && !guard.retired) then calls else []
      ensures life.calls == CallsMade(old(S()), GuardSpec.FlushMount(events, verdict))
    {
      events, life := [], Still(guard.Now());
      ok := mounted && !guard.retired;
      if ok {
        events, life := Engine(calls);
        if !verdict {
          guard.retired := true;
          ok := false;
        }
      }
    }

    /** The final flush of the device itself. */
    method FlushDevice() returns (r: Reply, ghost life: Life)
      requires guard.Ready()
      modifies guard, guard.device
      ensures guard.Ready() && Answered(FlushAll, r, old(guard.Now()), guard.Now(), |guard.device.start.buf|)
      ensures Spans(life, old(guard.Now()), guard.Now(), |guard.device.start.buf|)
      ensures life.calls == [FlushAll] && life.replies == [r]
    {
      ghost var before := guard.Now();
      ghost var cause;
      r, cause := guard.Call(FlushAll);
      life := Life([FlushAll], [r], [before, guard.Now()]);
    }

    /** `finish`: the mount is taken first; a read-only session is aborted instead. */
    method Finish(calls: seq<Call>, verdict: bool, destructor: seq<Call>)
      returns (ok: bool, ghost events: seq<Event>, ghost dropped: seq<Event>, ghost flushed: bool, ghost life: Life)
      requires guard.Ready()
      modifies this, guard, guard.device
      ensures guard.Ready() && S() == Perform(old(S()), GuardSpec.Finish(events, verdict, flushed, dropped))
      ensures ok <==> old(mounted && !guard.retired)
                      && (guard.writable ==> verdict && life.replies != [] && life.replies[|life.replies| - 1].Served?)
      ensures ok && guard.writable ==>
                |guard.reached| > 0 && guard.reached[|guard.reached| - 1] == Reached(FlushAll, true)
      ensures Spans(life, old(guard.Now()), guard.Now(), |guard.device.start.buf|)
      ensures CallsOf(events) == if old(mounted && !guard.retired) && guard.writable then calls else []
      ensures CallsOf(dropped) == if old(mounted && !guard.retired) && !guard.writable then destructor else []
      ensures life.calls
              == if old(!mounted || guard.retired) then [] else if !guard.writable then destructor
                 else if verdict then calls + [FlushAll] else calls
      ensures life.calls == CallsMade(old(S()), GuardSpec.Finish(events, verdict, flushed, dropped))
    {
      events, dropped, flushed, life := [], [], true, Still(guard.Now());
      if !mounted || guard.retired {
        return false, events, dropped, flushed, life;
      }
      if !guard.writable {
        dropped, life := Abort(destructor);
        return true, events, dropped, flushed, life;
      }
      mounted := false;
      events, life := Engine(calls);
      if !verdict {
        guard.retired := true;
        return false, events, dropped, flushed, life;
      }
      ghost var between := guard.Now();
      var r, last := FlushDevice();
      JoinSpans(life, last, old(guard.Now()), between, guard.Now(), |guard.device.start.buf|);
      life := Join(life, last);
      flushed := !r.Broken?;
      ok := r.Served?;
    }

    /** `abort` and `drop`: retired first, so the mount's destructor reaches nothing. */
    method Abort(destructor: seq<Call>) returns (ghost dropped: seq<Event>, ghost life: Life)
      requires guard.Ready()
      modifies this, guard, guard.device
      ensures guard.Ready() && S() == Perform(old(S()), GuardSpec.Abort(dropped)) && !mounted && guard.retired
      ensures guard.reached == old(guard.reached)
      ensures Spans(life, old(guard.Now()), guard.Now(), |guard.device.start.buf|)
      ensures life.calls == CallsOf(dropped) == destructor
      ensures life.calls == CallsMade(old(S()), GuardSpec.Abort(dropped))
    {
      guard.retired := true;
      mounted := false;
      ghost var rest;
      dropped, rest := Engine(destructor);
      RetiredPlay(old(guard.G()).(retired := true), dropped);
      RetiredSpans(rest, old(guard.Now()), guard.Now(), |guard.device.start.buf|);
      life := Join(Still(old(guard.Now())), rest);
    }

    /** One public operation. */
    method Do(d: Doing) returns (ghost o: Operation, ghost life: Life)
      requires guard.Ready()
      modifies this, guard, guard.device
      ensures guard.Ready() && S() == Perform(old(S()), o) && life.calls == CallsMade(old(S()), o)
      ensures Spans(life, old(guard.Now()), guard.Now(), |guard.device.start.buf|)
      ensures DoneAs(d, old(S()), o)
    {
      ghost var events, dropped, flushed;
      var ok;
      match d {
        case DoQuery(calls) =>
          ok, events, life := Query(calls);
          o := GuardSpec.Query(events);
        case DoMutate(calls, verdict) =>
          ok, events, life := Mutate(calls, verdict);
          o := GuardSpec.Mutate(events, verdict);
        case DoFlush(calls, verdict) =>
          ok, events, life := FlushMount(calls, verdict);
          o := GuardSpec.FlushMount(events, verdict);
        case DoFinish(calls, verdict, destructor) =>
          ok, events, dropped, flushed, life := Finish(calls, verdict, destructor);
          o := GuardSpec.Finish(events, verdict, flushed, dropped);
        case DoAbort(destructor) =>
          dropped, life := Abort(destructor);
          o := GuardSpec.Abort(dropped);
      }
    }

    /** A whole life: any operations at all, with whatever their engines do. */
    method Live(doings: seq<Doing>) returns (ghost ops: seq<Operation>, ghost life: Life)
      requires guard.Ready()
      modifies this, guard, guard.device
      ensures guard.Ready() && S() == PerformAll(old(S()), ops) && |ops| == |doings|
      ensures life.calls == AllCallsMade(old(S()), ops)
      ensures Spans(life, old(guard.Now()), guard.Now(), |guard.device.start.buf|)
      ensures forall i :: 0 <= i < |ops| ==> DoneAs(doings[i], PerformAll(old(S()), ops[..i]), ops[i])
    {
      ops, life := [], Still(guard.Now());
      for i := 0 to |doings|
        invariant guard.Ready() && S() == PerformAll(old(S()), ops) && |ops| == i
        invariant life.calls == AllCallsMade(old(S()), ops)
        invariant forall j :: 0 <= j < i ==> DoneAs(doings[j], PerformAll(old(S()), ops[..j]), ops[j])
        invariant Spans(life, old(guard.Now()), guard.Now(), |guard.device.start.buf|)
      {
        ghost var before := guard.Now();
        ghost var o, next := Do(doings[i]);
        JoinSpans(life, next, old(guard.Now()), before, guard.Now(), |guard.device.start.buf|);
        OneMore(old(S()), ops, o);
        DoneMore(old(S()), doings, ops, o);
        ops, life := ops + [o], Join(life, next);
      }
    }
  }

  /** This operation is that doing: accepted exactly when the session is mounted and not retired, a mutation
      only when writable, and then with the very calls asked for. */
  predicate DoneAs(d: Doing, s: Session, o: Operation) {
    var accepted := s.mounted && !s.guard.retired;
    match (d, o)
    case (DoQuery(c), Query(e)) => CallsOf(e) == if accepted then c else []
    case (DoMutate(c, v), Mutate(e, ok)) => v == ok && CallsOf(e) == if accepted && s.guard.writable then c else []
    case (DoFlush(c, v), FlushMount(e, ok)) => v == ok && CallsOf(e) == if accepted then c else []
    case (DoFinish(c, v, x), Finish(e, ok, _, dropped)) =>
      && v == ok && CallsOf(e) == (if accepted && s.guard.writable then c else [])
      && CallsOf(dropped) == if accepted && !s.guard.writable then x else []
    case (DoAbort(x), Abort(dropped)) => CallsOf(dropped) == x
    case _ => false
  }

  lemma DoneMore(s: Session, doings: seq<Doing>, ops: seq<Operation>, o: Operation)
    requires |ops| < |doings| && DoneAs(doings[|ops|], PerformAll(s, ops), o)
    requires forall j :: 0 <= j < |ops| ==> DoneAs(doings[j], PerformAll(s, ops[..j]), ops[j])
    ensures forall j :: 0 <= j < |ops| + 1 ==> DoneAs(doings[j], PerformAll(s, (ops + [o])[..j]), (ops + [o])[j])
  {
    forall j | 0 <= j < |ops| + 1
      ensures DoneAs(doings[j], PerformAll(s, (ops + [o])[..j]), (ops + [o])[j])
    {
      assert (ops + [o])[..j] == ops[..j];
      assert j == |ops| ==> ops[..j] == ops;
    }
  }

  lemma OneMore(s: Session, ops: seq<Operation>, o: Operation)
    ensures PerformAll(s, ops + [o]) == Perform(PerformAll(s, ops), o)
    ensures AllCallsMade(s, ops + [o]) == AllCallsMade(s, ops) + CallsMade(PerformAll(s, ops), o)
  {
    assert (ops + [o])[..|ops|] == ops;
    AllJoin(s, ops, [o]);
    assert [o][1..] == [];
  }

  lemma {:induction false} EventsAreCalls(calls: seq<Call>, replies: seq<Reply>)
    requires |replies| == |calls|
    ensures CallsOf(EventsFor(calls, replies)) == calls
    decreases |calls|
  {
    if calls != [] {
      var n := |calls| - 1;
      EventsAreCalls(calls[..n], replies[..n]);
      var e := EventsFor(calls, replies);
      assert e[..|e| - 1] == EventsFor(calls[..n], replies[..n]);
      assert calls == calls[..n] + [calls[n]];
    }
  }

  // ----- The seekable cursor -----

  datatype SeekFrom = Start(u64) | Current(int) | End(int)

  /** What the cast of the remaining length to a `usize` below `limit` lets `read` ask for. */
  function ReadCount(size: nat, position: nat, out: nat, limit: nat): nat
    requires limit > 0
  {
    Min(out, Max(size - position, 0) % limit)
  }

  /** A read is short of the reference cursor's exactly when the remaining length does not fit
      `usize` and its remainder is less than the buffer. */
  lemma CastIsLossless(size: nat, position: nat, out: nat, limit: nat)
    requires position <= size && out < limit
    ensures ReadCount(size, position, out, limit) == Min(out, size - position) <==>
              size - position < limit || out <= (size - position) % limit
    ensures size < limit ==> ReadCount(size, position, out, limit) == Min(out, size - position)
  {
    var left: nat := size - position;
    SmallRemainder(left, limit);
  }

  lemma ReadCountFits(size: nat, position: nat, out: nat, limit: nat)
    requires position <= size && limit > 0
    ensures 0 <= ReadCount(size, position, out, limit) <= Min(out, size - position)
  {
    SmallRemainder(size - position, limit);
  }

  lemma SmallRemainder(n: nat, limit: nat)
    requires limit > 0
    ensures 0 <= n % limit < limit && n % limit <= n && (n < limit ==> n % limit == n)
  {
  }

  /** With a 32-bit `usize`, an 8 GiB device reads as empty at its start. */
  lemma SpuriousEnd()
    ensures ReadCount(0x2_0000_0000, 0, 512, 0x1_0000_0000) == 0
  {
  }

  function SeekTarget(size: nat, position: nat, from: SeekFrom): int {
    match from
    case Start(n) => n
    case Current(n) => position + n
    case End(n) => size + n
  }

  /** The reference: a file of fixed size with a position, whose operations take effect or fail. */
  datatype Motion = Moved(count: nat) | Jumped(target: int) | Stayed

  function MoveTo(size: nat, position: nat, m: Motion): nat {
    match m
    case Moved(n) => if position + n <= size then position + n else position
    case Jumped(p) => if 0 <= p <= size then p else position
    case Stayed => position
  }

  class Io {
    const device: Guarded
    var position: u64

    ghost predicate Within()
      reads this, device, device.device
    {
      device.Ready() && position <= device.device.start.capacity < 0x1_0000_0000_0000_0000
    }

    constructor (device: Guarded)
      requires device.Ready() && device.device.start.capacity < 0x1_0000_0000_0000_0000
      ensures this.device == device && position == 0 && Within()
    {
      this.device, this.position := device, 0;
    }

    /** Reads through the guard at the position; only success moves it. */
    method Read(out: nat, limit: nat) returns (r: Reply)
      requires Within() && out < limit
      modifies this, device, device.device
      ensures Within()
      ensures var n := ReadCount(device.device.start.capacity, old(position), out, limit);
              Answered(ReadAt(old(position), n), r, old(device.Now()), device.Now(), |device.device.start.buf|)
              && position == MoveTo(device.device.start.capacity, old(position), if r.Served? then Moved(n) else Stayed)
    {
      var n := ReadCount(device.device.start.capacity, position, out, limit);
      ReadCountFits(device.device.start.capacity, position, out, limit);
      ghost var cause;
      r, cause := device.Call(ReadAt(position, n));
      if r.Served? {
        position := position + n;
      }
    }

    method Write(bytes: seq<byte>) returns (r: Reply)
      requires Within()
      modifies this, device, device.device
      ensures Within()
      ensures Answered(WriteAt(old(position), bytes), r, old(device.Now()), device.Now(), |device.device.start.buf|)
              && position == MoveTo(device.device.start.capacity, old(position),
                                    if r.Served? then Moved(|bytes|) else Stayed)
    {
      ghost var cause;
      r, cause := device.Call(WriteAt(position, bytes));
      if r.Served? {
        position := position + |bytes|;
      }
    }

    method Flush() returns (r: Reply)
      requires Within()
      modifies device, device.device
      ensures Within() && Answered(FlushAll, r, old(device.Now()), device.Now(), |device.device.start.buf|)
    {
      ghost var cause;
      r, cause := device.Call(FlushAll);
    }

    method Seek(from: SeekFrom) returns (r: Option<u64>)
      requires Within()
      modifies this
      ensures Within() && position == MoveTo(device.device.start.capacity, old(position),
                                             Jumped(SeekTarget(device.device.start.capacity, old(position), from)))
      ensures var size := device.device.start.capacity;
              r.Some? <==> 0 <= SeekTarget(size, old(position), from) <= size
      ensures r.Some? ==> r.value == position
    {
      var target: int;
      match from {
        case Start(n) => target := n;
        case Current(n) => target := position + n;
        case End(n) => target := device.device.start.capacity + n;
      }
      if target < 0 || target > device.device.start.capacity {
        return None;
      }
      position := target;
      return Some(position);
    }
  }
}
