/** The mailbox between the blocked filesystem worker and the asynchronous broker, as an
    interleaving transition system. Every `Atomics` operation is one step. Broker code between two
    awaits is not interrupted by other broker tasks, but worker steps fall anywhere inside it. */
module Mailbox {
  import opened Bytes

  datatype Kind = Read | Write | Sync

  /** A call of `request`; `payload` is the data of a write. */
  datatype Req = Req(kind: Kind, offset: int, length: nat, payload: seq<byte>)

  datatype Msg = Msg(kind: Kind, offset: int, length: nat, sequence: nat)

  /** A storage operation the broker started, with the data it passed. */
  datatype Op = Op(kind: Kind, offset: int, length: nat, data: seq<byte>, sequence: nat)

  datatype Outcome = Settled(bytes: seq<byte>) | Rejected

  /** A normal return of `request`, with the bytes it read. */
  datatype Entry = Entry(req: Req, data: seq<byte>, sequence: nat)

  datatype WorkerPc =
    | Idle | StoreSequence | StoreLength | StoreReset | Post
    | Load | Sleep | CheckState | CheckSequence | CheckLength | Copy
    | StoreRetired | Retired

  datatype Worker = Worker(pc: WorkerPc, sequence: nat, poisoned: bool, req: Req)

  datatype BrokerPc =
    | Listening
    | MatchSequence(m: Msg) | MatchState(m: Msg) | Start(m: Msg)
    | LateSequence(m: Msg, bytes: seq<byte>) | LateState(m: Msg, bytes: seq<byte>) | Fill(m: Msg, bytes: seq<byte>)
    | FinalSequence(m: Msg) | FinalState(m: Msg) | PublishLength(m: Msg) | Publish(m: Msg)
    | Failing

  /** `active` is the operation whose storage promise has not settled. */
  datatype Broker = Broker(pc: BrokerPc, nextSequence: nat, running: bool, active: Option<Msg>)

  datatype Sys = Sys(capacity: nat, writable: bool, w: Worker, b: Broker,
                     state: int, sequence: int, length: int, buf: seq<byte>, inbox: seq<Msg>,
                     ops: seq<Op>, settled: seq<Outcome>, journal: seq<Entry>)

  function Initial(capacity: nat, writable: bool, mailbox: nat): Sys {
    Sys(capacity, writable, Worker(Idle, 0, false, Req(Sync, 0, 0, [])), Broker(Listening, 1, true, None),
        0, 0, 0, Zeros(mailbox), [], [], [], [])
  }

  /** What an `Int32Array` keeps of a number. */
  function ToInt32(n: nat): (r: int)
    ensures r < 0x8000_0000 && (n < 0x8000_0000 ==> r == n)
  {
    var m := n % 0x1_0000_0000;
    if m < 0x8000_0000 then m else m - 0x1_0000_0000
  }

  predicate Proper(r: Req) {
    if r.kind == Write then |r.payload| == r.length else r.payload == []
  }

  // ----- Steps -----

  datatype WorkerAction = Begin(req: Req) | Proceed | Wake | Expire

  datatype BrokerAction = Receive | Continue | Settle(outcome: Outcome) | Shutdown

  datatype Action = W(w: WorkerAction) | B(b: BrokerAction)

  predicate WorkerEnabled(s: Sys, a: WorkerAction) {
    match a
    case Begin(r) => s.w.pc == Idle && !s.w.poisoned && Proper(r)
    case Proceed => s.w.pc != Idle && s.w.pc != Sleep && s.w.pc != Retired
    case Wake => s.w.pc == Sleep
    case Expire => s.w.pc == Sleep
  }

  predicate BrokerEnabled(s: Sys, a: BrokerAction) {
    match a
    case Receive => s.b.pc == Listening && s.inbox != []
    case Continue => s.b.pc != Listening
    case Settle(_) => s.b.pc == Listening && s.b.active.Some?
    case Shutdown => s.b.pc == Listening && s.b.running
  }

  predicate Enabled(s: Sys, a: Action) {
    match a
    case W(x) => WorkerEnabled(s, x)
    case B(x) => BrokerEnabled(s, x)
  }

  function At(s: Sys, pc: WorkerPc): Sys {
    s.(w := s.w.(pc := pc))
  }

  /** `retire`: poisoned at once, the shared word follows. */
  function Retire(s: Sys): Sys {
    s.(w := s.w.(poisoned := true, pc := StoreRetired))
  }

  function Return(s: Sys, data: seq<byte>): Sys {
    At(s, Idle).(journal := s.journal + [Entry(s.w.req, data, s.w.sequence)])
  }

  function BeginStep(s: Sys, r: Req): Sys {
    if r.offset < 0 || r.length > |s.buf| || r.offset + r.length > s.capacity then Retire(s.(w := s.w.(req := r)))
    else
      s.(w := Worker(StoreSequence, s.w.sequence + 1, false, r),
         buf := if r.kind == Write && |r.payload| <= |s.buf| then Patch(s.buf, 0, r.payload) else s.buf)
  }

  function WorkerStep(s: Sys, a: WorkerAction): Sys
    requires WorkerEnabled(s, a)
  {
    match a
    case Begin(r) => BeginStep(s, r)
    case Wake => At(s, Load)
    case Expire => Retire(s)
    case Proceed =>
      match s.w.pc
      case StoreSequence => At(s, StoreLength).(sequence := ToInt32(s.w.sequence))
      case StoreLength => At(s, StoreReset).(length := 0)
      case StoreReset => At(s, Post).(state := 0)
      case Post => At(s, Load).(inbox := s.inbox + [Msg(s.w.req.kind, s.w.req.offset, s.w.req.length, s.w.sequence)])
      case Load => At(s, if s.state == 0 then Sleep else CheckState)
      case CheckState => if s.state != 1 then Retire(s) else At(s, CheckSequence)
      case CheckSequence => if s.sequence != s.w.sequence then Retire(s) else At(s, CheckLength)
      case CheckLength =>
        if s.length != s.w.req.length then Retire(s)
        else if s.w.req.kind == Read then At(s, Copy)
        else Return(s, [])
      case Copy => Return(s, s.buf[..Min(s.w.req.length, |s.buf|)])
      case StoreRetired => At(s, Retired).(state := -1)
      case _ => s
  }

  function To(s: Sys, pc: BrokerPc): Sys {
    s.(b := s.b.(pc := pc))
  }

  /** `fail` and every other way into `shutdown`: only the first has an effect. */
  function Stop(s: Sys): Sys {
    if s.b.running then s.(state := -1, b := s.b.(pc := Listening, running := false)) else To(s, Listening)
  }

  /** The checks the broker repeats before it starts the storage operation. */
  predicate Acceptable(s: Sys, m: Msg) {
    && 0 <= m.offset && m.length <= |s.buf| && m.offset + m.length <= s.capacity
    && (m.kind == Write ==> s.writable) && (m.kind == Sync ==> m.length == 0 && m.offset == 0)
  }

  function ReceiveStep(s: Sys): Sys
    requires s.inbox != []
  {
    var m, t := s.inbox[0], s.(inbox := s.inbox[1..]);
    if !s.b.running then t
    else if s.b.active.Some? then To(t, Failing)
    else
      var u := t.(b := t.b.(nextSequence := t.b.nextSequence + 1));
      To(u, if m.sequence != s.b.nextSequence then Failing else MatchSequence(m))
  }

  function StartStep(s: Sys, m: Msg): Sys {
    if !Acceptable(s, m) then To(s, Failing)
    else
      var data := if m.kind == Write then s.buf[..m.length] else [];
      s.(b := s.b.(pc := Listening, active := Some(m)),
         ops := s.ops + [Op(m.kind, m.offset, m.length, data, m.sequence)])
  }

  function SettleStep(s: Sys, o: Outcome): Sys
    requires s.b.active.Some?
  {
    var m := s.b.active.value;
    var t := s.(settled := s.settled + [o], b := s.b.(active := None));
    if o.Rejected? || (m.kind == Read && |o.bytes| != m.length) then To(t, Failing)
    else if !s.b.running then t
    else if m.kind == Read then To(t, LateSequence(m, o.bytes))
    else To(t, FinalSequence(m))
  }

  function BrokerStep(s: Sys, a: BrokerAction): Sys
    requires BrokerEnabled(s, a)
  {
    match a
    case Receive => ReceiveStep(s)
    case Settle(o) => SettleStep(s, o)
    case Shutdown => Stop(s)
    case Continue =>
      match s.b.pc
      case MatchSequence(m) => To(s, if s.sequence != m.sequence then Failing else MatchState(m))
      case MatchState(m) => To(s, if s.state != 0 then Failing else Start(m))
      case Start(m) => StartStep(s, m)
      case LateSequence(m, bytes) => To(s, if s.sequence != m.sequence then Failing else LateState(m, bytes))
      case LateState(m, bytes) => To(s, if s.state != 0 then Failing else Fill(m, bytes))
      case Fill(m, bytes) =>
        To(s, FinalSequence(m)).(buf := if |bytes| <= |s.buf| then Patch(s.buf, 0, bytes) else s.buf)
      case FinalSequence(m) => To(s, if s.sequence != m.sequence then Failing else FinalState(m))
      case FinalState(m) => To(s, if s.state != 0 then Failing else PublishLength(m))
      case PublishLength(m) => To(s, Publish(m)).(length := m.length)
      case Publish(m) => To(s, Listening).(state := 1)
      case Failing => Stop(s)
      case Listening => s
  }

  function Step(s: Sys, a: Action): Sys
    requires Enabled(s, a)
  {
    match a
    case W(x) => WorkerStep(s, x)
    case B(x) => BrokerStep(s, x)
  }

  // ----- Runs -----

  predicate Legal(s: Sys, actions: seq<Action>)
    decreases |actions|, 0
  {
    actions == [] || (Legal(s, actions[..|actions| - 1])
                      && Enabled(Run(s, actions[..|actions| - 1]), actions[|actions| - 1]))
  }

  function Run(s: Sys, actions: seq<Action>): Sys
    requires Legal(s, actions)
    decreases |actions|, 1
  {
    if actions == [] then s
    else Step(Run(s, actions[..|actions| - 1]), actions[|actions| - 1])
  }

  lemma RunOne(s: Sys, actions: seq<Action>, a: Action)
    requires Legal(s, actions) && Enabled(Run(s, actions), a)
    ensures Legal(s, actions + [a]) && Run(s, actions + [a]) == Step(Run(s, actions), a)
  {
    assert (actions + [a])[..|actions|] == actions;
  }

  // ----- The invariant -----

  predicate Serves(o: Op, r: Req) {
    o.kind == r.kind && o.offset == r.offset && o.length == r.length && o.data == r.payload
  }

  /** This normal return is that completed operation. */
  predicate Matches(e: Entry, o: Op, x: Outcome) {
    && Serves(o, e.req) && o.sequence == e.sequence && x.Settled?
    && (if e.req.kind == Read then e.data == x.bytes && |x.bytes| == e.req.length else e.data == [])
  }

  function Message(w: Worker): Msg {
    Msg(w.req.kind, w.req.offset, w.req.length, w.sequence)
  }

  predicate Matching(pc: BrokerPc) {
    pc.MatchSequence? || pc.MatchState? || pc.Start?
  }

  predicate Completing(pc: BrokerPc) {
    || pc.LateSequence? || pc.LateState? || pc.Fill?
    || pc.FinalSequence? || pc.FinalState? || pc.PublishLength? || pc.Publish?
  }

  predicate Loaded(pc: BrokerPc) {
    pc.LateSequence? || pc.LateState? || pc.Fill?
  }

  /** Operations are numbered in order, at most the last is unsettled. */
  predicate Numbered(s: Sys) {
    && (forall i :: 0 <= i < |s.ops| ==> s.ops[i].sequence == i + 1)
    && |s.ops| == |s.settled| + (if s.b.active.Some? then 1 else 0)
    && (s.b.active.Some? ==> s.b.pc.Listening? || s.b.pc.Failing?)
    && (s.b.running ==> s.b.nextSequence >= |s.ops| + 1)
    && (s.b.running && (s.b.pc.Listening? || Completing(s.b.pc)) ==> s.b.nextSequence == |s.ops| + 1)
    && (Matching(s.b.pc) ==> s.b.running && s.b.pc.m.sequence == |s.ops| + 1 && s.b.nextSequence == |s.ops| + 2)
    && (Completing(s.b.pc) ==> s.b.running)
    && (s.b.pc.Failing? && s.b.active.Some? ==> s.b.running)
  }

  predicate Journaled(s: Sys)
    requires Numbered(s)
  {
    && |s.journal| <= |s.settled|
    && (forall i :: 0 <= i < |s.journal| ==>
          s.journal[i].sequence == i + 1 && Matches(s.journal[i], s.ops[i], s.settled[i]))
  }

  /** At most one request is ever on its way, started or not. */
  predicate Counted(s: Sys) {
    && |s.ops| + |s.inbox| + (if Matching(s.b.pc) then 1 else 0) <= s.w.sequence <= |s.journal| + 1
    && Proper(s.w.req) && (s.w.pc == StoreRetired || s.w.pc == Retired <==> s.w.poisoned)
  }

  /** Whatever is on its way, for a live worker or a poisoned one, is the worker's last request. */
  predicate Owed(s: Sys) {
    && (s.inbox != [] || Matching(s.b.pc) ==> s.w.sequence == |s.journal| + 1 && PayloadIn(s))
    && (s.inbox != [] ==> s.inbox == [Message(s.w)] && s.b.active.None? && (s.b.pc == Listening || s.b.pc == Failing))
    && (Matching(s.b.pc) ==> s.b.pc.m == Message(s.w))
    && (s.b.active.Some? || Completing(s.b.pc) ==> |s.ops| == s.w.sequence)
    && (|s.ops| == |s.journal| + 1 ==> Serves(s.ops[|s.journal|], s.w.req))
  }

  /** No request is on its way: everything started so far has completed and been taken. */
  predicate Resting(s: Sys, n: nat) {
    |s.journal| == n && |s.ops| == n && s.inbox == [] && s.b.active.None? && s.b.pc == Listening
  }

  predicate PayloadIn(s: Sys) {
    s.w.req.length <= |s.buf| && (s.w.req.kind == Write ==> s.buf[..s.w.req.length] == s.w.req.payload)
  }

  /** The operation for the worker's request has been started with the request's own data. */
  predicate Started(s: Sys) {
    0 < s.w.sequence == |s.ops| && s.inbox == [] && Serves(s.ops[|s.ops| - 1], s.w.req)
  }

  /** It has also completed, and the mailbox holds its result. */
  predicate Published(s: Sys) {
    && Started(s) && |s.settled| == |s.ops| && s.b.active.None? && s.b.pc == Listening
    && s.settled[|s.ops| - 1].Settled? && s.length == s.w.req.length
    && (s.w.req.kind == Read ==> Holds(s, s.settled[|s.ops| - 1].bytes))
  }

  predicate Holds(s: Sys, bytes: seq<byte>) {
    |bytes| == s.w.req.length <= |s.buf| && s.buf[..|bytes|] == bytes
  }

  /** Nothing has answered the request yet: only a shutdown can have changed the state word. */
  predicate Open(s: Sys) {
    s.state == 0 || (s.state == -1 && !s.b.running)
  }

  predicate Waiting(s: Sys)
    requires Numbered(s)
  {
    && s.w.sequence == |s.journal| + 1 && s.sequence == ToInt32(s.w.sequence) && s.w.req.length <= |s.buf|
    && (s.state == 1 || s.w.pc == CheckSequence || s.w.pc == CheckLength || s.w.pc == Copy ==> Published(s))
    && (s.w.pc == CheckState ==> s.state != 0) && (s.w.pc == Copy ==> s.w.req.kind == Read)
    && (s.inbox != [] ==> s.b.pc == Listening && Open(s))
    && (Matching(s.b.pc) ==> Open(s))
    && (s.b.active.Some? ==> s.b.active.value == Message(s.w) && s.b.pc == Listening && Open(s))
    && (Completing(s.b.pc) ==>
          && s.b.pc.m == Message(s.w) && Started(s) && s.state == 0 && s.settled[|s.ops| - 1].Settled?
          && (Loaded(s.b.pc) ==>
                s.w.req.kind == Read && s.b.pc.bytes == s.settled[|s.ops| - 1].bytes
                && |s.b.pc.bytes| == s.w.req.length)
          && (!Loaded(s.b.pc) && s.w.req.kind == Read ==> Holds(s, s.settled[|s.ops| - 1].bytes))
          && (s.b.pc.Publish? ==> s.length == s.w.req.length))
    && (s.b.pc == Failing ==> s.inbox == [])
  }

  /** The worker has written its payload and its number, and nothing is on its way yet. */
  predicate Announced(s: Sys) {
    s.w.sequence > 0 && Resting(s, s.w.sequence - 1) && PayloadIn(s) && s.sequence == ToInt32(s.w.sequence)
  }

  predicate Healthy(s: Sys)
    requires Numbered(s)
  {
    match s.w.pc
    case Idle => Resting(s, s.w.sequence)
    case StoreSequence => s.w.sequence > 0 && Resting(s, s.w.sequence - 1) && PayloadIn(s)
    case StoreLength => Announced(s)
    case StoreReset => Announced(s)
    case Post => Announced(s) && Open(s)
    case _ => Waiting(s)
  }

  predicate Inv(s: Sys) {
    Numbered(s) && Journaled(s) && Counted(s) && Owed(s) && (!s.w.poisoned ==> Healthy(s))
  }

  lemma InitialInv(capacity: nat, writable: bool, mailbox: nat)
    ensures Inv(Initial(capacity, writable, mailbox))
  {
  }

  // ----- Every step keeps it -----

  lemma BeginKeeps(s: Sys, r: Req)
    requires Inv(s) && WorkerEnabled(s, Begin(r))
    ensures Inv(WorkerStep(s, Begin(r)))
  {
  }

  predicate Preparing(pc: WorkerPc) {
    pc == StoreSequence || pc == StoreLength || pc == StoreReset || pc == Post
  }

  lemma PrepareKeeps(s: Sys, a: WorkerAction)
    requires Inv(s) && WorkerEnabled(s, a) && Preparing(s.w.pc)
    ensures Inv(WorkerStep(s, a))
  {
  }

  lemma RetireKeeps(s: Sys)
    requires Inv(s)
    ensures Inv(Retire(s))
  {
  }

  lemma LoadKeeps(s: Sys)
    requires Inv(s) && s.w.pc == Load
    ensures Inv(WorkerStep(s, Proceed))
  {
  }

  lemma WakeKeeps(s: Sys)
    requires Inv(s) && s.w.pc == Sleep
    ensures Inv(At(s, Load))
  {
  }

  lemma PollKeeps(s: Sys, a: WorkerAction)
    requires Inv(s) && WorkerEnabled(s, a) && (s.w.pc == Load || s.w.pc == Sleep)
    ensures Inv(WorkerStep(s, a))
  {
    if s.w.pc == Load {
      LoadKeeps(s);
    } else if a.Wake? {
      WakeKeeps(s);
    } else {
      RetireKeeps(s);
    }
  }

  lemma CheckKeeps(s: Sys, a: WorkerAction)
    requires Inv(s) && WorkerEnabled(s, a) && (s.w.pc == CheckState || s.w.pc == CheckSequence)
    ensures Inv(WorkerStep(s, a))
  {
    RetireKeeps(s);
  }

  /** A normal return adds exactly the one completed operation to the journal. */
  lemma ReturnJournals(s: Sys, data: seq<byte>)
    requires Numbered(s) && Journaled(s) && s.w.sequence == |s.journal| + 1 && Published(s)
    requires data == if s.w.req.kind == Read then s.settled[|s.ops| - 1].bytes else []
    ensures Journaled(Return(s, data))
  {
  }

  lemma ReturnKeeps(s: Sys)
    requires Inv(s) && s.w.pc == CheckLength && s.w.req.kind != Read
    ensures Inv(Return(s, []))
  {
    ReturnJournals(s, []);
  }

  lemma CopyNext(s: Sys)
    requires Inv(s) && s.w.pc == CheckLength && s.w.req.kind == Read
    ensures Inv(At(s, Copy))
  {
  }

  lemma LengthKeeps(s: Sys, a: WorkerAction)
    requires Inv(s) && WorkerEnabled(s, a) && s.w.pc == CheckLength
    ensures Inv(WorkerStep(s, a))
  {
    if s.length != s.w.req.length {
      RetireKeeps(s);
    } else if s.w.req.kind == Read {
      CopyNext(s);
    } else {
      ReturnKeeps(s);
    }
  }

  lemma CopyKeeps(s: Sys, a: WorkerAction)
    requires Inv(s) && WorkerEnabled(s, a) && s.w.pc == Copy
    ensures Inv(WorkerStep(s, a))
  {
    ReturnJournals(s, s.settled[|s.ops| - 1].bytes);
  }

  lemma RetiredKeeps(s: Sys, a: WorkerAction)
    requires Inv(s) && WorkerEnabled(s, a) && s.w.pc == StoreRetired
    ensures Inv(WorkerStep(s, a))
  {
  }

  lemma WorkerKeeps(s: Sys, a: WorkerAction)
    requires Inv(s) && WorkerEnabled(s, a)
    ensures Inv(WorkerStep(s, a))
  {
    if a.Begin? {
      BeginKeeps(s, a.req);
    } else if Preparing(s.w.pc) {
      PrepareKeeps(s, a);
    } else if s.w.pc == Load || s.w.pc == Sleep {
      PollKeeps(s, a);
    } else if s.w.pc == CheckState || s.w.pc == CheckSequence {
      CheckKeeps(s, a);
    } else if s.w.pc == CheckLength {
      LengthKeeps(s, a);
    } else if s.w.pc == Copy {
      CopyKeeps(s, a);
    } else {
      RetiredKeeps(s, a);
    }
  }

  lemma ReceiveKeeps(s: Sys)
    requires Inv(s) && BrokerEnabled(s, Receive)
    ensures Inv(BrokerStep(s, Receive))
  {
  }

  lemma MatchKeeps(s: Sys)
    requires Inv(s) && (s.b.pc.MatchSequence? || s.b.pc.MatchState?)
    ensures Inv(BrokerStep(s, Continue))
  {
  }

  lemma StartKeeps(s: Sys, m: Msg)
    requires Inv(s) && s.b.pc == Start(m)
    ensures Inv(BrokerStep(s, Continue))
  {
  }

  lemma SettledBadly(s: Sys, o: Outcome)
    requires Inv(s) && BrokerEnabled(s, Settle(o))
             && (o.Rejected? || (s.b.active.value.kind == Read && |o.bytes| != s.b.active.value.length))
    ensures Inv(BrokerStep(s, Settle(o)))
  {
  }

  lemma SettledLate(s: Sys, bytes: seq<byte>)
    requires Inv(s) && BrokerEnabled(s, Settle(Settled(bytes))) && !s.b.running
    requires s.b.active.value.kind == Read ==> |bytes| == s.b.active.value.length
    ensures Inv(BrokerStep(s, Settle(Settled(bytes))))
  {
  }

  lemma SettledWell(s: Sys, bytes: seq<byte>)
    requires Inv(s) && BrokerEnabled(s, Settle(Settled(bytes))) && s.b.running
    requires s.b.active.value.kind == Read ==> |bytes| == s.b.active.value.length
    ensures Inv(BrokerStep(s, Settle(Settled(bytes))))
  {
  }

  lemma SettleKeeps(s: Sys, o: Outcome)
    requires Inv(s) && BrokerEnabled(s, Settle(o))
    ensures Inv(BrokerStep(s, Settle(o)))
  {
    if o.Rejected? || (s.b.active.value.kind == Read && |o.bytes| != s.b.active.value.length) {
      SettledBadly(s, o);
    } else if !s.b.running {
      SettledLate(s, o.bytes);
    } else {
      SettledWell(s, o.bytes);
    }
  }

  lemma LateKeeps(s: Sys)
    requires Inv(s) && (s.b.pc.LateSequence? || s.b.pc.LateState?)
    ensures Inv(BrokerStep(s, Continue))
  {
  }

  lemma PatchedPrefix(buf: seq<byte>, bytes: seq<byte>)
    requires |bytes| <= |buf|
    ensures Patch(buf, 0, bytes)[..|bytes|] == bytes
  {
  }

  lemma FillOwes(s: Sys)
    requires Inv(s) && s.b.pc.Fill?
    ensures Owed(BrokerStep(s, Continue))
  {
  }

  lemma FillCounts(s: Sys)
    requires Numbered(s) && Journaled(s) && Counted(s) && s.b.pc.Fill?
    ensures var t := BrokerStep(s, Continue); Numbered(t) && Journaled(t) && Counted(t)
  {
  }

  lemma FillWaits(s: Sys)
    requires Numbered(s) && Waiting(s) && s.b.pc.Fill?
    ensures Numbered(BrokerStep(s, Continue)) && Waiting(BrokerStep(s, Continue))
  {
    PatchedPrefix(s.buf, s.b.pc.bytes);
  }

  lemma FillKeeps(s: Sys)
    requires Inv(s) && s.b.pc.Fill?
    ensures Inv(BrokerStep(s, Continue))
  {
    FillOwes(s);
    FillCounts(s);
    if !s.w.poisoned {
      FillWaits(s);
    }
  }

  lemma FinalKeeps(s: Sys)
    requires Inv(s) && (s.b.pc.FinalSequence? || s.b.pc.FinalState?)
    ensures Inv(BrokerStep(s, Continue))
  {
  }

  lemma PublishLengthKeeps(s: Sys)
    requires Inv(s) && s.b.pc.PublishLength?
    ensures Inv(BrokerStep(s, Continue))
  {
  }

  lemma PublishStateKeeps(s: Sys)
    requires Inv(s) && s.b.pc.Publish?
    ensures Inv(BrokerStep(s, Continue))
  {
  }

  lemma StopKeeps(s: Sys)
    requires Inv(s) && (s.b.pc.Failing? || s.b.pc.Listening?)
    ensures Inv(Stop(s))
  {
  }

  lemma CompleteKeeps(s: Sys)
    requires Inv(s) && Completing(s.b.pc)
    ensures Inv(BrokerStep(s, Continue))
  {
    if s.b.pc.LateSequence? || s.b.pc.LateState? {
      LateKeeps(s);
    } else if s.b.pc.Fill? {
      FillKeeps(s);
    } else if s.b.pc.FinalSequence? || s.b.pc.FinalState? {
      FinalKeeps(s);
    } else if s.b.pc.PublishLength? {
      PublishLengthKeeps(s);
    } else {
      PublishStateKeeps(s);
    }
  }

  lemma BrokerKeeps(s: Sys, a: BrokerAction)
    requires Inv(s) && BrokerEnabled(s, a)
    ensures Inv(BrokerStep(s, a))
  {
    if a.Receive? {
      ReceiveKeeps(s);
    } else if a.Settle? {
      SettleKeeps(s, a.outcome);
    } else if a.Shutdown? || s.b.pc.Failing? {
      StopKeeps(s);
    } else if s.b.pc.MatchSequence? || s.b.pc.MatchState? {
      MatchKeeps(s);
    } else if s.b.pc.Start? {
      StartKeeps(s, s.b.pc.m);
    } else {
      CompleteKeeps(s);
    }
  }
}
