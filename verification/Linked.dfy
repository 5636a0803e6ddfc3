/** The mailbox and the session of one broker together: the atomic operations of `io` and the
    session events they amount to. It shows that `finish` is replied to only when no storage
    operation is under way. */
module Linked {
  import opened Bytes
  import Mailbox
  import Lifecycle

  /** What the broker is in the middle of: taking a message, or concluding an operation. */
  datatype Phase = Between | Taking | Concluding

  datatype Both = Both(m: Mailbox.Sys, s: Lifecycle.Session, phase: Phase)

  /** A step of the worker, a step of `io` (`valid` says which of its checks fail, if they do), an
      event that stops the session, or any other event of it. */
  datatype Move =
    | WorkerMoves(a: Mailbox.WorkerAction)
    | IoMoves(step: Mailbox.BrokerAction, valid: bool)
    | Stops(e: Lifecycle.Event)
    | SessionMoves(e: Lifecycle.Event)

  predicate OfIo(e: Lifecycle.Event) {
    e.IoMessage? || e.StorageSettles?
  }

  /** The reply to `finish` finds the worker between requests: it sent the reply last, and gets no
      other call before the broker has handled it. */
  predicate CanMove(b: Both, move: Move) {
    match move
    case WorkerMoves(a) => Mailbox.WorkerEnabled(b.m, a)
    case IoMoves(a, _) => !a.Shutdown? && Mailbox.BrokerEnabled(b.m, a)
    case Stops(e) =>
      && !OfIo(e) && Mailbox.BrokerEnabled(b.m, Mailbox.Shutdown) && Lifecycle.Enabled(b.s, e)
      && !Lifecycle.Step(b.s, e).running
      && (e.Reply? && e.kind == Lifecycle.Finished ==> b.m.w.pc == Mailbox.Idle && !b.m.w.poisoned)
    case SessionMoves(e) =>
      && !OfIo(e) && b.m.b.pc == Mailbox.Listening && Lifecycle.Enabled(b.s, e)
      && Lifecycle.Step(b.s, e).running == b.s.running
  }

  /** The session event that a step of `io` completes, if it completes one. */
  function Completed(b: Both, t: Mailbox.Sys, a: Mailbox.BrokerAction, valid: bool): Option<Lifecycle.Event> {
    if t.b.pc != Mailbox.Listening || a.Receive? then None
    else if a.Settle? || b.phase.Concluding? then Some(Lifecycle.StorageSettles(t.b.running))
    else Some(Lifecycle.IoMessage(valid || t.b.running, t.b.running))
  }

  function PhaseAfter(b: Both, t: Mailbox.Sys, a: Mailbox.BrokerAction): Phase {
    if t.b.pc == Mailbox.Listening then Between
    else if a.Receive? then Taking
    else if a.Settle? then Concluding
    else b.phase
  }

  /** Such an event is possible whenever the step is. */
  function Happens(s: Lifecycle.Session, e: Option<Lifecycle.Event>): Lifecycle.Session {
    if e.Some? && Lifecycle.Enabled(s, e.value) then Lifecycle.Step(s, e.value) else s
  }

  function Moved(b: Both, move: Move): Both
    requires CanMove(b, move)
  {
    match move
    case WorkerMoves(a) => b.(m := Mailbox.WorkerStep(b.m, a))
    case IoMoves(a, valid) =>
      var t := Mailbox.BrokerStep(b.m, a);
      Both(t, Happens(b.s, Completed(b, t, a, valid)), PhaseAfter(b, t, a))
    case Stops(e) => b.(m := Mailbox.BrokerStep(b.m, Mailbox.Shutdown), s := Lifecycle.Step(b.s, e))
    case SessionMoves(e) => b.(s := Lifecycle.Step(b.s, e))
  }

  // ----- The two agree -----

  predicate Agree(b: Both) {
    && b.s.running == b.m.b.running
    && (b.s.unsettled <==> b.m.b.active.Some? || b.phase.Concluding?)
    && (b.phase.Between? <==> b.m.b.pc == Mailbox.Listening)
    && (b.phase.Taking? ==> b.m.b.running && (Mailbox.Matching(b.m.b.pc) || b.m.b.pc == Mailbox.Failing))
    && (b.phase.Taking? && Mailbox.Matching(b.m.b.pc) ==> b.m.b.active.None?)
    && (b.phase.Concluding? ==>
          b.m.b.active.None? && (Mailbox.Completing(b.m.b.pc) || b.m.b.pc == Mailbox.Failing))
  }

  predicate Inv(b: Both) {
    Mailbox.Inv(b.m) && Lifecycle.Inv(b.s) && Agree(b)
  }

  lemma WorkerAgrees(b: Both, a: Mailbox.WorkerAction)
    requires Agree(b) && Mailbox.WorkerEnabled(b.m, a)
    ensures Agree(b.(m := Mailbox.WorkerStep(b.m, a)))
  {
  }

  lemma ReceiveAgrees(b: Both)
    requires Agree(b) && Mailbox.BrokerEnabled(b.m, Mailbox.Receive)
    ensures Agree(Moved(b, IoMoves(Mailbox.Receive, true)))
    ensures Moved(b, IoMoves(Mailbox.Receive, false)) == Moved(b, IoMoves(Mailbox.Receive, true))
  {
  }

  lemma SettleAgrees(b: Both, o: Mailbox.Outcome, valid: bool)
    requires Agree(b) && Lifecycle.Inv(b.s) && Mailbox.BrokerEnabled(b.m, Mailbox.Settle(o))
    ensures Agree(Moved(b, IoMoves(Mailbox.Settle(o), valid)))
  {
  }

  lemma TakingAgrees(b: Both, valid: bool)
    requires Agree(b) && Lifecycle.Inv(b.s) && b.phase.Taking?
    ensures Agree(Moved(b, IoMoves(Mailbox.BrokerAction.Continue, valid)))
  {
  }

  lemma ConcludingAgrees(b: Both, valid: bool)
    requires Agree(b) && Lifecycle.Inv(b.s) && b.phase.Concluding?
    requires Mailbox.Completing(b.m.b.pc) ==> b.m.b.running
    ensures Agree(Moved(b, IoMoves(Mailbox.BrokerAction.Continue, valid)))
  {
  }

  lemma TeardownLeavesIo(s: Lifecycle.Session, e: Lifecycle.Event)
    requires e.Trouble? || e.AbortSettles? || e.PendingSettles? || e.PendingExpires? || e.CloseSettles?
    requires Lifecycle.Enabled(s, e)
    ensures Lifecycle.Step(s, e).unsettled == s.unsettled
  {
  }

  lemma CallsLeaveIo(s: Lifecycle.Session, e: Lifecycle.Event)
    requires e.Reply? || e.CallMade? || e.TaskRuns? || e.FinishResolves?
    requires Lifecycle.Enabled(s, e)
    ensures Lifecycle.Step(s, e).unsettled == s.unsettled
  {
  }

  /** Events outside `io` leave its operation alone. */
  lemma OthersLeaveIo(s: Lifecycle.Session, e: Lifecycle.Event)
    requires !OfIo(e) && Lifecycle.Enabled(s, e)
    ensures Lifecycle.Step(s, e).unsettled == s.unsettled
  {
    if e.Reply? || e.CallMade? || e.TaskRuns? || e.FinishResolves? {
      CallsLeaveIo(s, e);
    } else {
      TeardownLeavesIo(s, e);
    }
  }

  lemma AgreeKeeps(b: Both, move: Move)
    requires Inv(b) && CanMove(b, move)
    ensures Agree(Moved(b, move))
  {
    match move {
      case WorkerMoves(a) => WorkerAgrees(b, a);
      case IoMoves(Receive, _) => ReceiveAgrees(b);
      case IoMoves(Settle(o), valid) => SettleAgrees(b, o, valid);
      case IoMoves(_, valid) =>
        if b.phase.Taking? {
          TakingAgrees(b, valid);
        } else {
          ConcludingAgrees(b, valid);
        }
      case Stops(e) => OthersLeaveIo(b.s, e);
      case SessionMoves(e) => OthersLeaveIo(b.s, e);
    }
  }

  lemma MoveKeeps(b: Both, move: Move)
    requires Inv(b) && CanMove(b, move)
    ensures Inv(Moved(b, move))
  {
    AgreeKeeps(b, move);
    MailboxKeeps(b, move);
    SessionKeeps(b, move);
  }

  lemma MailboxKeeps(b: Both, move: Move)
    requires Mailbox.Inv(b.m) && CanMove(b, move)
    ensures Mailbox.Inv(Moved(b, move).m)
  {
    match move {
      case WorkerMoves(a) => Mailbox.WorkerKeeps(b.m, a);
      case IoMoves(a, _) => Mailbox.BrokerKeeps(b.m, a);
      case Stops(_) => Mailbox.BrokerKeeps(b.m, Mailbox.Shutdown);
      case SessionMoves(_) =>
    }
  }

  lemma SessionKeeps(b: Both, move: Move)
    requires Lifecycle.Inv(b.s) && CanMove(b, move)
    ensures Lifecycle.Inv(Moved(b, move).s)
  {
    match move {
      case WorkerMoves(_) =>
      case IoMoves(a, valid) =>
        var e := Completed(b, Mailbox.BrokerStep(b.m, a), a, valid);
        if e.Some? && Lifecycle.Enabled(b.s, e.value) {
          Lifecycle.StepKeeps(b.s, e.value);
        }
      case Stops(e) => Lifecycle.StepKeeps(b.s, e);
      case SessionMoves(e) => Lifecycle.StepKeeps(b.s, e);
    }
  }

  function Start(storage: nat, capacity: nat, writable: bool, mailbox: nat): Both {
    Both(Mailbox.Initial(capacity, writable, mailbox), Lifecycle.Opened(storage), Between)
  }

  function RunAll(b: Both, moves: seq<Move>): Both
    decreases |moves|
  {
    if moves == [] then b
    else
      var n := |moves| - 1;
      var c := RunAll(b, moves[..n]);
      if CanMove(c, moves[n]) then Moved(c, moves[n]) else c
  }

  lemma {:induction false} RunKeeps(b: Both, moves: seq<Move>)
    requires Inv(b)
    ensures Inv(RunAll(b, moves))
    decreases |moves|
  {
    if moves != [] {
      RunKeeps(b, moves[..|moves| - 1]);
      var c := RunAll(b, moves[..|moves| - 1]);
      if CanMove(c, moves[|moves| - 1]) {
        MoveKeeps(c, moves[|moves| - 1]);
      }
    }
  }

  /** In every run of mailbox and session together the session knows of an unsettled operation
      exactly while the mailbox has one, the events of `io` are possible when they come, and the
      event that finishes the session finds none: what the storage-wide order of closing asks for. */
  lemma FinishIsQuiet(storage: nat, capacity: nat, writable: bool, mailbox: nat, moves: seq<Move>, move: Move)
    ensures var b := RunAll(Start(storage, capacity, writable, mailbox), moves);
            && (b.m.b.pc == Mailbox.Listening ==> (b.s.unsettled <==> b.m.b.active.Some?))
            && (b.s.running <==> b.m.b.running)
            && (CanMove(b, move) && (move.Stops? || move.SessionMoves?) ==> Lifecycle.QuietEvent(b.s, move.e))
            && (CanMove(b, move) && move.IoMoves? ==>
                  var e := Completed(b, Mailbox.BrokerStep(b.m, move.step), move.step, move.valid);
                  e.Some? ==> Lifecycle.Enabled(b.s, e.value))
  {
    Mailbox.InitialInv(capacity, writable, mailbox);
    RunKeeps(Start(storage, capacity, writable, mailbox), moves);
  }

  // ----- Any number of brokers on any storages -----

  datatype World = World(parts: seq<Both>, owners: set<nat>, consumed: set<nat>)

  datatype Happening = Open(storage: nat, capacity: nat, writable: bool, mailbox: nat) | Within(i: nat, move: Move)

  /** The session event of a move, if it has one. */
  function EventOf(b: Both, move: Move): Option<Lifecycle.Event>
    requires CanMove(b, move)
  {
    match move
    case WorkerMoves(_) => None
    case IoMoves(a, valid) => Completed(b, Mailbox.BrokerStep(b.m, a), a, valid)
    case Stops(e) => Some(e)
    case SessionMoves(e) => Some(e)
  }

  function Sessions(w: World): Lifecycle.World {
    Lifecycle.World(seq(|w.parts|, i requires 0 <= i < |w.parts| => w.parts[i].s), w.owners, w.consumed)
  }

  predicate CanHappen(w: World, h: Happening) {
    match h
    case Open(storage, _, _, _) => storage !in w.owners && storage !in w.consumed
    case Within(i, move) => i < |w.parts| && CanMove(w.parts[i], move)
  }

  function Happen(w: World, h: Happening): World
    requires CanHappen(w, h)
  {
    match h
    case Open(storage, capacity, writable, mailbox) =>
      w.(parts := w.parts + [Start(storage, capacity, writable, mailbox)], owners := w.owners + {storage})
    case Within(i, move) =>
      var e := EventOf(w.parts[i], move);
      var v := if e.Some? && Lifecycle.Enabled(w.parts[i].s, e.value)
               then Lifecycle.Happen(Sessions(w), Lifecycle.Within(i, e.value)) else Sessions(w);
      World(w.parts[i := Moved(w.parts[i], move)], v.owners, v.consumed)
  }

  predicate WorldInv(w: World) {
    && (forall i :: 0 <= i < |w.parts| ==> Inv(w.parts[i]))
    && Lifecycle.WorldInv(Sessions(w)) && Lifecycle.InTurn(Sessions(w))
  }

  /** A move moves its session by its event and by nothing else, and the event is a quiet one. */
  lemma MoveIsEvent(b: Both, move: Move)
    requires Inv(b) && CanMove(b, move)
    ensures Moved(b, move).s == Happens(b.s, EventOf(b, move))
    ensures EventOf(b, move).Some? ==> Lifecycle.QuietEvent(b.s, EventOf(b, move).value)
  {
  }

  lemma OpenedSessions(w: World, h: Happening)
    requires CanHappen(w, h) && h.Open?
    ensures Sessions(Happen(w, h)) == Lifecycle.Happen(Sessions(w), Lifecycle.Open(h.storage))
  {
  }

  lemma MovedSessions(w: World, h: Happening)
    requires CanHappen(w, h) && h.Within? && Inv(w.parts[h.i])
    ensures var e := EventOf(w.parts[h.i], h.move);
            Sessions(Happen(w, h))
            == if e.Some? && Lifecycle.Enabled(w.parts[h.i].s, e.value)
               then Lifecycle.Happen(Sessions(w), Lifecycle.Within(h.i, e.value)) else Sessions(w)
  {
    MoveIsEvent(w.parts[h.i], h.move);
  }

  lemma WorldKeeps(w: World, h: Happening)
    requires WorldInv(w) && CanHappen(w, h)
    ensures WorldInv(Happen(w, h))
  {
    match h {
      case Open(storage, capacity, writable, mailbox) =>
        OpenedSessions(w, h);
        Mailbox.InitialInv(capacity, writable, mailbox);
        Lifecycle.WorldKeeps(Sessions(w), Lifecycle.Open(storage));
        Lifecycle.TurnsKeep(Sessions(w), Lifecycle.Open(storage));
      case Within(i, move) =>
        MovedSessions(w, h);
        MoveKeeps(w.parts[i], move);
        MoveIsEvent(w.parts[i], move);
        var e := EventOf(w.parts[i], move);
        if e.Some? && Lifecycle.Enabled(w.parts[i].s, e.value) {
          Lifecycle.WorldKeeps(Sessions(w), Lifecycle.Within(i, e.value));
          Lifecycle.TurnsKeep(Sessions(w), Lifecycle.Within(i, e.value));
        }
    }
  }

  function History(w: World, happenings: seq<Happening>): World
    decreases |happenings|
  {
    if happenings == [] then w
    else
      var n := |happenings| - 1;
      var v := History(w, happenings[..n]);
      if CanHappen(v, happenings[n]) then Happen(v, happenings[n]) else v
  }

  lemma {:induction false} HistoryKeeps(w: World, happenings: seq<Happening>)
    requires WorldInv(w)
    ensures WorldInv(History(w, happenings))
    decreases |happenings|
  {
    if happenings != [] {
      var n := |happenings| - 1;
      HistoryKeeps(w, happenings[..n]);
      if CanHappen(History(w, happenings[..n]), happenings[n]) {
        WorldKeeps(History(w, happenings[..n]), happenings[n]);
      }
    }
  }

  /** Over every history of any number of brokers with their workers, nothing assumed of it: while a
      session is not down, no storage operation of another session on its storage is under way; so
      when it issues the final close, none of any session is. */
  lemma StorageClosesLast(happenings: seq<Happening>, i: nat, j: nat, move: Move)
    requires var v := History(World([], {}, {}), happenings);
             && i < |v.parts| && j < |v.parts| && v.parts[i].s.storage == v.parts[j].s.storage
             && v.parts[i].s.stage != Lifecycle.Down
    ensures var v := History(World([], {}, {}), happenings);
            && (i != j ==>
                  v.parts[j].s.stage == Lifecycle.Down && !v.parts[j].s.unsettled && v.parts[j].m.b.active.None?)
            && (CanMove(v.parts[i], move) && |Moved(v.parts[i], move).s.closes| > |v.parts[i].s.closes| ==>
                  !Happen(v, Within(i, move)).parts[j].s.unsettled)
  {
    var v := History(World([], {}, {}), happenings);
    HistoryKeeps(World([], {}, {}), happenings);
    if i != j {
      OthersAreQuiet(v, i, j);
    }
    if CanMove(v.parts[i], move) && |Moved(v.parts[i], move).s.closes| > |v.parts[i].s.closes| {
      MoveClosesLast(v.parts[i], move);
    }
  }

  lemma MoveClosesLast(b: Both, move: Move)
    requires Inv(b) && CanMove(b, move) && |Moved(b, move).s.closes| > |b.s.closes|
    ensures !Moved(b, move).s.unsettled
  {
    MoveIsEvent(b, move);
    Lifecycle.CloseIsLast(b.s, EventOf(b, move).value);
  }

  lemma OthersAreQuiet(v: World, i: nat, j: nat)
    requires WorldInv(v) && i < |v.parts| && j < |v.parts| && i != j
    requires v.parts[i].s.storage == v.parts[j].s.storage && v.parts[i].s.stage != Lifecycle.Down
    ensures v.parts[j].s.stage == Lifecycle.Down && !v.parts[j].s.unsettled && v.parts[j].m.b.active.None?
  {
    InTurnIsQuiet(Sessions(v), i, j);
    assert Agree(v.parts[j]);
  }

  lemma InTurnIsQuiet(w: Lifecycle.World, i: nat, j: nat)
    requires Lifecycle.WorldInv(w) && Lifecycle.InTurn(w) && i < |w.sessions| && j < |w.sessions| && i != j
    requires w.sessions[i].storage == w.sessions[j].storage && w.sessions[i].stage != Lifecycle.Down
    ensures w.sessions[j].stage == Lifecycle.Down && !w.sessions[j].unsettled
  {
    assert Lifecycle.FinishedQuietly(w.sessions[j]);
    assert Lifecycle.GivesWay(w.sessions[i], w.sessions[j]);
  }
}
