/** The broker's sessions: ownership of storages, teardown, and the accounting of calls, against
    workers and storages that may send or settle anything at any time. */
module Lifecycle {
  import opened Bytes

  /** What `activeIO` holds: nothing, an `io` waiting for its storage operation, or an `io` that
      itself returned the promise of the teardown. */
  datatype Active = Nothing | InFlight | OnTeardown

  datatype Stage = Up | Aborting(captured: Active) | Settling(captured: Active) | Closing | Down

  /** The promise of an accepted call: chained on the one before it, adopted from the item of a
      posted call, or settled, fulfilled or rejected. Promise 0 is the one the queue starts with. */
  datatype Promise = Chained(on: nat) | Adopted(id: nat) | Settled(fulfilled: bool)

  datatype Post = Post(id: nat, promise: nat)

  /** `queue` is the promise the next call chains on, `calls` the posted calls without a reply,
      `finishing` the call whose promise waits for the teardown its own reply began. `closes`
      records, for every final `storage.close()`, whether an operation of this session was then
      unsettled; `posted` and `settles` what was posted and settled, in order. */
  datatype Session = Session(storage: nat, running: bool, finished: bool, closing: bool, unsettled: bool,
                             active: Active, stage: Stage, closes: seq<bool>, promises: seq<Promise>, queue: nat,
                             nextCall: nat, calls: map<nat, nat>, posted: seq<Post>, finishing: Option<nat>,
                             settles: seq<nat>)

  datatype ReplyKind = Good | Bad | Retired | Finished

  datatype Event =
    | IoMessage(valid: bool, acceptable: bool)
    | StorageSettles(good: bool)
    | Reply(id: nat, kind: ReplyKind)
    | Trouble
    | CallMade
    | TaskRuns(promise: nat)
    | AbortSettles(good: bool)
    | PendingSettles
    | PendingExpires
    | CloseSettles(good: bool)
    | FinishResolves

  function Opened(storage: nat): Session {
    Session(storage, true, false, false, false, Nothing, Up, [], [Settled(true)], 0, 0, map[], [], None, [])
  }

  /** A task is due once the promise it was chained on has settled. */
  predicate Due(s: Session, k: nat) {
    && k < |s.promises| && s.promises[k].Chained?
    && s.promises[k].on < |s.promises| && s.promises[s.promises[k].on].Settled?
  }

  predicate Enabled(s: Session, e: Event) {
    match e
    case IoMessage(_, _) => s.running
    case StorageSettles(_) => s.unsettled
    case Reply(_, _) => s.running
    case Trouble => true
    case CallMade => true
    case TaskRuns(k) => Due(s, k)
    case AbortSettles(_) => s.stage.Aborting?
    case PendingSettles =>
      s.stage.Settling? && (s.stage.captured == InFlight ==> !s.unsettled) && s.stage.captured != OnTeardown
    case PendingExpires => s.stage.Settling?
    case CloseSettles(_) => s.stage.Closing?
    case FinishResolves => s.finishing.Some?
  }

  function IssueClose(s: Session): Session {
    s.(stage := Closing, closes := s.closes + [s.unsettled])
  }

  /** `shutdown`: only the first has an effect. */
  function Shutdown(s: Session, closeStorage: bool): Session {
    if s.stage != Up then s
    else
      var t := s.(running := false, closing := closeStorage);
      if !closeStorage then t.(stage := Down)
      else if s.active == Nothing then IssueClose(t)
      else t.(stage := Aborting(s.active))
  }

  function Fail(s: Session): Session {
    Shutdown(s, true)
  }

  function Settle(s: Session, k: nat, fulfilled: bool): Session {
    s.(promises := if k < |s.promises| then s.promises[k := Settled(fulfilled)] else s.promises,
       settles := s.settles + [k])
  }

  /** Rejects the calls without a reply, in the order they were posted, from `id` on. */
  function RejectFrom(s: Session, id: nat): (t: Session)
    ensures t == s.(promises := t.promises, settles := t.settles) && |t.promises| == |s.promises|
    decreases s.nextCall + 1 - id
  {
    if id > s.nextCall then s
    else RejectFrom(if id in s.calls then Settle(s, s.calls[id], false) else s, id + 1)
  }

  /** `rejectAll` at the end of a failed teardown. */
  function RejectAll(s: Session): Session {
    RejectFrom(s, 1).(stage := Down, calls := map[])
  }

  function Io(s: Session, valid: bool, acceptable: bool): Session {
    if s.unsettled || !valid then Fail(s).(active := OnTeardown)
    else if !acceptable then Fail(s).(active := Nothing)
    else s.(unsettled := true, active := InFlight)
  }

  function OnReply(s: Session, id: nat, kind: ReplyKind): Session {
    if id !in s.calls then s
    else
      var t := s.(calls := s.calls - {id});
      match kind
      case Retired => Fail(s)
      case Finished => Shutdown(t.(finished := true), false).(finishing := Some(s.calls[id]))
      case _ => Settle(t, s.calls[id], kind == Good)
  }

  /** `call`: the new promise is chained on the queue, and becomes it. */
  function Accept(s: Session): Session {
    if !s.running || s.finished then s
    else s.(promises := s.promises + [Chained(s.queue)], queue := |s.promises|)
  }

  /** The chained task: rejected at once in a closed session, else posted to the worker. */
  function RunTask(s: Session, k: nat): Session
    requires k < |s.promises|
  {
    if !s.running || s.finished then Settle(s, k, false)
    else
      var id := s.nextCall + 1;
      s.(promises := s.promises[k := Adopted(id)], nextCall := id, calls := s.calls[id := k],
         posted := s.posted + [Post(id, k)])
  }

  function Step(s: Session, e: Event): Session
    requires Enabled(s, e)
  {
    match e
    case IoMessage(valid, acceptable) => Io(s, valid, acceptable)
    case StorageSettles(good) =>
      // A failed operation starts the teardown before the `io` that awaited it has returned.
      var t := if good then s.(unsettled := false) else Fail(s.(unsettled := false));
      t.(active := if t.active == InFlight then Nothing else t.active)
    case Reply(id, kind) => OnReply(s, id, kind)
    case Trouble => Fail(s)
    case CallMade => Accept(s)
    case TaskRuns(k) => RunTask(s, k)
    case AbortSettles(good) => if good then s.(stage := Settling(s.stage.captured)) else RejectAll(s)
    case PendingSettles => IssueClose(s)
    case PendingExpires => RejectAll(s)
    case CloseSettles(_) => RejectAll(s)
    case FinishResolves => Settle(s.(finishing := None), s.finishing.value, true)
  }

  /** Teardown never waits on itself, and closes last. */
  predicate TearsDown(s: Session) {
    && (s.stage == Up <==> s.running) && (s.finished ==> s.stage == Down) && (s.closing ==> s.stage != Up)
    && (s.running ==> s.active != OnTeardown && (s.active == InFlight <==> s.unsettled))
    && (s.stage.Aborting? || s.stage.Settling? ==> s.stage.captured == InFlight)
    && (s.stage.Closing? ==> !s.unsettled)
    && (forall i :: 0 <= i < |s.closes| ==> !s.closes[i])
    && |s.closes| <= (if s.stage.Closing? || s.stage.Down? then 1 else 0)
    && (s.stage.Aborting? || s.stage.Settling? || s.stage.Closing? ==> s.closing)
  }

  /** The first unsettled promise, if there is one, is the only one that may have left the chain. */
  predicate InChain(s: Session) {
    var n := |s.settles| + 1;
    && n <= |s.promises| && s.queue == |s.promises| - 1
    && (forall i :: 0 <= i < |s.settles| ==> s.settles[i] == i + 1)
    && (forall k :: 0 <= k < n ==> s.promises[k].Settled?)
    && (forall k :: n < k < |s.promises| ==> s.promises[k] == Chained(k - 1))
    && (n < |s.promises| ==> s.promises[n] == Chained(n - 1) || s.promises[n] == Adopted(n))
  }

  predicate Outstanding(s: Session) {
    var n := |s.settles| + 1; n < |s.promises| && s.promises[n].Adopted?
  }

  /** What was posted is the first of what was accepted, and what has no reply is the last posted. */
  predicate Counts(s: Session) {
    var n := |s.settles| + 1;
    && |s.posted| == s.nextCall && (forall i :: 0 <= i < |s.posted| ==> s.posted[i] == Post(i + 1, i + 1))
    && (if Outstanding(s) then s.nextCall == n else s.nextCall <= n - 1 && (s.running ==> s.nextCall == n - 1))
    && (if s.finishing.Some? then s.stage == Down && s.calls == map[] && s.finishing == Some(n) && Outstanding(s)
        else if Outstanding(s) then s.calls == map[n := n] && s.stage != Down
        else s.calls == map[])
  }

  predicate Inv(s: Session) {
    TearsDown(s) && InChain(s) && Counts(s)
  }

  lemma {:induction false} RejectNone(s: Session, id: nat)
    requires s.calls == map[]
    ensures RejectFrom(s, id) == s
    decreases s.nextCall + 1 - id
  {
    if id <= s.nextCall {
      RejectNone(s, id + 1);
    }
  }

  lemma {:induction false} RejectPast(s: Session, id: nat)
    requires id > s.nextCall
    ensures RejectFrom(s, id) == s
  {
  }

  lemma {:induction false} RejectOne(s: Session, id: nat)
    requires s.calls == map[s.nextCall := s.nextCall] && id <= s.nextCall
    ensures RejectFrom(s, id) == Settle(s, s.nextCall, false)
    decreases s.nextCall + 1 - id
  {
    if id < s.nextCall {
      RejectOne(s, id + 1);
    } else {
      RejectPast(Settle(s, s.nextCall, false), id + 1);
    }
  }

  lemma RejectAllKeeps(s: Session)
    requires Inv(s) && !s.running && s.finishing.None?
    ensures Inv(RejectAll(s))
    ensures var t := RejectAll(s);
            t.settles == if Outstanding(s) then s.settles + [s.nextCall] else s.settles
  {
    if Outstanding(s) {
      RejectOne(s, 1);
    } else {
      RejectNone(s, 1);
    }
  }

  lemma SettlingKeeps(s: Session, e: Event)
    requires Inv(s) && Enabled(s, e) && (e.AbortSettles? || e.PendingSettles? || e.PendingExpires? || e.CloseSettles?)
    ensures Inv(Step(s, e))
  {
    RejectAllKeeps(s);
  }

  lemma FailKeeps(s: Session)
    requires Inv(s)
    ensures Inv(Fail(s))
  {
  }

  /** The calls do not depend on the storage operation. */
  lemma ActiveKeeps(s: Session, unsettled: bool, active: Active)
    requires Inv(s) && !s.running && (s.stage.Closing? ==> !unsettled)
    ensures Inv(s.(unsettled := unsettled, active := active))
  {
  }

  lemma ServingKeeps(s: Session, e: Event)
    requires Inv(s) && Enabled(s, e) && (e.IoMessage? || e.StorageSettles? || e.Trouble?)
    ensures Inv(Step(s, e))
  {
    FailKeeps(s);
    match e {
      case IoMessage(valid, acceptable) => IoKeeps(s, valid, acceptable);
      case StorageSettles(good) => StorageKeeps(s, good);
      case Trouble =>
    }
  }

  lemma IoKeeps(s: Session, valid: bool, acceptable: bool)
    requires Inv(s) && s.running
    ensures Inv(Io(s, valid, acceptable))
  {
    FailKeeps(s);
    if s.unsettled || !valid {
      ActiveKeeps(Fail(s), s.unsettled, OnTeardown);
    } else if !acceptable {
      ActiveKeeps(Fail(s), s.unsettled, Nothing);
    }
  }

  lemma StorageKeeps(s: Session, good: bool)
    requires Inv(s) && s.unsettled
    ensures Inv(Step(s, StorageSettles(good)))
  {
    if !s.running {
      ActiveKeeps(s, false, if s.active == InFlight then Nothing else s.active);
    } else if !good {
      FailKeeps(s);
      ActiveKeeps(Fail(s), false, Nothing);
    }
  }

  /** The task that is due is that of the first unsettled promise. */
  lemma DueIsFirst(s: Session, k: nat)
    requires InChain(s) && Due(s, k)
    ensures k == |s.settles| + 1 && s.promises[k] == Chained(k - 1)
  {
  }

  lemma TaskKeeps(s: Session, k: nat)
    requires Inv(s) && Due(s, k)
    ensures Inv(RunTask(s, k))
  {
    DueIsFirst(s, k);
  }

  lemma ReplyKeeps(s: Session, id: nat, kind: ReplyKind)
    requires Inv(s) && s.running
    ensures Inv(OnReply(s, id, kind))
  {
  }

  lemma CallsKeep(s: Session, e: Event)
    requires Inv(s) && Enabled(s, e) && (e.Reply? || e.CallMade? || e.TaskRuns? || e.FinishResolves?)
    ensures Inv(Step(s, e))
  {
    match e {
      case Reply(id, kind) => ReplyKeeps(s, id, kind);
      case TaskRuns(k) => TaskKeeps(s, k);
      case _ =>
    }
  }

  lemma StepKeeps(s: Session, e: Event)
    requires Inv(s) && Enabled(s, e)
    ensures Inv(Step(s, e))
  {
    if e.IoMessage? || e.StorageSettles? || e.Trouble? {
      ServingKeeps(s, e);
    } else if e.Reply? || e.CallMade? || e.TaskRuns? || e.FinishResolves? {
      CallsKeep(s, e);
    } else {
      SettlingKeeps(s, e);
    }
  }

  function RunAll(s: Session, events: seq<Event>): Session
    decreases |events|
  {
    if events == [] then s
    else
      var t := RunAll(s, events[..|events| - 1]);
      var e := events[|events| - 1];
      if Enabled(t, e) then Step(t, e) else t
  }

  lemma {:induction false} RunKeeps(s: Session, events: seq<Event>)
    requires Inv(s)
    ensures Inv(RunAll(s, events))
    decreases |events|
  {
    if events != [] {
      RunKeeps(s, events[..|events| - 1]);
      var t := RunAll(s, events[..|events| - 1]);
      if Enabled(t, events[|events| - 1]) {
        StepKeeps(t, events[|events| - 1]);
      }
    }
  }

  lemma ChainOrder(s: Session)
    requires InChain(s)
    ensures forall j, k :: 0 <= j < k < |s.promises| && !s.promises[k].Chained? ==> s.promises[j].Settled?
    ensures forall k :: 0 <= k < |s.promises| ==> (s.promises[k].Settled? <==> k <= |s.settles|)
  {
  }

  lemma CallOrder(s: Session)
    requires InChain(s) && Counts(s)
    ensures |s.posted| < |s.promises| && |s.calls| <= 1
    ensures forall id :: id in s.calls ==> id == |s.posted| && s.calls[id] == id && s.promises[id] == Adopted(id)
  {
  }

  /** In every run, whatever worker, storage and caller do: the final close is issued at most once
      and only with no operation of the session unsettled, and teardown never waits on a promise
      that waits on the teardown. The calls whose tasks ran are the first accepted, all settled but
      perhaps the last; they reach the worker in the order accepted, under ascending numbers, at
      most one without a reply; and every promise settles at most once, in that order. */
  lemma SessionIsOrderly(storage: nat, events: seq<Event>)
    ensures var s := RunAll(Opened(storage), events);
            && |s.closes| <= 1 && (forall i :: 0 <= i < |s.closes| ==> !s.closes[i])
            && (s.stage.Aborting? || s.stage.Settling? ==> s.stage.captured == InFlight)
            && (forall j, k :: 0 <= j < k < |s.promises| && !s.promises[k].Chained? ==> s.promises[j].Settled?)
            && (forall i :: 0 <= i < |s.posted| ==> s.posted[i] == Post(i + 1, i + 1))
            && |s.posted| < |s.promises| && |s.calls| <= 1
            && (forall id :: id in s.calls ==> id == |s.posted| && s.calls[id] == id && s.promises[id] == Adopted(id))
            && |s.settles| < |s.promises| && (forall i :: 0 <= i < |s.settles| ==> s.settles[i] == i + 1)
            && (forall k :: 0 <= k < |s.promises| ==> (s.promises[k].Settled? <==> k <= |s.settles|))
  {
    RunKeeps(Opened(storage), events);
    ChainOrder(RunAll(Opened(storage), events));
    CallOrder(RunAll(Opened(storage), events));
  }

  // ----- Settlement -----

  /** What remains to be done once a session is stopping: its stages, and the unsettled promises. */
  function Work(s: Session): int {
    (match s.stage case Up => 0 case Aborting(_) => 3 case Settling(_) => 2 case Closing => 1 case Down => 0)
    + |s.promises| - 1 - |s.settles|
  }

  /** The steps the session takes by itself: a deadline fires, a microtask runs. */
  predicate Internal(e: Event) {
    e.TaskRuns? || e.AbortSettles? || e.PendingSettles? || e.PendingExpires? || e.CloseSettles? || e.FinishResolves?
  }

  /** As long as a stopped session has work left, a deadline or microtask is due. */
  lemma WorkIsDue(s: Session)
    requires Inv(s) && !s.running
    ensures Work(s) > 0 ==>
              Enabled(s, TaskRuns(|s.settles| + 1)) || Enabled(s, AbortSettles(false)) || Enabled(s, PendingExpires)
              || Enabled(s, CloseSettles(false)) || Enabled(s, FinishResolves)
  {
  }

  /** Each of these does some of the work; nothing that storage, worker or caller do adds to it. */
  lemma StoppedSessionSettles(s: Session, e: Event)
    requires Inv(s) && !s.running && Enabled(s, e)
    ensures var t := Step(s, e);
            && !t.running && |t.promises| == |s.promises|
            && (if Internal(e) then Work(t) < Work(s) else Work(t) == Work(s))
  {
    match e {
      case TaskRuns(k) => DueIsFirst(s, k);
      case AbortSettles(_) => RejectAllKeeps(s);
      case PendingExpires => RejectAllKeeps(s);
      case CloseSettles(_) => RejectAllKeeps(s);
      case _ =>
    }
  }

  lemma NoWorkIsSettled(s: Session)
    requires Inv(s) && !s.running
    ensures Work(s) >= 0
    ensures Work(s) == 0 ==>
              s.stage == Down && s.calls == map[] && forall k :: 0 <= k < |s.promises| ==> s.promises[k].Settled?
  {
  }

  /** How many deadlines fired and microtasks ran among these events. */
  function Fired(s: Session, events: seq<Event>): nat
    decreases |events|
  {
    if events == [] then 0
    else
      var n := |events| - 1;
      Fired(s, events[..n]) + if Enabled(RunAll(s, events[..n]), events[n]) && Internal(events[n]) then 1 else 0
  }

  lemma {:induction false} WorkRunsOut(s: Session, events: seq<Event>)
    requires Inv(s) && !s.running
    ensures var t := RunAll(s, events);
            Inv(t) && !t.running && |t.promises| == |s.promises| && Work(t) + Fired(s, events) <= Work(s)
    decreases |events|
  {
    if events != [] {
      var n := |events| - 1;
      WorkRunsOut(s, events[..n]);
      var t := RunAll(s, events[..n]);
      if Enabled(t, events[n]) {
        StoppedSessionSettles(t, events[n]);
        StepKeeps(t, events[n]);
      }
    }
  }

  /** In every run of a stopped session, whatever else happens in it: only so many deadlines can fire
      and microtasks run, one is due until everything is done, and once that many have, the session
      is down and every accepted call has settled. */
  lemma EveryRunSettles(s: Session, events: seq<Event>)
    requires Inv(s) && !s.running
    ensures var t := RunAll(s, events);
            && Fired(s, events) <= Work(s) && |t.promises| == |s.promises|
            && (Work(t) > 0 ==>
                  Enabled(t, TaskRuns(|t.settles| + 1)) || Enabled(t, AbortSettles(false)) || Enabled(t, PendingExpires)
                  || Enabled(t, CloseSettles(false)) || Enabled(t, FinishResolves))
            && (Work(t) == 0 || Fired(s, events) >= Work(s) ==>
                  t.stage == Down && t.calls == map[] && forall k :: 0 <= k < |t.promises| ==> t.promises[k].Settled?)
  {
    WorkRunsOut(s, events);
    WorkIsDue(RunAll(s, events));
    NoWorkIsSettled(RunAll(s, events));
  }

  /** The next thing a stopped session waits for. */
  function Awaited(s: Session): Event {
    match s.stage
    case Aborting(_) => AbortSettles(false)
    case Settling(_) => PendingExpires
    case Closing => CloseSettles(false)
    case _ => if s.finishing.Some? then FinishResolves else TaskRuns(|s.settles| + 1)
  }

  /** And such a run does exist from every stopped session. */
  lemma {:induction false} Drains(s: Session) returns (events: seq<Event>)
    requires Inv(s) && !s.running
    ensures |events| <= Work(s) && (forall i :: 0 <= i < |events| ==> Internal(events[i]))
    ensures Work(RunAll(s, events)) == 0
    decreases Work(s)
  {
    NoWorkIsSettled(s);
    if Work(s) == 0 {
      events := [];
    } else {
      StoppedSessionSettles(s, Awaited(s));
      StepKeeps(s, Awaited(s));
      NoWorkIsSettled(Step(s, Awaited(s)));
      var rest := Drains(Step(s, Awaited(s)));
      events := [Awaited(s)] + rest;
      RunFirst(s, Awaited(s), rest);
    }
  }

  lemma {:induction false} RunFirst(s: Session, e: Event, rest: seq<Event>)
    requires Enabled(s, e)
    ensures RunAll(s, [e] + rest) == RunAll(Step(s, e), rest)
    decreases |rest|
  {
    if rest == [] {
      assert ([e] + rest)[..0] == [];
    } else {
      var n := |rest| - 1;
      RunFirst(s, e, rest[..n]);
      assert ([e] + rest)[..|[e] + rest| - 1] == [e] + rest[..n];
    }
  }

  // ----- Ownership across sessions -----

  datatype World = World(sessions: seq<Session>, owners: set<nat>, consumed: set<nat>)

  datatype Happening = Open(storage: nat) | Within(i: nat, e: Event)

  predicate CanHappen(w: World, h: Happening) {
    match h
    case Open(storage) => storage !in w.owners && storage !in w.consumed
    case Within(i, e) => i < |w.sessions| && Enabled(w.sessions[i], e)
  }

  /** A session that starts closing consumes its storage; one that is down no longer owns it. */
  function Happen(w: World, h: Happening): World
    requires CanHappen(w, h)
  {
    match h
    case Open(storage) => w.(sessions := w.sessions + [Opened(storage)], owners := w.owners + {storage})
    case Within(i, e) =>
      var s, t := w.sessions[i], Step(w.sessions[i], e);
      World(w.sessions[i := t],
            if s.stage != Down && t.stage == Down then w.owners - {s.storage} else w.owners,
            if !s.closing && t.closing then w.consumed + {s.storage} else w.consumed)
  }

  predicate WorldInv(w: World) {
    && (forall i :: 0 <= i < |w.sessions| ==>
          Inv(w.sessions[i])
          && (w.sessions[i].stage != Down ==> w.sessions[i].storage in w.owners)
          && (w.sessions[i].closing ==> w.sessions[i].storage in w.consumed))
    && (forall i, j :: 0 <= i < j < |w.sessions| && w.sessions[i].stage != Down && w.sessions[j].stage != Down ==>
          w.sessions[i].storage != w.sessions[j].storage)
  }

  lemma StepKeepsStorage(s: Session, e: Event)
    requires Inv(s) && Enabled(s, e)
    ensures Step(s, e).storage == s.storage && (s.stage == Down ==> Step(s, e).stage == Down)
            && (s.closing ==> Step(s, e).closing)
  {
  }

  lemma WorldKeeps(w: World, h: Happening)
    requires WorldInv(w) && CanHappen(w, h)
    ensures WorldInv(Happen(w, h)) && w.consumed <= Happen(w, h).consumed
    ensures |w.sessions| <= |Happen(w, h).sessions|
    ensures forall j :: |w.sessions| <= j < |Happen(w, h).sessions| ==> Happen(w, h).sessions[j].storage !in w.consumed
  {
    match h {
      case Open(storage) =>
      case Within(i, e) =>
        StepKeeps(w.sessions[i], e);
        StepKeepsStorage(w.sessions[i], e);
    }
  }

  function History(w: World, happenings: seq<Happening>): World
    decreases |happenings|
  {
    if happenings == [] then w
    else
      var n := |happenings| - 1;
      var v := History(w, happenings[..n]);
      if CanHappen(v, happenings[n]) then Happen(v, happenings[n]) else v
  }

  /** Over every history of any number of sessions on any storages: a storage has at most one
      session that is not down, in particular at most one running; and a storage consumed by a
      failed or aborted session is never owned by a new session again. */
  lemma {:induction false} OwnershipIsExclusive(w: World, happenings: seq<Happening>)
    requires WorldInv(w)
    ensures var v := History(w, happenings);
            && WorldInv(v) && w.consumed <= v.consumed && |w.sessions| <= |v.sessions|
            && (forall j :: |w.sessions| <= j < |v.sessions| ==> v.sessions[j].storage !in w.consumed)
    decreases |happenings|
  {
    if happenings != [] {
      var n := |happenings| - 1;
      OwnershipIsExclusive(w, happenings[..n]);
      var v := History(w, happenings[..n]);
      if CanHappen(v, happenings[n]) {
        WorldKeeps(v, happenings[n]);
        SameStorages(w, v, happenings[n]);
      }
    }
  }

  lemma SameStorages(w: World, v: World, h: Happening)
    requires WorldInv(v) && CanHappen(v, h) && w.consumed <= v.consumed && |w.sessions| <= |v.sessions|
    requires forall j :: |w.sessions| <= j < |v.sessions| ==> v.sessions[j].storage !in w.consumed
    ensures forall j :: |w.sessions| <= j < |Happen(v, h).sessions| ==> Happen(v, h).sessions[j].storage !in w.consumed
  {
    if h.Within? {
      StepKeepsStorage(v.sessions[h.i], h.e);
    }
  }

  // ----- No close while any operation on the storage is under way -----

  /** A session that finished left no operation unsettled. */
  predicate FinishedQuietly(s: Session) {
    s.stage == Down && !s.closing ==> !s.unsettled
  }

  /** The worker replies to `finish` only between requests, when no operation of its session is
      under way: the mailbox guarantees it. */
  predicate QuietEvent(s: Session, e: Event) {
    e.Reply? && e.kind == Finished && e.id in s.calls ==> !s.unsettled
  }

  lemma QuietStep(s: Session, e: Event)
    requires Inv(s) && FinishedQuietly(s) && Enabled(s, e) && QuietEvent(s, e)
    ensures FinishedQuietly(Step(s, e))
  {
    StepKeepsStorage(s, e);
  }

  predicate QuietHistory(w: World, happenings: seq<Happening>)
    decreases |happenings|
  {
    happenings == []
    || (var n := |happenings| - 1;
        var v, h := History(w, happenings[..n]), happenings[n];
        QuietHistory(w, happenings[..n])
        && (h.Within? && h.i < |v.sessions| ==> QuietEvent(v.sessions[h.i], h.e)))
  }

  /** Sessions one after the other on one storage: the earlier ones left it unconsumed and quiet. */
  predicate InTurn(w: World) {
    && (forall i :: 0 <= i < |w.sessions| ==> FinishedQuietly(w.sessions[i]))
    && (forall i, j :: 0 <= i < |w.sessions| && 0 <= j < |w.sessions| && i != j ==>
           GivesWay(w.sessions[i], w.sessions[j]))
  }

  predicate GivesWay(s: Session, t: Session) {
    s.storage == t.storage && t.closing ==> s.stage == Down
  }

  lemma TurnsKeep(w: World, h: Happening)
    requires WorldInv(w) && InTurn(w) && CanHappen(w, h) && (h.Within? ==> QuietEvent(w.sessions[h.i], h.e))
    ensures InTurn(Happen(w, h))
  {
    if h.Within? {
      StepKeepsStorage(w.sessions[h.i], h.e);
      QuietStep(w.sessions[h.i], h.e);
    }
  }

  lemma {:induction false} TurnsAlways(w: World, happenings: seq<Happening>)
    requires WorldInv(w) && InTurn(w) && QuietHistory(w, happenings)
    ensures WorldInv(History(w, happenings)) && InTurn(History(w, happenings))
    decreases |happenings|
  {
    if happenings != [] {
      var n := |happenings| - 1;
      TurnsAlways(w, happenings[..n]);
      var v := History(w, happenings[..n]);
      if CanHappen(v, happenings[n]) {
        WorldKeeps(v, happenings[n]);
        TurnsKeep(v, happenings[n]);
      }
    }
  }

  /** Over every history of any number of sessions in which `finish` is replied to between requests:
      while a session is not down, no operation of any other session on its storage is unsettled; so
      when it issues the final close, none of any session is. */
  lemma StorageClosesLast(w: World, happenings: seq<Happening>, i: nat, j: nat, e: Event)
    requires WorldInv(w) && InTurn(w) && QuietHistory(w, happenings)
    requires var v := History(w, happenings);
             i < |v.sessions| && j < |v.sessions| && v.sessions[i].storage == v.sessions[j].storage
             && v.sessions[i].stage != Down
    ensures var v := History(w, happenings);
            && (i != j ==> v.sessions[j].stage == Down && !v.sessions[j].unsettled)
            && (Enabled(v.sessions[i], e) && |Step(v.sessions[i], e).closes| > |v.sessions[i].closes| ==>
                  !Happen(v, Within(i, e)).sessions[j].unsettled)
  {
    TurnsAlways(w, happenings);
    var v := History(w, happenings);
    if Enabled(v.sessions[i], e) && |Step(v.sessions[i], e).closes| > |v.sessions[i].closes| {
      CloseIsLast(v.sessions[i], e);
    }
  }

  lemma CloseIsLast(s: Session, e: Event)
    requires Inv(s) && Enabled(s, e) && |Step(s, e).closes| > |s.closes|
    ensures !Step(s, e).unsettled
  {
    StepKeeps(s, e);
  }
}

/** The session in its own form: the variables its handlers share, updated handler by handler. */
module LifecycleObjects {
  import opened Bytes
  import opened Lifecycle

  class Broker {
    const storage: nat
    var running: bool
    var finished: bool
    var consumed: bool
    var ioBusy: bool
    var active: Active
    var stage: Stage
    var promises: seq<Promise>
    var queue: nat
    var nextCall: nat
    var calls: map<nat, nat>
    var finishing: Option<nat>
    var closes: seq<bool>
    var posted: seq<Post>
    var settles: seq<nat>

    function S(): Session
      reads this
    {
      Session(storage, running, finished, consumed, ioBusy, active, stage, closes, promises, queue,
              nextCall, calls, posted, finishing, settles)
    }

    constructor (storage: nat)
      ensures S() == Opened(storage)
    {
      this.storage, running, finished, consumed := storage, true, false, false;
      ioBusy, active, stage := false, Nothing, Up;
      promises, queue, nextCall, calls, finishing := [Settled(true)], 0, 0, map[], None;
      closes, posted, settles := [], [], [];
    }

    method IssueClose()
      modifies this
      ensures S() == Lifecycle.IssueClose(old(S()))
    {
      closes := closes + [ioBusy];
      stage := Closing;
    }

    /** `shutdown`, up to its first await. */
    method Shutdown(closeStorage: bool)
      modifies this
      ensures S() == Lifecycle.Shutdown(old(S()), closeStorage)
    {
      if stage != Up {
        return;
      }
      running := false;
      consumed := closeStorage;
      if !closeStorage {
        stage := Down;
      } else if active == Nothing {
        IssueClose();
      } else {
        stage := Aborting(active);
      }
    }

    /** `io`, from the message to its first await. */
    method Io(valid: bool, acceptable: bool)
      modifies this
      ensures S() == Lifecycle.Io(old(S()), valid, acceptable)
    {
      if ioBusy || !valid {
        Shutdown(true);
        active := OnTeardown;
      } else if !acceptable {
        Shutdown(true);
        active := Nothing;
      } else {
        ioBusy := true;
        active := InFlight;
      }
    }

    /** The rest of `io`, once the storage operation has settled. */
    method IoSettled(good: bool)
      modifies this
      ensures S() == Step(old(S()).(unsettled := true), StorageSettles(good))
    {
      ioBusy := false;
      if !good {
        Shutdown(true);
      }
      if active == InFlight {
        active := Nothing;
      }
    }

    method SettlePromise(k: nat, fulfilled: bool)
      modifies this
      ensures S() == Lifecycle.Settle(old(S()), k, fulfilled)
    {
      if k < |promises| {
        promises := promises[k := Settled(fulfilled)];
      }
      settles := settles + [k];
    }

    method RejectAll()
      modifies this
      ensures S() == Lifecycle.RejectAll(old(S()))
    {
      for id := 1 to nextCall + 1
        invariant S() == old(S()).(promises := promises, settles := settles)
        invariant RejectFrom(S(), id) == RejectFrom(old(S()), 1)
      {
        if id in calls {
          SettlePromise(calls[id], false);
        }
      }
      stage := Down;
      calls := map[];
    }

    method OnReply(id: nat, kind: ReplyKind)
      modifies this
      ensures S() == Lifecycle.OnReply(old(S()), id, kind)
    {
      if id !in calls {
        return;
      }
      if kind == Retired {
        Shutdown(true);
        return;
      }
      var k := calls[id];
      calls := calls - {id};
      if kind == Finished {
        finished := true;
        Shutdown(false);
        finishing := Some(k);
      } else {
        SettlePromise(k, kind == Good);
      }
    }

    /** `call`: a promise chained on the queue. */
    method Call()
      modifies this
      ensures S() == Accept(old(S()))
    {
      if running && !finished {
        promises, queue := promises + [Chained(queue)], |promises|;
      }
    }

    /** A chained call's turn. */
    method RunTask(k: nat)
      requires k < |promises|
      modifies this
      ensures S() == Lifecycle.RunTask(old(S()), k)
    {
      if !running || finished {
        SettlePromise(k, false);
      } else {
        nextCall := nextCall + 1;
        calls := calls[nextCall := k];
        promises := promises[k := Adopted(nextCall)];
        posted := posted + [Post(nextCall, k)];
      }
    }

    /** One event: a message, a settlement, a deadline, a call or a queued task. */
    method Handle(e: Event)
      requires Enabled(S(), e)
      modifies this
      ensures S() == Step(old(S()), e) && (Inv(old(S())) ==> Inv(S()))
    {
      if Inv(S()) {
        StepKeeps(S(), e);
      }
      match e {
        case IoMessage(valid, acceptable) => Io(valid, acceptable);
        case StorageSettles(good) => IoSettled(good);
        case Reply(id, kind) => OnReply(id, kind);
        case Trouble => Shutdown(true);
        case CallMade => Call();
        case TaskRuns(k) => RunTask(k);
        case AbortSettles(good) =>
          if good {
            stage := Settling(stage.captured);
          } else {
            RejectAll();
          }
        case PendingSettles => IssueClose();
        case PendingExpires => RejectAll();
        case CloseSettles(_) => RejectAll();
        case FinishResolves =>
          var k := finishing.value;
          finishing := None;
          SettlePromise(k, true);
      }
    }

    /** A whole life of a session, under any events at all. */
    method Live(events: seq<Event>)
      requires Inv(S())
      modifies this
      ensures S() == RunAll(old(S()), events) && Inv(S())
    {
      for i := 0 to |events|
        invariant S() == RunAll(old(S()), events[..i])
      {
        assert events[..i + 1][..i] == events[..i];
        if Enabled(S(), events[i]) {
          Handle(events[i]);
        }
      }
      assert events[..|events|] == events;
      RunKeeps(old(S()), events);
    }
  }
}
