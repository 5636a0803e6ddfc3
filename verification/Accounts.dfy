/** What becomes of sessions, their calls and their storages, read off the events that happened. */
module Accounts {
  import opened Bytes
  import opened Lifecycle

  // ----- What stops a session -----

  /** The events a running session does not survive: a message that comes too early, out of order or out of
      bounds, a failed storage operation, a retired or finished reply to the call under way, and every other
      trouble, abort included. */
  predicate Fatal(s: Session, e: Event) {
    match e
    case IoMessage(valid, acceptable) => s.unsettled || !valid || !acceptable
    case StorageSettles(good) => !good
    case Reply(id, kind) => id in s.calls && (kind == Retired || kind == Finished)
    case Trouble => true
    case _ => false
  }

  predicate Finishing(e: Event) {
    e.Reply? && e.kind == Finished
  }

  /** What ended the session's running, if anything did. */
  function Fate(s: Session, events: seq<Event>): Option<Event>
    decreases |events|
  {
    if events == [] then None
    else
      var n := |events| - 1;
      var t := RunAll(s, events[..n]);
      if Fate(s, events[..n]).Some? then Fate(s, events[..n])
      else if Enabled(t, events[n]) && Fatal(t, events[n]) then Some(events[n])
      else None
  }

  /** The session up to and after its end, as its fate says. */
  predicate AsFated(s: Session, fate: Option<Event>) {
    && (s.running <==> fate.None?)
    && (s.finished <==> fate.Some? && Finishing(fate.value))
    && (s.closing <==> fate.Some? && !Finishing(fate.value))
    && (s.finished ==> s.stage == Down && s.closes == [])
  }

  lemma FateStep(s: Session, fate: Option<Event>, e: Event)
    requires Inv(s) && AsFated(s, fate) && Enabled(s, e)
    ensures AsFated(Step(s, e), if fate.Some? then fate else if Fatal(s, e) then Some(e) else None)
  {
    match e {
      case AbortSettles(_) => RejectAllKeeps(s);
      case PendingExpires => RejectAllKeeps(s);
      case CloseSettles(_) => RejectAllKeeps(s);
      case _ =>
    }
  }

  /** In every run a session is running until the first fatal event and never after. If that was the reply to
      `finish`, it is down at once, without closing the storage; otherwise it is closing it. */
  lemma {:induction false} FateDecides(storage: nat, events: seq<Event>)
    ensures Inv(RunAll(Opened(storage), events))
    ensures AsFated(RunAll(Opened(storage), events), Fate(Opened(storage), events))
    decreases |events|
  {
    RunKeeps(Opened(storage), events);
    if events != [] {
      var n := |events| - 1;
      FateDecides(storage, events[..n]);
      var t := RunAll(Opened(storage), events[..n]);
      if Enabled(t, events[n]) {
        FateStep(t, Fate(Opened(storage), events[..n]), events[n]);
      } else {
        assert Fate(Opened(storage), events) == Fate(Opened(storage), events[..n]);
      }
    }
  }

  // ----- The final close -----

  /** One of these events gave up on the teardown: the pending abort failed, or the operation did not settle in
      time. */
  predicate GaveUp(events: seq<Event>) {
    exists i :: 0 <= i < |events| && (events[i] == AbortSettles(false) || events[i] == PendingExpires)
  }

  predicate Closed(s: Session, events: seq<Event>) {
    && (s.stage.Closing? ==> |s.closes| == 1)
    && (s.stage == Down && s.closing ==> |s.closes| == 1 || GaveUp(events))
  }

  lemma ClosedStep(s: Session, events: seq<Event>, e: Event)
    requires Inv(s) && Closed(s, events) && Enabled(s, e)
    ensures Closed(Step(s, e), events + [e])
  {
    assert (events + [e])[|events|] == e;
    if GaveUp(events) {
      var i :| 0 <= i < |events| && (events[i] == AbortSettles(false) || events[i] == PendingExpires);
      assert (events + [e])[i] == events[i];
    }
    ClosesStep(s, e);
  }

  /** A close is issued on the way into closing, and only there; a stopped session comes down from closing, or
      by giving up, or by finishing. */
  lemma ClosesStep(s: Session, e: Event)
    requires Inv(s) && Enabled(s, e)
    ensures var t := Step(s, e);
            && (t.stage.Closing? ==> if s.stage.Closing? then t.closes == s.closes else |t.closes| == |s.closes| + 1)
            && (t.stage == Down && s.stage != Down ==>
                  t.closes == s.closes && (s.stage.Closing? || e == AbortSettles(false) || e == PendingExpires
                                           || !t.closing))
            && (t.stage == Down && s.stage == Down ==> t.closes == s.closes && t.closing == s.closing)
  {
    match e {
      case AbortSettles(_) => RejectAllKeeps(s);
      case PendingExpires => RejectAllKeeps(s);
      case CloseSettles(_) => RejectAllKeeps(s);
      case _ =>
    }
  }

  lemma {:induction false} ClosedAlways(storage: nat, events: seq<Event>)
    ensures Inv(RunAll(Opened(storage), events)) && Closed(RunAll(Opened(storage), events), events)
    decreases |events|
  {
    RunKeeps(Opened(storage), events);
    if events != [] {
      var n := |events| - 1;
      ClosedAlways(storage, events[..n]);
      assert events == events[..n] + [events[n]];
      var t := RunAll(Opened(storage), events[..n]);
      if Enabled(t, events[n]) {
        ClosedStep(t, events[..n], events[n]);
      } else {
        MoreEvents(t, events[..n], events[n]);
      }
    }
  }

  lemma MoreEvents(s: Session, events: seq<Event>, e: Event)
    requires Closed(s, events)
    ensures Closed(s, events + [e])
  {
    if GaveUp(events) {
      var i :| 0 <= i < |events| && (events[i] == AbortSettles(false) || events[i] == PendingExpires);
      assert (events + [e])[i] == events[i];
    }
  }

  /** A failed or aborted session that has come down has issued its final close, unless its pending abort
      failed or its operation did not settle in time; a finished one never issues it. */
  lemma FailureCloses(storage: nat, events: seq<Event>)
    ensures var s, f := RunAll(Opened(storage), events), Fate(Opened(storage), events);
            && (s.stage == Down && f.Some? && !Finishing(f.value) ==> |s.closes| == 1 || GaveUp(events))
            && (f.Some? && Finishing(f.value) ==> s.stage == Down && s.closes == [])
  {
    FateDecides(storage, events);
    ClosedAlways(storage, events);
  }

  // ----- The ledger of calls -----

  /** A reply, good or bad, to the call under way. */
  predicate Answers(s: Session, e: Event) {
    e.Reply? && e.id in s.calls && (e.kind == Good || e.kind == Bad)
  }

  datatype Ledger = Ledger(calls: nat, turns: nat, answers: nat)

  /** How many calls were made, tasks had their turn, and replies answered the call under way. */
  function Count(s: Session, events: seq<Event>): Ledger
    decreases |events|
  {
    if events == [] then Ledger(0, 0, 0)
    else
      var n := |events| - 1;
      var t, c := RunAll(s, events[..n]), Count(s, events[..n]);
      if Enabled(t, events[n]) then Entered(c, t, events[n]) else c
  }

  function Entered(c: Ledger, s: Session, e: Event): Ledger {
    Ledger(c.calls + if e.CallMade? then 1 else 0, c.turns + if e.TaskRuns? then 1 else 0,
           c.answers + if Answers(s, e) then 1 else 0)
  }

  /** As long as the session runs, what was accepted is what was called, what was posted is what had its turn,
      and what was settled is what was answered. */
  predicate Balanced(s: Session, c: Ledger) {
    s.running ==> |s.promises| == 1 + c.calls && |s.posted| == c.turns && |s.settles| == c.answers
  }

  lemma BalanceStep(s: Session, e: Event, c: Ledger)
    requires Inv(s) && Enabled(s, e) && Balanced(s, c)
    ensures Balanced(Step(s, e), Entered(c, s, e))
  {
    match e {
      case AbortSettles(_) => RejectAllKeeps(s);
      case PendingExpires => RejectAllKeeps(s);
      case CloseSettles(_) => RejectAllKeeps(s);
      case _ =>
    }
  }

  /** In every run, while the session runs: every call is accepted, every task that has its turn posts its call,
      every good or bad reply to the call under way settles it, and nothing else does any of that. */
  lemma {:induction false} EveryCallCounts(storage: nat, events: seq<Event>)
    ensures Balanced(RunAll(Opened(storage), events), Count(Opened(storage), events))
    decreases |events|
  {
    if events != [] {
      var n := |events| - 1;
      EveryCallCounts(storage, events[..n]);
      RunKeeps(Opened(storage), events[..n]);
      var t := RunAll(Opened(storage), events[..n]);
      if Enabled(t, events[n]) {
        BalanceStep(t, events[n], Count(Opened(storage), events[..n]));
      }
    }
  }

  /** Among these events is a reply of one of these kinds to this call. */
  predicate Replied(events: seq<Event>, id: nat, kind: ReplyKind) {
    exists i :: 0 <= i < |events| && events[i] == Reply(id, kind)
  }

  lemma RepliedMore(events: seq<Event>, e: Event, id: nat, kind: ReplyKind)
    ensures Replied(events, id, kind) || e == Reply(id, kind) ==> Replied(events + [e], id, kind)
  {
    if Replied(events, id, kind) {
      var i :| 0 <= i < |events| && events[i] == Reply(id, kind);
      assert (events + [e])[i] == events[i];
    }
    assert (events + [e])[|events|] == e;
  }

  /** Only its own reply fulfils a call: a good one, or the one that finished the session. */
  predicate Earned(s: Session, events: seq<Event>) {
    && (forall k :: 1 <= k < |s.promises| && s.promises[k] == Settled(true) ==>
          Replied(events, k, Good) || Replied(events, k, Finished))
    && (s.finishing.Some? ==> Replied(events, s.finishing.value, Finished))
  }

  /** What newly becomes fulfilled, or waits to be. */
  lemma EarningStep(s: Session, e: Event, k: nat)
    requires Inv(s) && Enabled(s, e) && 1 <= k < |Step(s, e).promises|
    ensures var t := Step(s, e);
            && (t.promises[k] == Settled(true) ==>
                  (k < |s.promises| && s.promises[k] == Settled(true)) || e == Reply(k, Good) || s.finishing == Some(k))
            && (t.finishing.Some? ==> t.finishing == s.finishing || e == Reply(t.finishing.value, Finished))
  {
    match e {
      case TaskRuns(j) => DueIsFirst(s, j);
      case AbortSettles(_) => RejectedOnly(s);
      case PendingExpires => RejectedOnly(s);
      case CloseSettles(_) => RejectedOnly(s);
      case _ =>
    }
  }

  lemma RejectedOnly(s: Session)
    requires Inv(s) && !s.running && s.stage != Down
    ensures var t := RejectAll(s);
            && t.finishing == s.finishing && |t.promises| == |s.promises|
            && forall k :: 0 <= k < |s.promises| && t.promises[k] == Settled(true) ==> s.promises[k] == Settled(true)
  {
    if Outstanding(s) {
      RejectOne(s, 1);
    } else {
      RejectNone(s, 1);
    }
  }

  lemma FinishingStep(s: Session, e: Event)
    requires Inv(s) && Enabled(s, e)
    ensures var t := Step(s, e);
            t.finishing.Some? ==> t.finishing == s.finishing || e == Reply(t.finishing.value, Finished)
  {
  }

  lemma EarnedStep(s: Session, events: seq<Event>, e: Event)
    requires Inv(s) && Earned(s, events) && Enabled(s, e)
    ensures Earned(Step(s, e), events + [e])
  {
    var t := Step(s, e);
    forall k | 1 <= k < |t.promises| && t.promises[k] == Settled(true)
      ensures Replied(events + [e], k, Good) || Replied(events + [e], k, Finished)
    {
      EarningStep(s, e, k);
      RepliedMore(events, e, k, Good);
      RepliedMore(events, e, k, Finished);
    }
    FinishingStep(s, e);
    if t.finishing.Some? {
      RepliedMore(events, e, t.finishing.value, Finished);
    }
  }

  /** In every run a call's promise is fulfilled only by a good or finishing reply to that very call. */
  lemma {:induction false} FulfilledIsEarned(storage: nat, events: seq<Event>)
    ensures Inv(RunAll(Opened(storage), events)) && Earned(RunAll(Opened(storage), events), events)
    decreases |events|
  {
    RunKeeps(Opened(storage), events);
    if events != [] {
      var n := |events| - 1;
      FulfilledIsEarned(storage, events[..n]);
      assert events == events[..n] + [events[n]];
      var t := RunAll(Opened(storage), events[..n]);
      if Enabled(t, events[n]) {
        EarnedStep(t, events[..n], events[n]);
      } else {
        EarnedMore(t, events[..n], events[n]);
      }
    }
  }

  lemma EarnedMore(s: Session, events: seq<Event>, e: Event)
    requires Earned(s, events)
    ensures Earned(s, events + [e])
  {
    forall k | 1 <= k < |s.promises| && s.promises[k] == Settled(true)
      ensures Replied(events + [e], k, Good) || Replied(events + [e], k, Finished)
    {
      RepliedMore(events, e, k, Good);
      RepliedMore(events, e, k, Finished);
    }
    if s.finishing.Some? {
      RepliedMore(events, e, s.finishing.value, Finished);
    }
  }

  /** And a good reply to the call under way does fulfil it, a bad one rejects it. */
  lemma RepliesSettle(s: Session, k: nat, kind: ReplyKind)
    requires Inv(s) && s.running && k in s.calls && (kind == Good || kind == Bad)
    ensures var t := Step(s, Reply(k, kind));
            k < |t.promises| && t.promises[k] == Settled(kind == Good) && k !in t.calls && t.running
  {
  }

  // ----- Storages -----

  const NOWHERE: World := World([], {}, {})

  /** The storages of the sessions, in the order they were opened. */
  function StorageOf(happenings: seq<Happening>, i: nat): nat
    requires i < |History(NOWHERE, happenings).sessions|
  {
    History(NOWHERE, happenings).sessions[i].storage
  }

  /** The events of the `i`-th session. */
  function EventsOf(happenings: seq<Happening>, i: nat): seq<Event>
    decreases |happenings|
  {
    if happenings == [] then []
    else
      var n := |happenings| - 1;
      var h := happenings[n];
      EventsOf(happenings[..n], i)
      + if h.Within? && h.i == i && CanHappen(History(NOWHERE, happenings[..n]), h) then [h.e] else []
  }

  lemma HistoryGrows(happenings: seq<Happening>)
    requires happenings != []
    ensures |History(NOWHERE, happenings[..|happenings| - 1]).sessions| <= |History(NOWHERE, happenings).sessions|
  {
  }

  lemma {:induction false} NotYet(happenings: seq<Happening>, i: nat)
    requires i >= |History(NOWHERE, happenings).sessions|
    ensures EventsOf(happenings, i) == []
    decreases |happenings|
  {
    if happenings != [] {
      var n := |happenings| - 1;
      var v := History(NOWHERE, happenings[..n]);
      HistoryGrows(happenings);
      NotYet(happenings[..n], i);
    }
  }

  lemma HappensTo(v: World, h: Happening, i: nat)
    requires CanHappen(v, h) && i < |v.sessions|
    ensures var w := Happen(v, h);
            && i < |w.sessions|
            && w.sessions[i] == if h.Within? && h.i == i then Step(v.sessions[i], h.e) else v.sessions[i]
  {
  }

  lemma EventsStep(happenings: seq<Happening>, i: nat)
    requires happenings != []
    ensures var n := |happenings| - 1;
            var h := happenings[n];
            EventsOf(happenings, i)
            == if h.Within? && h.i == i && CanHappen(History(NOWHERE, happenings[..n]), h)
               then EventsOf(happenings[..n], i) + [h.e] else EventsOf(happenings[..n], i)
  {
  }

  /** What one more happening does to the `i`-th session and to the list of its events. */
  lemma SessionStep(happenings: seq<Happening>, i: nat)
    requires happenings != []
    requires i < |History(NOWHERE, happenings[..|happenings| - 1]).sessions|
    ensures var n := |happenings| - 1;
            var v, h := History(NOWHERE, happenings[..n]), happenings[n];
            var w := History(NOWHERE, happenings);
            && i < |w.sessions|
            && if h.Within? && h.i == i && CanHappen(v, h) then
                 w.sessions[i] == Step(v.sessions[i], h.e)
                   && EventsOf(happenings, i) == EventsOf(happenings[..n], i) + [h.e]
               else w.sessions[i] == v.sessions[i] && EventsOf(happenings, i) == EventsOf(happenings[..n], i)
  {
    var n := |happenings| - 1;
    var v, h := History(NOWHERE, happenings[..n]), happenings[n];
    EventsStep(happenings, i);
    if CanHappen(v, h) {
      HappensTo(v, h, i);
      assert History(NOWHERE, happenings) == Happen(v, h);
    }
  }

  lemma NewSession(v: World, h: Happening, i: nat)
    requires CanHappen(v, h) && |v.sessions| <= i < |Happen(v, h).sessions|
    ensures h.Open? && i == |v.sessions| && Happen(v, h).sessions[i] == Opened(h.storage)
  {
  }

  lemma SessionStart(happenings: seq<Happening>, i: nat)
    requires happenings != []
    requires |History(NOWHERE, happenings[..|happenings| - 1]).sessions| <= i < |History(NOWHERE, happenings).sessions|
    ensures var s := History(NOWHERE, happenings).sessions[i]; s == Opened(s.storage) && EventsOf(happenings, i) == []
  {
    var n := |happenings| - 1;
    NotYet(happenings[..n], i);
    NewSession(History(NOWHERE, happenings[..n]), happenings[n], i);
  }

  /** Every session of a history is the run of its own events. */
  lemma {:induction false} SessionsAreRuns(happenings: seq<Happening>, i: nat)
    requires i < |History(NOWHERE, happenings).sessions|
    ensures History(NOWHERE, happenings).sessions[i]
            == RunAll(Opened(StorageOf(happenings, i)), EventsOf(happenings, i))
    decreases |happenings|
  {
    if happenings != [] {
      var n := |happenings| - 1;
      var v, h := History(NOWHERE, happenings[..n]), happenings[n];
      if i < |v.sessions| {
        SessionsAreRuns(happenings[..n], i);
        SessionStep(happenings, i);
        if h.Within? && h.i == i && CanHappen(v, h) {
          StepStorage(v.sessions[i], h.e);
          RunMore(Opened(StorageOf(happenings[..n], i)), EventsOf(happenings[..n], i), h.e);
        }
      } else {
        SessionStart(happenings, i);
      }
    }
  }

  lemma RunMore(s: Session, events: seq<Event>, e: Event)
    requires Enabled(RunAll(s, events), e)
    ensures RunAll(s, events + [e]) == Step(RunAll(s, events), e)
  {
    assert (events + [e])[..|events|] == events;
  }

  lemma CallStorage(s: Session, e: Event)
    requires Enabled(s, e) && (e.Reply? || e.CallMade? || e.TaskRuns? || e.FinishResolves?)
    ensures Step(s, e).storage == s.storage
  {
  }

  lemma StepStorage(s: Session, e: Event)
    requires Enabled(s, e)
    ensures Step(s, e).storage == s.storage
  {
    if e.Reply? || e.CallMade? || e.TaskRuns? || e.FinishResolves? {
      CallStorage(s, e);
    }
  }

  /** Ownership and consumption are exactly what the sessions make of it. */
  ghost predicate Exact(w: World) {
    && (forall x :: x in w.owners <==> exists i :: 0 <= i < |w.sessions| && Holds(w.sessions[i], x))
    && (forall x :: x in w.consumed <==> exists i :: 0 <= i < |w.sessions| && Spends(w.sessions[i], x))
  }

  predicate Holds(s: Session, x: nat) {
    s.storage == x && s.stage != Down
  }

  predicate Spends(s: Session, x: nat) {
    s.storage == x && s.closing
  }

  lemma ExactOpen(w: World, storage: nat)
    requires Exact(w) && CanHappen(w, Open(storage))
    ensures Exact(Happen(w, Open(storage)))
  {
    var v := Happen(w, Open(storage));
    var n := |w.sessions|;
    assert Holds(v.sessions[n], storage);
    forall x
      ensures x in v.owners <==> exists i :: 0 <= i < |v.sessions| && Holds(v.sessions[i], x)
      ensures x in v.consumed <==> exists i :: 0 <= i < |v.sessions| && Spends(v.sessions[i], x)
    {
      assert forall i :: 0 <= i < n ==> v.sessions[i] == w.sessions[i];
      if i :| 0 <= i < n && Holds(w.sessions[i], x) {
        assert Holds(v.sessions[i], x);
      }
      if i :| 0 <= i < n && Spends(w.sessions[i], x) {
        assert Spends(v.sessions[i], x);
      }
    }
  }

  /** The world with one session moved on. */
  function Replaced(w: World, i: nat, t: Session): World
    requires i < |w.sessions|
  {
    var s := w.sessions[i];
    World(w.sessions[i := t],
          if s.stage != Down && t.stage == Down then w.owners - {s.storage} else w.owners,
          if !s.closing && t.closing then w.consumed + {s.storage} else w.consumed)
  }

  lemma ExactWithin(w: World, i: nat, e: Event)
    requires Exact(w) && WorldInv(w) && CanHappen(w, Within(i, e))
    ensures Exact(Happen(w, Within(i, e)))
  {
    var t := Step(w.sessions[i], e);
    StepKeepsStorage(w.sessions[i], e);
    assert Happen(w, Within(i, e)) == Replaced(w, i, t);
    forall x
      ensures x in Replaced(w, i, t).owners <==>
                exists j :: 0 <= j < |w.sessions| && Holds(Replaced(w, i, t).sessions[j], x)
      ensures x in Replaced(w, i, t).consumed <==>
                exists j :: 0 <= j < |w.sessions| && Spends(Replaced(w, i, t).sessions[j], x)
    {
      ExactOwner(w, i, t, x);
      ExactSpent(w, i, t, x);
    }
  }

  /** No two sessions that are not down hold the same storage. */
  predicate Distinct(w: World) {
    forall i, j :: 0 <= i < j < |w.sessions| && w.sessions[i].stage != Down && w.sessions[j].stage != Down ==>
      w.sessions[i].storage != w.sessions[j].storage
  }

  lemma ExactOwner(w: World, i: nat, t: Session, x: nat)
    requires Exact(w) && Distinct(w) && i < |w.sessions|
    requires t.storage == w.sessions[i].storage && (w.sessions[i].stage == Down ==> t.stage == Down)
    ensures var v := Replaced(w, i, t);
            x in v.owners <==> exists j :: 0 <= j < |v.sessions| && Holds(v.sessions[j], x)
  {
    var v := Replaced(w, i, t);
    if j :| 0 <= j < |v.sessions| && Holds(v.sessions[j], x) {
      assert j != i ==> v.sessions[j] == w.sessions[j];
      assert Holds(w.sessions[j], x);
    }
    if x in v.owners {
      var j :| 0 <= j < |w.sessions| && Holds(w.sessions[j], x);
      assert Holds(v.sessions[j], x);
    }
  }

  lemma ExactSpent(w: World, i: nat, t: Session, x: nat)
    requires Exact(w) && i < |w.sessions|
    requires t.storage == w.sessions[i].storage && (w.sessions[i].closing ==> t.closing)
    ensures var v := Replaced(w, i, t);
            x in v.consumed <==> exists j :: 0 <= j < |v.sessions| && Spends(v.sessions[j], x)
  {
    var v := Replaced(w, i, t);
    if j :| 0 <= j < |v.sessions| && Spends(v.sessions[j], x) {
      if j != i {
        assert Spends(w.sessions[j], x);
      }
    }
    if x in w.consumed {
      var j :| 0 <= j < |w.sessions| && Spends(w.sessions[j], x);
      assert Spends(v.sessions[j], x);
    } else if x in v.consumed {
      assert Spends(v.sessions[i], x);
    }
  }

  lemma {:induction false} ExactAlways(happenings: seq<Happening>)
    ensures WorldInv(History(NOWHERE, happenings)) && Exact(History(NOWHERE, happenings))
    decreases |happenings|
  {
    if happenings != [] {
      var n := |happenings| - 1;
      ExactAlways(happenings[..n]);
      var v := History(NOWHERE, happenings[..n]);
      if CanHappen(v, happenings[n]) {
        WorldKeeps(v, happenings[n]);
        match happenings[n] {
          case Open(storage) => ExactOpen(v, storage);
          case Within(i, e) => ExactWithin(v, i, e);
        }
      }
    }
  }

  /** What the `i`-th session has come to. */
  function FateOf(happenings: seq<Happening>, i: nat): Option<Event>
    requires i < |History(NOWHERE, happenings).sessions|
  {
    Fate(Opened(StorageOf(happenings, i)), EventsOf(happenings, i))
  }

  /** In every history a storage is consumed if and only if some session on it was failed or aborted, and owned
      if and only if some session on it is not down. */
  lemma StoragesAreAsUsed(happenings: seq<Happening>, x: nat)
    ensures var v := History(NOWHERE, happenings);
            && (x in v.owners <==>
                  exists i :: 0 <= i < |v.sessions| && StorageOf(happenings, i) == x && v.sessions[i].stage != Down)
            && (x in v.consumed <==>
                  exists i :: 0 <= i < |v.sessions| && StorageOf(happenings, i) == x && Failed(FateOf(happenings, i)))
  {
    var v := History(NOWHERE, happenings);
    ExactAlways(happenings);
    forall i | 0 <= i < |v.sessions|
      ensures Spends(v.sessions[i], x) <==> StorageOf(happenings, i) == x && Failed(FateOf(happenings, i))
      ensures Holds(v.sessions[i], x) <==> StorageOf(happenings, i) == x && v.sessions[i].stage != Down
    {
      SessionsAreRuns(happenings, i);
      FateDecides(StorageOf(happenings, i), EventsOf(happenings, i));
    }
  }

  predicate Failed(fate: Option<Event>) {
    fate.Some? && !Finishing(fate.value)
  }

  /** So a storage can be opened if and only if every session there was on it has finished. */
  lemma FinishFreesStorage(happenings: seq<Happening>, x: nat)
    ensures var v := History(NOWHERE, happenings);
            CanHappen(v, Open(x)) <==>
              forall i :: 0 <= i < |v.sessions| && StorageOf(happenings, i) == x ==>
                FateOf(happenings, i).Some? && Finishing(FateOf(happenings, i).value)
  {
    var v := History(NOWHERE, happenings);
    StoragesAreAsUsed(happenings, x);
    forall i | 0 <= i < |v.sessions|
      ensures FateOf(happenings, i).None? ==> v.sessions[i].stage != Down
      ensures FateOf(happenings, i).Some? && Finishing(FateOf(happenings, i).value) ==> v.sessions[i].stage == Down
    {
      SessionsAreRuns(happenings, i);
      FateDecides(StorageOf(happenings, i), EventsOf(happenings, i));
    }
  }
}
