/** Runs that do happen: the undisturbed request, and the two races on the state word. */
module MailboxRuns {
  import opened Bytes
  import opened Mailbox
  import opened MailboxProofs

  predicate Leads(s: Sys, run: seq<Action>, t: Sys) {
    Legal(s, run) && Run(s, run) == t
  }

  lemma LastOf(t: Sys, b: seq<Action>, x: Action)
    requires Legal(t, b + [x])
    ensures Legal(t, b) && Enabled(Run(t, b), x)
  {
    assert (b + [x])[..|b|] == b && (b + [x])[|b|] == x;
  }

  /** Two runs that have led to the same state go on alike. */
  lemma RunAlike(s: Sys, a: seq<Action>, t: Sys, b: seq<Action>, x: Action)
    requires Legal(s, a) && Legal(t, b) && Run(s, a) == Run(t, b) && Enabled(Run(t, b), x)
    ensures Legal(s, a + [x]) && Legal(t, b + [x]) && Run(s, a + [x]) == Run(t, b + [x])
  {
    RunOne(s, a, x);
    RunOne(t, b, x);
  }

  lemma {:induction false} RunOn(s: Sys, first: seq<Action>, next: seq<Action>)
    requires Legal(s, first) && Legal(Run(s, first), next)
    ensures Legal(s, first + next) && Run(s, first + next) == Run(Run(s, first), next)
    decreases |next|
  {
    if next == [] {
      assert first + next == first;
    } else {
      var b, x := next[..|next| - 1], next[|next| - 1];
      assert next == b + [x];
      LastOf(Run(s, first), b, x);
      RunOn(s, first, b);
      RunAlike(s, first + b, Run(s, first), b, x);
      assert first + b + [x] == first + next;
    }
  }

  lemma Chain(s: Sys, first: seq<Action>, t: Sys, next: seq<Action>, u: Sys)
    requires Leads(s, first, t) && Leads(t, next, u)
    ensures Leads(s, first + next, u)
  {
    RunOn(s, first, next);
  }

  lemma Once(s: Sys, a: Action)
    requires Enabled(s, a)
    ensures Leads(s, [a], Step(s, a))
  {
    RunOne(s, [], a);
    assert [] + [a] == [a];
  }

  lemma Twice(s: Sys, a: Action, b: Action)
    requires Enabled(s, a) && Enabled(Step(s, a), b)
    ensures Leads(s, [a] + [b], Step(Step(s, a), b))
  {
    Once(s, a);
    Once(Step(s, a), b);
    Chain(s, [a], Step(s, a), [b], Step(Step(s, a), b));
  }

  /** What `request` asks of its arguments. */
  predicate Askable(s: Sys, r: Req) {
    Proper(r) && 0 <= r.offset && r.length <= |s.buf| && r.offset + r.length <= s.capacity
  }

  /** The worker is between requests and the session is up. */
  predicate Calm(s: Sys) {
    s.w.pc == Idle && !s.w.poisoned && s.inbox == [] && s.b == Broker(Listening, s.w.sequence + 1, true, None)
  }

  /** Whenever the worker is idle and nothing has stopped the session, it is calm. */
  lemma IdleIsCalm(s: Sys)
    requires Inv(s) && s.w.pc == Idle && s.b.running
    ensures Calm(s)
  {
  }

  function Posted(s: Sys, r: Req): Sys
    requires Askable(s, r)
  {
    var n := s.w.sequence + 1;
    s.(w := Worker(Sleep, n, false, r), buf := if r.kind == Write then Patch(s.buf, 0, r.payload) else s.buf,
       state := 0, sequence := ToInt32(n), length := 0, inbox := [Msg(r.kind, r.offset, r.length, n)])
  }

  /** Between requests the worker begins, stores the three words, posts and goes to sleep. */
  lemma PostRun(s: Sys, r: Req) returns (run: seq<Action>)
    requires s.w.pc == Idle && !s.w.poisoned && s.inbox == [] && Askable(s, r)
    ensures Leads(s, run, Posted(s, r))
  {
    var t := BeginStep(s, r);
    var u := t.(w := t.w.(pc := StoreReset), sequence := ToInt32(t.w.sequence), length := 0);
    var v := Posted(s, r).(w := Posted(s, r).w.(pc := Load));
    Once(s, W(Begin(r)));
    Twice(t, W(Proceed), W(Proceed));
    Twice(u, W(Proceed), W(Proceed));
    Once(v, W(Proceed));
    run := [W(Begin(r))];
    Chain(s, run, t, [W(Proceed)] + [W(Proceed)], u);
    run := run + ([W(Proceed)] + [W(Proceed)]);
    Chain(s, run, u, [W(Proceed)] + [W(Proceed)], v);
    run := run + ([W(Proceed)] + [W(Proceed)]);
    Chain(s, run, v, [W(Proceed)], Posted(s, r));
    run := run + [W(Proceed)];
  }

  function Dispatched(s: Sys, r: Req): Sys
    requires Askable(s, r)
  {
    var p := Posted(s, r);
    p.(inbox := [], b := Broker(Listening, s.w.sequence + 2, true, Some(p.inbox[0])),
       ops := s.ops + [Op(r.kind, r.offset, r.length, r.payload, s.w.sequence + 1)])
  }

  /** What the broker asks of a request: the shared word can still hold the sequence number, and
      the access mode allows it. */
  predicate Admissible(s: Sys, r: Req) {
    Askable(s, r) && s.w.sequence + 1 < 0x8000_0000 && (r.kind == Write ==> s.writable)
    && (r.kind == Sync ==> r.length == 0 && r.offset == 0)
  }

  lemma MatchRun(p: Sys, m: Msg)
    requires p.inbox == [m] && p.b == Broker(Listening, m.sequence, true, None) && p.sequence == m.sequence
             && p.state == 0
    ensures Leads(p, [B(Receive)] + [B(Continue)],
                  p.(inbox := [], b := Broker(MatchState(m), m.sequence + 1, true, None)))
  {
    Twice(p, B(Receive), B(Continue));
  }

  lemma StartRun(p: Sys, m: Msg, n: nat)
    requires p.b == Broker(MatchState(m), n, true, None) && p.state == 0 && Acceptable(p, m)
    ensures var data := if m.kind == Write then p.buf[..m.length] else [];
            Leads(p, [B(Continue)] + [B(Continue)],
                  p.(b := Broker(Listening, n, true, Some(m)),
                     ops := p.ops + [Op(m.kind, m.offset, m.length, data, m.sequence)]))
  {
    Twice(p, B(Continue), B(Continue));
  }

  /** The broker takes the message and starts the storage operation. */
  lemma DispatchRun(s: Sys, r: Req) returns (run: seq<Action>)
    requires Calm(s) && Admissible(s, r)
    ensures Leads(Posted(s, r), run, Dispatched(s, r))
  {
    var p := Posted(s, r);
    if r.kind == Write {
      PatchedPrefix(s.buf, r.payload);
    }
    var t := p.(inbox := [], b := Broker(MatchState(p.inbox[0]), s.w.sequence + 2, true, None));
    MatchRun(p, p.inbox[0]);
    StartRun(t, p.inbox[0], s.w.sequence + 2);
    run := [B(Receive)] + [B(Continue)];
    Chain(p, run, t, [B(Continue)] + [B(Continue)], Dispatched(s, r));
    run := run + ([B(Continue)] + [B(Continue)]);
  }

  /** A storage operation of this kind may settle with these bytes. */
  predicate Answers(r: Req, bytes: seq<byte>) {
    r.kind == Read ==> |bytes| == r.length
  }

  function Completed(s: Sys, r: Req, bytes: seq<byte>): Sys
    requires Askable(s, r) && Answers(r, bytes)
  {
    var d := Dispatched(s, r);
    d.(b := Broker(Publish(d.b.active.value), s.w.sequence + 2, true, None), settled := s.settled + [Settled(bytes)],
       buf := if r.kind == Read then Patch(s.buf, 0, bytes) else d.buf, length := r.length)
  }

  /** A write or sync that settles goes straight to the final checks. */
  lemma DoneRun(d: Sys, m: Msg, bytes: seq<byte>, n: nat)
    requires d.b == Broker(Listening, n, true, Some(m)) && m.kind != Read
    ensures Leads(d, [B(Settle(Settled(bytes)))],
                  d.(settled := d.settled + [Settled(bytes)], b := Broker(FinalSequence(m), n, true, None)))
  {
    Once(d, B(Settle(Settled(bytes))));
  }

  lemma LateRun(d: Sys, m: Msg, bytes: seq<byte>, n: nat)
    requires d.b == Broker(Listening, n, true, Some(m)) && m.kind == Read && |bytes| == m.length
    requires d.sequence == m.sequence
    ensures Leads(d, [B(Settle(Settled(bytes)))] + [B(Continue)],
                  d.(settled := d.settled + [Settled(bytes)], b := Broker(LateState(m, bytes), n, true, None)))
  {
    Twice(d, B(Settle(Settled(bytes))), B(Continue));
  }

  lemma FillRun(d: Sys, m: Msg, bytes: seq<byte>, n: nat)
    requires d.b == Broker(LateState(m, bytes), n, true, None) && d.state == 0 && |bytes| <= |d.buf|
    ensures Leads(d, [B(Continue)] + [B(Continue)],
                  d.(buf := Patch(d.buf, 0, bytes), b := Broker(FinalSequence(m), n, true, None)))
  {
    Twice(d, B(Continue), B(Continue));
  }

  lemma FinalRun(d: Sys, m: Msg, n: nat)
    requires d.b == Broker(FinalSequence(m), n, true, None) && d.state == 0 && d.sequence == m.sequence
    ensures Leads(d, [B(Continue)] + [B(Continue)] + [B(Continue)],
                  d.(length := m.length, b := Broker(Publish(m), n, true, None)))
  {
    var t := d.(b := Broker(PublishLength(m), n, true, None));
    Twice(d, B(Continue), B(Continue));
    Once(t, B(Continue));
    Chain(d, [B(Continue)] + [B(Continue)], t, [B(Continue)], Step(t, B(Continue)));
  }

  /** The storage read completes and the broker fills the buffer, one store short of publishing. */
  lemma CompleteRead(s: Sys, r: Req, bytes: seq<byte>) returns (run: seq<Action>)
    requires Calm(s) && Admissible(s, r) && r.kind == Read && |bytes| == r.length
    ensures Leads(Dispatched(s, r), run, Completed(s, r, bytes))
  {
    var d, c := Dispatched(s, r), Completed(s, r, bytes);
    var m, n := d.b.active.value, s.w.sequence + 2;
    var t := d.(settled := c.settled, b := Broker(LateState(m, bytes), n, true, None));
    var u := t.(buf := c.buf, b := Broker(FinalSequence(m), n, true, None));
    LateRun(d, m, bytes, n);
    FillRun(t, m, bytes, n);
    FinalRun(u, m, n);
    run := [B(Settle(Settled(bytes)))] + [B(Continue)];
    var fill, final := [B(Continue)] + [B(Continue)], [B(Continue)] + [B(Continue)] + [B(Continue)];
    Chain(d, run, t, fill, u);
    Chain(d, run + fill, u, final, c);
    run := run + fill + final;
  }

  /** The storage write or sync completes, one store short of publishing. */
  lemma CompleteOther(s: Sys, r: Req, bytes: seq<byte>) returns (run: seq<Action>)
    requires Calm(s) && Admissible(s, r) && r.kind != Read
    ensures Leads(Dispatched(s, r), run, Completed(s, r, bytes))
  {
    var d, c := Dispatched(s, r), Completed(s, r, bytes);
    var m, n := d.b.active.value, s.w.sequence + 2;
    var u := d.(settled := c.settled, b := Broker(FinalSequence(m), n, true, None));
    DoneRun(d, m, bytes, n);
    FinalRun(u, m, n);
    run := [B(Settle(Settled(bytes)))];
    var final := [B(Continue)] + [B(Continue)] + [B(Continue)];
    Chain(d, run, u, final, c);
    run := run + final;
  }

  /** All of the above: one store short of publishing. */
  lemma AlmostPublished(s: Sys, r: Req, bytes: seq<byte>) returns (run: seq<Action>)
    requires Calm(s) && Admissible(s, r) && Answers(r, bytes)
    ensures Leads(s, run, Completed(s, r, bytes))
  {
    var post := PostRun(s, r);
    var dispatch := DispatchRun(s, r);
    var complete: seq<Action>;
    if r.kind == Read {
      complete := CompleteRead(s, r, bytes);
    } else {
      complete := CompleteOther(s, r, bytes);
    }
    Chain(s, post, Posted(s, r), dispatch, Dispatched(s, r));
    Chain(s, post + dispatch, Dispatched(s, r), complete, Completed(s, r, bytes));
    run := post + dispatch + complete;
  }

  lemma StateRun(t: Sys)
    requires t.w.pc == Load && t.state == 1
    ensures Leads(t, [W(Proceed)] + [W(Proceed)], At(t, CheckSequence))
  {
    Twice(t, W(Proceed), W(Proceed));
  }

  lemma WordsRun(t: Sys)
    requires t.w.pc == CheckSequence && t.sequence == t.w.sequence && t.length == t.w.req.length
    ensures Leads(t, [W(Proceed)] + [W(Proceed)], if t.w.req.kind == Read then At(t, Copy) else Return(t, []))
  {
    Twice(t, W(Proceed), W(Proceed));
  }

  /** The worker finds its answer published and checks it. */
  lemma CheckRun(t: Sys)
    requires t.w.pc == Load && t.state == 1 && t.sequence == t.w.sequence && t.length == t.w.req.length
    ensures Leads(t, [W(Proceed)] + [W(Proceed)] + ([W(Proceed)] + [W(Proceed)]),
                  if t.w.req.kind == Read then At(t, Copy) else Return(t, []))
  {
    StateRun(t);
    WordsRun(At(t, CheckSequence));
    Chain(t, [W(Proceed)] + [W(Proceed)], At(t, CheckSequence), [W(Proceed)] + [W(Proceed)],
          if t.w.req.kind == Read then At(t, Copy) else Return(t, []));
  }

  lemma WakeRun(c: Sys)
    requires c.w.pc == Sleep && c.b.pc.Publish?
    ensures Leads(c, [B(Continue)] + [W(Wake)], At(Step(c, B(Continue)), Load))
  {
    Twice(c, B(Continue), W(Wake));
  }

  function Woken(c: Sys): Sys
    requires c.b.pc.Publish?
  {
    At(Step(c, B(Continue)), Load)
  }

  /** The worker wakes to the published result and checks it. */
  lemma WakeAndCheck(c: Sys) returns (run: seq<Action>)
    requires c.w.pc == Sleep && c.b.pc.Publish? && c.sequence == c.w.sequence && c.length == c.w.req.length
    ensures Leads(c, run, if c.w.req.kind == Read then At(Woken(c), Copy) else Return(Woken(c), []))
  {
    var check := [W(Proceed)] + [W(Proceed)] + ([W(Proceed)] + [W(Proceed)]);
    WakeRun(c);
    CheckRun(Woken(c));
    Chain(c, [B(Continue)] + [W(Wake)], Woken(c), check,
          if c.w.req.kind == Read then At(Woken(c), Copy) else Return(Woken(c), []));
    run := [B(Continue)] + [W(Wake)] + check;
  }

  /** It copies what was read. */
  lemma CopyRun(u: Sys, bytes: seq<byte>)
    requires u.w.pc == Copy && u.w.req.length == |bytes| <= |u.buf| && u.buf[..|bytes|] == bytes
    ensures Leads(u, [W(Proceed)], Return(u, bytes))
  {
    Once(u, W(Proceed));
  }

  /** The mailbox once the request has been served: as calm as before, with one more operation and return. */
  predicate Served(s: Sys, r: Req, bytes: seq<byte>, t: Sys)
    requires Askable(s, r)
  {
    && t.journal == s.journal + [Entry(r, if r.kind == Read then bytes else [], s.w.sequence + 1)]
    && t.settled == s.settled + [Settled(bytes)] && t.ops == Dispatched(s, r).ops && Calm(t)
    && |t.buf| == |s.buf| && t.w.req == r && t.w.sequence == s.w.sequence + 1
    && t.capacity == s.capacity && t.writable == s.writable
  }

  lemma ReadServed(s: Sys, r: Req, bytes: seq<byte>) returns (rest: seq<Action>)
    requires Calm(s) && Admissible(s, r) && Answers(r, bytes) && r.kind == Read
    ensures var t := Return(At(Woken(Completed(s, r, bytes)), Copy), bytes);
            Leads(Completed(s, r, bytes), rest, t) && Served(s, r, bytes, t)
  {
    var c := Completed(s, r, bytes);
    rest := WakeAndCheck(c);
    PatchedPrefix(s.buf, bytes);
    CopyRun(At(Woken(c), Copy), bytes);
    Chain(c, rest, At(Woken(c), Copy), [W(Proceed)], Return(At(Woken(c), Copy), bytes));
    rest := rest + [W(Proceed)];
  }

  lemma OtherServed(s: Sys, r: Req, bytes: seq<byte>) returns (rest: seq<Action>)
    requires Calm(s) && Admissible(s, r) && Answers(r, bytes) && r.kind != Read
    ensures var t := Return(Woken(Completed(s, r, bytes)), []);
            Leads(Completed(s, r, bytes), rest, t) && Served(s, r, bytes, t)
  {
    rest := WakeAndCheck(Completed(s, r, bytes));
  }

  /** An undisturbed request returns, a read with what storage read: for every calm state, every
      kind of request and every result. */
  lemma RequestCanReturn(s: Sys, r: Req, bytes: seq<byte>) returns (run: seq<Action>)
    requires Calm(s) && Admissible(s, r) && Answers(r, bytes)
    ensures Legal(s, run) && Served(s, r, bytes, Run(s, run))
  {
    run := AlmostPublished(s, r, bytes);
    var rest: seq<Action>;
    if r.kind == Read {
      rest := ReadServed(s, r, bytes);
    } else {
      rest := OtherServed(s, r, bytes);
    }
    RunOn(s, run, rest);
    run := run + rest;
  }

  /** The first race: the worker times out and stores its -1, and the broker, already past its last
      check, overwrites that with 1. The state word says success, and yet nothing is returned. */
  lemma TimeoutOverwritten(s: Sys, r: Req, bytes: seq<byte>) returns (run: seq<Action>)
    requires Calm(s) && Admissible(s, r) && Answers(r, bytes)
    ensures Legal(s, run)
    ensures var t := Run(s, run); t.state == 1 && t.sequence == t.w.sequence && t.length == r.length
                                  && t.w.poisoned && t.w.pc == Retired && t.journal == s.journal
  {
    run := AlmostPublished(s, r, bytes);
    var c := Completed(s, r, bytes);
    var t := Retire(c);
    var u := At(t, Retired).(state := -1);
    Once(c, W(Expire));
    Twice(t, W(Proceed), B(Continue));
    Chain(s, run, c, [W(Expire)], t);
    Chain(s, run + [W(Expire)], t, [W(Proceed)] + [B(Continue)], Step(u, B(Continue)));
    run := run + [W(Expire)] + ([W(Proceed)] + [B(Continue)]);
  }

  /** The second race: a shutdown between requests stores -1, and the worker's next request resets
      it to 0 and goes to sleep. Nobody will ever answer: the request can only be timed out. */
  lemma ShutdownReset(s: Sys, r: Req) returns (run: seq<Action>)
    requires Calm(s) && Askable(s, r)
    ensures Legal(s, run)
    ensures var t := Run(s, run); t.state == 0 && !t.b.running && t.w.pc == Sleep && t.journal == s.journal
  {
    var t := Step(s, B(Shutdown));
    Once(s, B(Shutdown));
    run := PostRun(t, r);
    Chain(s, [B(Shutdown)], t, run, Posted(t, r));
    run := [B(Shutdown)] + run;
  }

  /** A shutdown wakes the worker: asleep on a request, it next finds the session stopped and throws. */
  lemma StopWakesWorker(s: Sys) returns (run: seq<Action>)
    requires s.w.pc == Sleep && s.b.running && s.b.pc == Listening
    ensures run == [B(Shutdown)] + [W(Wake)] + ([W(Proceed)] + [W(Proceed)]) && Legal(s, run)
    ensures var t := Run(s, run);
            t.state == -1 && !t.b.running && t.w.pc == StoreRetired && t.w.poisoned && t.journal == s.journal
  {
    var t := Step(s, B(Shutdown));
    var u := At(t, Load);
    Twice(s, B(Shutdown), W(Wake));
    Twice(u, W(Proceed), W(Proceed));
    run := [B(Shutdown)] + [W(Wake)] + ([W(Proceed)] + [W(Proceed)]);
    Chain(s, [B(Shutdown)] + [W(Wake)], u, [W(Proceed)] + [W(Proceed)], Step(Step(u, W(Proceed)), W(Proceed)));
  }

  /** After a shutdown no request returns unless its result had been published before. */
  predicate Ended(s: Sys) {
    !s.b.running && !Completing(s.b.pc) && !Matching(s.b.pc) && s.state != 1
  }

  /** The worker has not seen an answer. */
  predicate Unanswered(s: Sys) {
    !(s.w.pc == CheckSequence || s.w.pc == CheckLength || s.w.pc == Copy)
  }

  lemma EndedWorker(s: Sys, a: WorkerAction)
    requires Ended(s) && WorkerEnabled(s, a) && Unanswered(s)
    ensures var t := WorkerStep(s, a); Ended(t) && t.journal == s.journal && Unanswered(t)
  {
  }

  lemma EndedBroker(s: Sys, a: BrokerAction)
    requires Inv(s) && Ended(s) && BrokerEnabled(s, a)
    ensures var t := BrokerStep(s, a); Ended(t) && t.journal == s.journal && t.w == s.w
  {
  }

  lemma EndedStep(s: Sys, a: Action)
    requires Inv(s) && Ended(s) && Enabled(s, a) && Unanswered(s)
    ensures var t := Step(s, a); Ended(t) && t.journal == s.journal && Unanswered(t)
  {
    match a {
      case W(x) => EndedWorker(s, x);
      case B(x) => EndedBroker(s, x);
    }
  }

  lemma {:induction false} NothingReturnsAfterShutdown(s: Sys, actions: seq<Action>)
    requires Inv(s) && Ended(s) && Unanswered(s) && Legal(s, actions)
    ensures var t := Run(s, actions); Ended(t) && t.journal == s.journal && Unanswered(t)
    decreases |actions|
  {
    if actions != [] {
      NothingReturnsAfterShutdown(s, actions[..|actions| - 1]);
      RunKeeps(s, actions[..|actions| - 1]);
      EndedStep(Run(s, actions[..|actions| - 1]), actions[|actions| - 1]);
    }
  }
}
