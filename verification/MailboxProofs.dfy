/** What every interleaving of the mailbox guarantees. */
module MailboxProofs {
  import opened Mailbox

  lemma StepKeeps(s: Sys, a: Action)
    requires Inv(s) && Enabled(s, a)
    ensures Inv(Step(s, a))
  {
    match a {
      case W(x) => WorkerKeeps(s, x);
      case B(x) => BrokerKeeps(s, x);
    }
  }

  lemma {:induction false} RunKeeps(s: Sys, actions: seq<Action>)
    requires Inv(s) && Legal(s, actions)
    ensures Inv(Run(s, actions))
    decreases |actions|
  {
    if actions != [] {
      RunKeeps(s, actions[..|actions| - 1]);
      StepKeeps(Run(s, actions[..|actions| - 1]), actions[|actions| - 1]);
    }
  }

  /** Over all interleavings of worker atomics, broker tasks, completions, timeouts and shutdowns:
      the n-th normal return of `request` was served by exactly one storage operation, the n-th,
      which completed, with the same kind, offset, length, data and sequence; a read holds exactly
      that operation's bytes; and at most one operation beyond the returned ones was ever started,
      none while the worker is idle and unpoisoned. */
  lemma ReturnsAreServed(capacity: nat, writable: bool, mailbox: nat, actions: seq<Action>)
    requires Legal(Initial(capacity, writable, mailbox), actions)
    ensures var s := Run(Initial(capacity, writable, mailbox), actions);
            && |s.journal| <= |s.settled| <= |s.ops| <= |s.journal| + 1
            && (forall i :: 0 <= i < |s.journal| ==> Matches(s.journal[i], s.ops[i], s.settled[i]))
            && (forall i, j ::
                  0 <= i < |s.journal| && 0 <= j < |s.ops| && s.ops[j].sequence == s.journal[i].sequence ==> i == j)
            && (s.w.pc == Idle ==> Resting(s, |s.journal|) && |s.settled| == |s.journal|)
  {
    InitialInv(capacity, writable, mailbox);
    RunKeeps(Initial(capacity, writable, mailbox), actions);
  }

  /** The broker fills the buffer only for the request the worker is asleep on, or for a worker
      that is poisoned; and it picks up a write's data before anyone can change it. */
  lemma BufferIsOwned(capacity: nat, writable: bool, mailbox: nat, actions: seq<Action>)
    requires Legal(Initial(capacity, writable, mailbox), actions)
    ensures var s := Run(Initial(capacity, writable, mailbox), actions);
            && (s.b.pc.Fill? && !s.w.poisoned ==> (s.w.pc == Load || s.w.pc == Sleep) && s.b.pc.m == Message(s.w))
            && (s.b.pc.Start? && !s.w.poisoned ==> s.b.pc.m == Message(s.w) && PayloadIn(s))
            && (s.w.pc == Copy ==> s.b.pc == Listening && s.inbox == [] && Published(s))
  {
    InitialInv(capacity, writable, mailbox);
    RunKeeps(Initial(capacity, writable, mailbox), actions);
  }

  lemma PoisonStep(s: Sys, a: Action)
    requires s.w.poisoned && (s.w.pc == StoreRetired || s.w.pc == Retired) && Enabled(s, a)
    ensures var t := Step(s, a);
            t.w.poisoned && t.journal == s.journal && t.w.sequence == s.w.sequence && |t.inbox| <= |s.inbox|
  {
  }

  /** A poisoned worker stays poisoned, posts nothing, returns nothing; the broker can start at
      most the one operation already posted, and no completion reaches any request. */
  lemma {:induction false} PoisonIsFinal(s: Sys, actions: seq<Action>)
    requires Inv(s) && s.w.poisoned && Legal(s, actions)
    ensures var t := Run(s, actions);
            t.w.poisoned && t.journal == s.journal && t.w.sequence == s.w.sequence
            && |t.inbox| <= |s.inbox| && |t.ops| <= |s.journal| + 1
    decreases |actions|
  {
    if actions != [] {
      PoisonIsFinal(s, actions[..|actions| - 1]);
      RunKeeps(s, actions[..|actions| - 1]);
      PoisonStep(Run(s, actions[..|actions| - 1]), actions[|actions| - 1]);
    }
    RunKeeps(s, actions);
  }

  // ----- The sequence word is 32 bits wide -----

  predicate Narrow(s: Sys) {
    |s.journal| < 0x8000_0000 && (s.w.pc == CheckLength || s.w.pc == Copy ==> s.w.sequence < 0x8000_0000)
  }

  /** Where the sequence word is compared with the worker's own number, it holds its low 32 bits. */
  lemma NarrowCheck(s: Sys)
    requires Inv(s) && s.w.pc == CheckSequence && s.sequence == s.w.sequence
    ensures s.w.sequence < 0x8000_0000
  {
    assert s.sequence == ToInt32(s.w.sequence);
  }

  lemma NarrowReturn(s: Sys)
    requires Inv(s) && (s.w.pc == CheckLength || s.w.pc == Copy)
    ensures s.w.sequence == |s.journal| + 1
  {
  }

  lemma NarrowStep(s: Sys, a: Action)
    requires Inv(s) && Narrow(s) && Enabled(s, a)
    ensures Narrow(Step(s, a))
  {
    if a == W(Proceed) && s.w.pc == CheckSequence && s.sequence == s.w.sequence {
      NarrowCheck(s);
    } else if a == W(Proceed) && (s.w.pc == CheckLength || s.w.pc == Copy) {
      NarrowReturn(s);
    } else {
      NarrowElse(s, a);
    }
  }

  lemma NarrowElse(s: Sys, a: Action)
    requires Narrow(s) && Enabled(s, a)
    requires a == W(Proceed) && s.w.pc == CheckSequence ==> s.sequence != s.w.sequence
    requires a == W(Proceed) ==> s.w.pc != CheckLength && s.w.pc != Copy
    ensures Narrow(Step(s, a))
  {
  }

  lemma {:induction false} NarrowAlways(s: Sys, actions: seq<Action>)
    requires Inv(s) && Narrow(s) && Legal(s, actions)
    ensures Narrow(Run(s, actions))
    decreases |actions|
  {
    if actions != [] {
      NarrowAlways(s, actions[..|actions| - 1]);
      RunKeeps(s, actions[..|actions| - 1]);
      NarrowStep(Run(s, actions[..|actions| - 1]), actions[|actions| - 1]);
    }
  }

  /** The sequence numbers outgrow the shared word at 2^31: from there on the mailbox fails closed
      and no request returns normally. */
  lemma NoReturnAfterWrap(capacity: nat, writable: bool, mailbox: nat, actions: seq<Action>)
    requires Legal(Initial(capacity, writable, mailbox), actions)
    ensures |Run(Initial(capacity, writable, mailbox), actions).journal| < 0x8000_0000
  {
    InitialInv(capacity, writable, mailbox);
    NarrowAlways(Initial(capacity, writable, mailbox), actions);
  }

  // ----- What the broker may start -----

  /** The terms a mailbox was set up under. */
  predicate SameTerms(s: Sys, t: Sys) {
    t.capacity == s.capacity && t.writable == s.writable && |t.buf| == |s.buf|
  }

  lemma StepKeepsTerms(s: Sys, a: Action)
    requires Enabled(s, a)
    ensures SameTerms(s, Step(s, a))
  {
  }

  lemma {:induction false} RunKeepsTerms(s: Sys, actions: seq<Action>)
    requires Legal(s, actions)
    ensures SameTerms(s, Run(s, actions))
    decreases |actions|
  {
    if actions != [] {
      RunKeepsTerms(s, actions[..|actions| - 1]);
      StepKeepsTerms(Run(s, actions[..|actions| - 1]), actions[|actions| - 1]);
    }
  }

  /** An operation that fits the mailbox and the storage, writes only where writing was granted, and
      synchronizes nothing but everything. */
  predicate Permitted(o: Op, capacity: nat, writable: bool, mailbox: nat) {
    && 0 <= o.offset && o.offset + o.length <= capacity && o.length <= mailbox
    && (o.kind == Write ==> writable) && (o.kind == Sync ==> o.offset == 0 && o.length == 0)
  }

  predicate AllPermitted(s: Sys) {
    forall i :: 0 <= i < |s.ops| ==> Permitted(s.ops[i], s.capacity, s.writable, |s.buf|)
  }

  lemma StepPermits(s: Sys, a: Action)
    requires AllPermitted(s) && Enabled(s, a)
    ensures AllPermitted(Step(s, a))
  {
    StepKeepsTerms(s, a);
    var t := Step(s, a);
    if t.ops != s.ops {
      StartPermits(s, a);
    }
  }

  lemma StartPermits(s: Sys, a: Action)
    requires AllPermitted(s) && Enabled(s, a) && Step(s, a).ops != s.ops
    ensures AllPermitted(Step(s, a))
  {
    assert a == B(Continue) && s.b.pc.Start?;
  }

  lemma {:induction false} RunPermits(s: Sys, actions: seq<Action>)
    requires AllPermitted(s) && Legal(s, actions)
    ensures AllPermitted(Run(s, actions))
    decreases |actions|
  {
    if actions != [] {
      RunPermits(s, actions[..|actions| - 1]);
      StepPermits(Run(s, actions[..|actions| - 1]), actions[|actions| - 1]);
    }
  }

  /** In every run, whatever a worker asks for: every operation the broker starts lies within the
      capacity and the mailbox, and in a read-only session none is a write. */
  lemma StartsArePermitted(capacity: nat, writable: bool, mailbox: nat, actions: seq<Action>)
    requires Legal(Initial(capacity, writable, mailbox), actions)
    ensures var s := Run(Initial(capacity, writable, mailbox), actions);
            forall i :: 0 <= i < |s.ops| ==>
              && 0 <= s.ops[i].offset && s.ops[i].offset + s.ops[i].length <= capacity && s.ops[i].length <= mailbox
              && (s.ops[i].kind == Write ==> writable)
              && (s.ops[i].kind == Sync ==> s.ops[i].offset == 0 && s.ops[i].length == 0)
  {
    RunPermits(Initial(capacity, writable, mailbox), actions);
    RunKeepsTerms(Initial(capacity, writable, mailbox), actions);
  }

  // ----- The state word -----

  /** For a live worker the state word says "no answer", "answered" or, in a stopped session only,
      "stopped". */
  predicate WordIsTrue(s: Sys) {
    s.w.poisoned || s.state == 0 || s.state == 1 || (s.state == -1 && !s.b.running)
  }

  lemma WorkerWord(s: Sys, a: WorkerAction)
    requires (s.w.pc == StoreRetired ==> s.w.poisoned) && WordIsTrue(s) && WorkerEnabled(s, a)
    ensures WordIsTrue(WorkerStep(s, a)) && WorkerStep(s, a).b == s.b
  {
  }

  lemma BrokerWord(s: Sys, a: BrokerAction)
    requires WordIsTrue(s) && BrokerEnabled(s, a)
    ensures WordIsTrue(BrokerStep(s, a)) && (BrokerStep(s, a).b.running ==> s.b.running)
  {
  }

  lemma WordStep(s: Sys, a: Action)
    requires Inv(s) && WordIsTrue(s) && Enabled(s, a)
    ensures WordIsTrue(Step(s, a)) && (Step(s, a).b.running ==> s.b.running)
  {
    match a {
      case W(x) => WorkerWord(s, x);
      case B(x) => BrokerWord(s, x);
    }
  }

  lemma {:induction false} RunKeepsWord(s: Sys, actions: seq<Action>)
    requires Inv(s) && WordIsTrue(s) && Legal(s, actions)
    ensures WordIsTrue(Run(s, actions)) && (Run(s, actions).b.running ==> s.b.running)
    decreases |actions|
  {
    if actions != [] {
      RunKeepsWord(s, actions[..|actions| - 1]);
      RunKeeps(s, actions[..|actions| - 1]);
      WordStep(Run(s, actions[..|actions| - 1]), actions[|actions| - 1]);
    }
  }

  /** A retired worker has left its mark, and nothing takes the state word back to "no answer". */
  predicate Marked(s: Sys) {
    s.w.pc == Retired ==> s.state != 0
  }

  lemma MarkStep(s: Sys, a: Action)
    requires Marked(s) && Enabled(s, a)
    ensures Marked(Step(s, a)) && (s.w.pc == StoreRetired && a == W(Proceed) ==> Step(s, a).state == -1)
  {
    match a {
      case W(x) => WorkerMarks(s, x);
      case B(x) => BrokerLeavesMark(s, x);
    }
  }

  lemma WorkerMarks(s: Sys, a: WorkerAction)
    requires Marked(s) && WorkerEnabled(s, a)
    ensures Marked(WorkerStep(s, a)) && (s.w.pc == StoreRetired && a == WorkerAction.Proceed ==>
              WorkerStep(s, a).state == -1)
  {
  }

  lemma BrokerLeavesMark(s: Sys, a: BrokerAction)
    requires Marked(s) && BrokerEnabled(s, a)
    ensures Marked(BrokerStep(s, a))
  {
  }

  lemma {:induction false} RunKeepsMark(s: Sys, actions: seq<Action>)
    requires Marked(s) && Legal(s, actions)
    ensures Marked(Run(s, actions))
    decreases |actions|
  {
    if actions != [] {
      RunKeepsMark(s, actions[..|actions| - 1]);
      MarkStep(Run(s, actions[..|actions| - 1]), actions[|actions| - 1]);
    }
  }

  /** In every run, once the worker has retired, every later look of the broker at the state word stops the
      session: no operation starts, no buffer is filled and nothing is published any more but by a broker that
      was already past its last look. */
  lemma RetirementIsSeen(capacity: nat, writable: bool, mailbox: nat, actions: seq<Action>)
    requires Legal(Initial(capacity, writable, mailbox), actions)
    ensures var s := Run(Initial(capacity, writable, mailbox), actions);
            s.w.pc == Retired ==>
              s.state != 0
              && (s.b.pc.MatchState? || s.b.pc.LateState? || s.b.pc.FinalState? ==>
                     BrokerStep(s, Continue).b.pc == Failing)
  {
    RunKeepsMark(Initial(capacity, writable, mailbox), actions);
  }

  // ----- The broker does not stop a healthy session -----

  /** A live worker in a running session, whose sequence the shared word can hold. */
  predicate Live(s: Sys) {
    !s.w.poisoned && s.b.running && s.w.sequence < 0x8000_0000
  }

  lemma LiveReceives(s: Sys)
    requires Inv(s) && Live(s) && BrokerEnabled(s, Receive)
    ensures BrokerStep(s, Receive).b.pc == MatchSequence(Message(s.w)) && s.inbox[0] == Message(s.w)
  {
  }

  /** For a live worker none of the broker's checks of the shared words ever fails. */
  lemma LiveMatches(s: Sys)
    requires Inv(s) && Live(s) && Matching(s.b.pc)
    ensures s.b.pc.m == Message(s.w)
    ensures var t := BrokerStep(s, Continue);
            match s.b.pc
            case MatchSequence(m) => t.b.pc == MatchState(m)
            case MatchState(m) => t.b.pc == Start(m)
            case Start(m) => Acceptable(s, m) ==>
                t.b.active.Some? && t.b.active.value == m && t.b.pc == Listening && t.b.running
            case _ => true
  {
  }

  lemma LiveCompletes(s: Sys)
    requires Inv(s) && Live(s) && Completing(s.b.pc)
    ensures var t := BrokerStep(s, Continue);
            match s.b.pc
            case LateSequence(m, bytes) => t.b.pc == LateState(m, bytes)
            case LateState(m, bytes) => t.b.pc == Fill(m, bytes)
            case Fill(m, bytes) => t.b.pc == FinalSequence(m)
            case FinalSequence(m) => t.b.pc == FinalState(m)
            case FinalState(m) => t.b.pc == PublishLength(m)
            case PublishLength(m) => t.b.pc == Publish(m)
            case _ => t.b.pc == Listening && t.state == 1 && t.b.running
  {
  }

  /** A check of the broker that finds another sequence number, or the state word no longer 0, leads to
      nothing but stopping the session: no operation starts, nothing is filled, nothing is published. */
  lemma FailedCheckStops(s: Sys, m: Msg)
    requires s.b.pc == MatchSequence(m) || s.b.pc == FinalSequence(m) || (s.b.pc.LateSequence? && s.b.pc.m == m)
             || s.b.pc == MatchState(m) || s.b.pc == FinalState(m) || (s.b.pc.LateState? && s.b.pc.m == m)
    requires s.b.pc.MatchSequence? || s.b.pc.FinalSequence? || s.b.pc.LateSequence? ==> s.sequence != m.sequence
    requires s.b.pc.MatchState? || s.b.pc.FinalState? || s.b.pc.LateState? ==> s.state != 0
    ensures var t := BrokerStep(s, Continue);
            t == s.(b := s.b.(pc := Failing))
            && BrokerStep(t, Continue) == s.(state := if s.b.running then -1 else s.state,
                                             b := s.b.(pc := Listening, running := false))
  {
  }
}
