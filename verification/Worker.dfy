/** How transfers longer than the mailbox are cut into requests. */
module Chunking {
  import opened Bytes
  import opened Mailbox
  import opened RangeSpec

  /** The request that comes after `at` bytes. */
  function NextPiece(kind: Kind, offset: int, length: nat, data: seq<byte>, mailbox: nat, at: nat): Req
    requires (if kind == Write then |data| == length else data == []) && at < length
  {
    var n := Min(length - at, mailbox);
    Req(kind, offset + at, n, if kind == Write then data[at..at + n] else [])
  }

  /** What is left of a write's data after `n` bytes. */
  function Rest(kind: Kind, data: seq<byte>, n: nat): seq<byte>
    requires kind == Write ==> n <= |data|
  {
    if kind == Write then data[n..] else []
  }

  /** The requests for `length` bytes at `offset`; `data` is what a write stores. */
  function Pieces(kind: Kind, offset: int, length: nat, data: seq<byte>, mailbox: nat): seq<Req>
    requires mailbox > 0 && (if kind == Write then |data| == length else data == [])
    decreases length
  {
    if length == 0 then []
    else
      var n := Min(length, mailbox);
      [NextPiece(kind, offset, length, data, mailbox, 0)]
      + Pieces(kind, offset + n, length - n, Rest(kind, data, n), mailbox)
  }

  /** These requests tile the bytes from `from` to `to`: in order, without gap or overlap, none
      empty, all of the mailbox's size except perhaps the last. */
  predicate Tiles(p: seq<Req>, kind: Kind, from: int, to: int, mailbox: nat) {
    if p == [] then from == to
    else
      && p[0].kind == kind && p[0].offset == from && 0 < p[0].length <= mailbox && Proper(p[0])
      && (|p| > 1 ==> p[0].length == mailbox)
      && Tiles(p[1..], kind, from + p[0].length, to, mailbox)
  }

  /** The data they store, in order. */
  function Carried(p: seq<Req>): seq<byte> {
    if p == [] then [] else p[0].payload + Carried(p[1..])
  }

  lemma {:induction false} PiecesCount(kind: Kind, offset: int, length: nat, data: seq<byte>, mailbox: nat)
    requires mailbox > 0 && (if kind == Write then |data| == length else data == [])
    ensures |Pieces(kind, offset, length, data, mailbox)| == CeilDiv(length, mailbox)
    decreases length
  {
    if length == 0 {
      CeilZero(mailbox);
    } else {
      var n := Min(length, mailbox);
      PiecesCount(kind, offset + n, length - n, Rest(kind, data, n), mailbox);
      CeilStep(length, mailbox);
    }
  }

  lemma TileStep(r: Req, q: seq<Req>, kind: Kind, from: int, mid: int, to: int, mailbox: nat)
    requires Tiles(q, kind, mid, to, mailbox) && r.kind == kind && r.offset == from && mid == from + r.length
             && Proper(r)
    requires 0 < r.length <= mailbox && (q != [] ==> r.length == mailbox)
    ensures Tiles([r] + q, kind, from, to, mailbox)
  {
    assert ([r] + q)[1..] == q;
  }

  lemma {:induction false} PiecesTile(kind: Kind, offset: int, length: nat, data: seq<byte>, mailbox: nat)
    requires mailbox > 0 && (if kind == Write then |data| == length else data == [])
    ensures Tiles(Pieces(kind, offset, length, data, mailbox), kind, offset, offset + length, mailbox)
    decreases length
  {
    if length > 0 {
      var n := Min(length, mailbox);
      var q := Pieces(kind, offset + n, length - n, Rest(kind, data, n), mailbox);
      PiecesTile(kind, offset + n, length - n, Rest(kind, data, n), mailbox);
      TileStep(NextPiece(kind, offset, length, data, mailbox, 0), q, kind, offset, offset + n, offset + length,
               mailbox);
    }
  }

  lemma CarriedStep(r: Req, q: seq<Req>)
    ensures Carried([r] + q) == r.payload + Carried(q)
  {
    assert ([r] + q)[1..] == q;
  }

  lemma RestJoins(kind: Kind, data: seq<byte>, n: nat)
    requires if kind == Write then n <= |data| else data == []
    ensures (if kind == Write then data[0..n] else []) + Rest(kind, data, n) == data
  {
  }

  lemma {:induction false} PiecesCarry(kind: Kind, offset: int, length: nat, data: seq<byte>, mailbox: nat)
    requires mailbox > 0 && (if kind == Write then |data| == length else data == [])
    ensures Carried(Pieces(kind, offset, length, data, mailbox)) == data
    decreases length
  {
    if length > 0 {
      var n := Min(length, mailbox);
      PiecesCarry(kind, offset + n, length - n, Rest(kind, data, n), mailbox);
      CarriedStep(NextPiece(kind, offset, length, data, mailbox, 0),
                  Pieces(kind, offset + n, length - n, Rest(kind, data, n), mailbox));
      RestJoins(kind, data, n);
    }
  }

  /** The pieces tile the transfer, are as few as can be, and carry exactly its data. */
  lemma PiecesPartition(kind: Kind, offset: int, length: nat, data: seq<byte>, mailbox: nat)
    requires mailbox > 0 && (if kind == Write then |data| == length else data == [])
    ensures var p := Pieces(kind, offset, length, data, mailbox);
            |p| == CeilDiv(length, mailbox) && Tiles(p, kind, offset, offset + length, mailbox) && Carried(p) == data
  {
    PiecesCount(kind, offset, length, data, mailbox);
    PiecesTile(kind, offset, length, data, mailbox);
    PiecesCarry(kind, offset, length, data, mailbox);
  }

  /** The `k`-th request starts where the one before it ended. */
  predicate ListedAt(p: seq<Req>, k: nat, kind: Kind, offset: int, length: nat, data: seq<byte>, mailbox: nat)
    requires (if kind == Write then |data| == length else data == []) && k < |p|
  {
    var at := p[k].offset - offset;
    && 0 <= at < length && p[k] == NextPiece(kind, offset, length, data, mailbox, at)
    && (if k + 1 < |p| then p[k + 1].offset - offset else length) == at + p[k].length
  }

  /** A listing of the requests by position, as the loop needs it. */
  predicate Listed(p: seq<Req>, kind: Kind, offset: int, length: nat, data: seq<byte>, mailbox: nat)
    requires if kind == Write then |data| == length else data == []
  {
    && (if p == [] then length == 0 else p[0].offset == offset)
    && forall k :: 0 <= k < |p| ==> ListedAt(p, k, kind, offset, length, data, mailbox)
  }

  /** How many bytes precede the `k`-th request. */
  function Begun(p: seq<Req>, k: nat, offset: int, length: nat): int
    requires k <= |p|
  {
    if k < |p| then p[k].offset - offset else length
  }

  lemma PieceAt(p: seq<Req>, k: nat, kind: Kind, offset: int, length: nat, data: seq<byte>, mailbox: nat)
    requires (if kind == Write then |data| == length else data == []) && Listed(p, kind, offset, length, data, mailbox)
             && k < |p|
    ensures 0 <= Begun(p, k, offset, length) < length
            && p[k] == NextPiece(kind, offset, length, data, mailbox, Begun(p, k, offset, length))
    ensures Proper(p[k]) && (mailbox > 0 ==> p[k].length > 0)
            && Begun(p, k + 1, offset, length) == Begun(p, k, offset, length) + p[k].length <= length
  {
    assert ListedAt(p, k, kind, offset, length, data, mailbox);
  }

  lemma ListedStart(p: seq<Req>, kind: Kind, offset: int, length: nat, data: seq<byte>, mailbox: nat)
    requires (if kind == Write then |data| == length else data == []) && Listed(p, kind, offset, length, data, mailbox)
    ensures Begun(p, 0, offset, length) == 0 && (p == [] <==> length == 0)
  {
    assert p != [] ==> ListedAt(p, 0, kind, offset, length, data, mailbox);
  }

  lemma ListedEnd(p: seq<Req>, k: nat, kind: Kind, offset: int, length: nat, data: seq<byte>, mailbox: nat)
    requires (if kind == Write then |data| == length else data == []) && Listed(p, kind, offset, length, data, mailbox)
    requires k <= |p|
    ensures Begun(p, k, offset, length) < length <==> k < |p|
  {
    if k < |p| {
      assert ListedAt(p, k, kind, offset, length, data, mailbox);
    }
  }

  lemma {:induction false} PiecesListed(kind: Kind, offset: int, length: nat, data: seq<byte>, mailbox: nat)
    requires mailbox > 0 && (if kind == Write then |data| == length else data == [])
    ensures Listed(Pieces(kind, offset, length, data, mailbox), kind, offset, length, data, mailbox)
    decreases length
  {
    if length > 0 {
      var n := Min(length, mailbox);
      var rest := Rest(kind, data, n);
      PiecesListed(kind, offset + n, length - n, rest, mailbox);
      ListedStep(Pieces(kind, offset + n, length - n, rest, mailbox), kind, offset, length, data, mailbox);
    }
  }

  lemma PayloadShift(data: seq<byte>, n: nat, at: nat, k: nat)
    requires n + at + k <= |data|
    ensures data[n..][at..at + k] == data[n + at..n + at + k]
  {
  }

  /** Seen from `n` bytes earlier, a request is the same. */
  lemma PieceShift(kind: Kind, offset: int, length: nat, data: seq<byte>, mailbox: nat, n: nat, at: nat)
    requires (if kind == Write then |data| == length else data == []) && n <= length && at < length - n
    ensures NextPiece(kind, offset + n, length - n, Rest(kind, data, n), mailbox, at)
            == NextPiece(kind, offset, length, data, mailbox, n + at)
  {
    if kind == Write {
      PayloadShift(data, n, at, Min(length - n - at, mailbox));
    }
  }

  lemma ListedLater(q: seq<Req>, k: nat, kind: Kind, offset: int, length: nat, data: seq<byte>, mailbox: nat, n: nat)
    requires (if kind == Write then |data| == length else data == []) && n <= length && k < |q|
    requires ListedAt(q, k, kind, offset + n, length - n, Rest(kind, data, n), mailbox)
    ensures 0 <= q[k].offset - offset < length
            && q[k] == NextPiece(kind, offset, length, data, mailbox, q[k].offset - offset)
    ensures (if k + 1 < |q| then q[k + 1].offset - offset else length) == q[k].offset - offset + q[k].length
  {
    PieceShift(kind, offset, length, data, mailbox, n, q[k].offset - offset - n);
  }

  lemma ListedFirst(q: seq<Req>, kind: Kind, offset: int, length: nat, data: seq<byte>, mailbox: nat)
    requires mailbox > 0 && length > 0 && (if kind == Write then |data| == length else data == [])
    requires var n := Min(length, mailbox); if q == [] then length == n else q[0].offset == offset + n
    ensures ListedAt([NextPiece(kind, offset, length, data, mailbox, 0)] + q, 0, kind, offset, length, data, mailbox)
  {
  }

  lemma ListedShifted(r: Req, q: seq<Req>, k: nat, kind: Kind, offset: int, length: nat, data: seq<byte>, mailbox: nat,
                      n: nat)
    requires (if kind == Write then |data| == length else data == []) && n <= length && k < |q|
    requires ListedAt(q, k, kind, offset + n, length - n, Rest(kind, data, n), mailbox)
    ensures ListedAt([r] + q, k + 1, kind, offset, length, data, mailbox)
  {
    var p := [r] + q;
    ListedLater(q, k, kind, offset, length, data, mailbox, n);
    assert p[k + 1] == q[k] && (k + 2 < |p| ==> p[k + 2] == q[k + 1]);
  }

  lemma ListedStep(q: seq<Req>, kind: Kind, offset: int, length: nat, data: seq<byte>, mailbox: nat)
    requires mailbox > 0 && length > 0 && (if kind == Write then |data| == length else data == [])
    requires var n := Min(length, mailbox); Listed(q, kind, offset + n, length - n, Rest(kind, data, n), mailbox)
    ensures Listed([NextPiece(kind, offset, length, data, mailbox, 0)] + q, kind, offset, length, data, mailbox)
  {
    var n := Min(length, mailbox);
    var p := [NextPiece(kind, offset, length, data, mailbox, 0)] + q;
    forall k | 0 <= k < |p|
      ensures ListedAt(p, k, kind, offset, length, data, mailbox)
    {
      if k == 0 {
        ListedFirst(q, kind, offset, length, data, mailbox);
      } else {
        ListedShifted(p[0], q, k - 1, kind, offset, length, data, mailbox, n);
      }
    }
  }

  lemma CeilZero(m: nat)
    requires m > 0
    ensures CeilDiv(0, m) == 0
  {
  }

  lemma CeilStep(length: nat, m: nat)
    requires length > 0 && m > 0
    ensures CeilDiv(length, m) == 1 + CeilDiv(length - Min(length, m), m)
  {
    var n := Min(length, m);
    CeilBounds(length, m);
    if n < length {
      CeilBounds(length - n, m);
      var a, b := CeilDiv(length, m), CeilDiv(length - n, m);
      assert (b + 1) * m == b * m + m && (a - 1) * m == a * m - m;
      Scale(a, b, m);
      Scale(b + 1, a - 1, m);
    } else {
      CeilZero(m);
      Scale(2, CeilDiv(length, m), m);
    }
  }

  /** What the requests of some journal entries were. */
  function Requests(entries: seq<Entry>): (r: seq<Req>)
    ensures |r| == |entries| && forall i :: 0 <= i < |r| ==> r[i] == entries[i].req
  {
    if entries == [] then [] else Requests(entries[..|entries| - 1]) + [entries[|entries| - 1].req]
  }

  /** The bytes they read, in order. */
  function Gathered(entries: seq<Entry>): seq<byte> {
    if entries == [] then [] else Gathered(entries[..|entries| - 1]) + entries[|entries| - 1].data
  }

  /** The first `k` requests have returned, in order, having read `got`. */
  predicate Partial(pieces: seq<Req>, before: seq<Entry>, now: seq<Entry>, got: seq<byte>, k: nat) {
    && before <= now && |now| == |before| + k && k <= |pieces|
    && Requests(now[|before|..]) == pieces[..k] && got == Gathered(now[|before|..])
  }

  lemma PartialStart(pieces: seq<Req>, now: seq<Entry>)
    ensures Partial(pieces, now, now, [], 0)
  {
  }

  lemma PartialStep(pieces: seq<Req>, before: seq<Entry>, now: seq<Entry>, got: seq<byte>, k: nat, e: Entry)
    requires Partial(pieces, before, now, got, k) && k < |pieces| && e.req == pieces[k]
    ensures Partial(pieces, before, now + [e], got + e.data, k + 1)
  {
    var next := (now + [e])[|before|..];
    assert next == now[|before|..] + [e];
    assert next[..|next| - 1] == now[|before|..];
  }

  /** The journal gained the requests in order: all of them, with the bytes read, or, after a throw,
      the ones before the request that threw, which is the last the worker made. */
  ghost predicate Transferred(pieces: seq<Req>, before: seq<Entry>, after: seq<Entry>, result: Option<seq<byte>>,
                              last: Req) {
    if result.Some? then Partial(pieces, before, after, result.value, |pieces|)
    else exists k: nat, got :: k < |pieces| && Partial(pieces, before, after, got, k) && last == pieces[k]
  }
}

/** The worker's side of the mailbox in its own form, against a broker that may do anything a
    broker task can do between any two of its atomic operations. */
module WorkerObjects {
  import opened Bytes
  import opened Mailbox
  import opened MailboxProofs
  import opened Chunking

  /** What the other context does before the worker's next step, and whether a wait expires there. */
  datatype Beat = Beat(steps: seq<BrokerAction>, expire: bool)

  lemma AdvancesStep(s: Sys)
    requires Inv(s) && WorkerEnabled(s, WorkerAction.Proceed)
    ensures var t := WorkerStep(s, WorkerAction.Proceed); Advances(s.w, s.journal, t.w, t.journal)
  {
  }

  /** In a running session, below the width of the shared word, the answer a live worker wakes to
      passes all three checks. */
  lemma ChecksPass(s: Sys)
    requires Inv(s) && WordIsTrue(s) && s.b.running && s.w.sequence < 0x8000_0000
    requires Checking(s.w.pc)
    ensures WorkerStep(s, WorkerAction.Proceed).w.pc != StoreRetired
  {
    if s.w.pc == CheckState {
      assert s.state != 0;
    } else {
      assert Published(s) && s.sequence == ToInt32(s.w.sequence);
    }
  }

  /** The broker steps of one beat that can be taken, in order. */
  function Played(s: Sys, steps: seq<BrokerAction>): (Sys, seq<Action>)
    decreases |steps|
  {
    if steps == [] then (s, [])
    else
      var n := |steps| - 1;
      var p := Played(s, steps[..n]);
      if BrokerEnabled(p.0, steps[n]) then (BrokerStep(p.0, steps[n]), p.1 + [B(steps[n])]) else p
  }

  /** A wait that ran out: at `k` the worker had just looked at the state word, seen 0 and gone to sleep; then
      came one beat of the broker, in which the wait expired. */
  ghost predicate Lapse(start: Sys, history: seq<Action>, k: nat, steps: seq<BrokerAction>) {
    && k <= |history| && Legal(start, history[..k])
    && var slept := Run(start, history[..k]);
       var n := k + |Played(slept, steps).1|;
       && slept.w.pc == Sleep && slept.state == 0 && n < |history|
       && history[k..n] == Played(slept, steps).1 && history[n] == W(Expire)
  }

  lemma LapseStays(start: Sys, history: seq<Action>, more: seq<Action>, k: nat, steps: seq<BrokerAction>)
    requires Lapse(start, history, k, steps) && history <= more
    ensures Lapse(start, more, k, steps)
  {
    var n := k + |Played(Run(start, history[..k]), steps).1|;
    assert more[..k] == history[..k] && more[k..n] == history[k..n] && more[n] == history[n];
  }

  /** Why a request threw. */
  datatype Why = AlreadyRetired | BadRange | Lapsed(k: nat, beat: Option<Beat>) | Stopped | Wrapped

  lemma BeginsWithin(s: Sys, r: Req)
    requires WorkerEnabled(s, Begin(r))
    ensures var t := WorkerStep(s, Begin(r));
            && t.journal == s.journal && t.w.req == r
            && if 0 <= r.offset && r.length <= |s.buf| && r.offset + r.length <= s.capacity then
                 t.w.pc == StoreSequence && !t.w.poisoned && t.w.sequence == s.w.sequence + 1
               else t.w.pc == StoreRetired && t.w.poisoned
  {
  }

  lemma SleepsOnZero(s: Sys)
    requires WorkerEnabled(s, WorkerAction.Proceed)
    ensures var t := WorkerStep(s, WorkerAction.Proceed); t.b == s.b && (t.w.pc == Sleep ==> t.state == 0)
  {
  }

  lemma BrokerLeavesWorker(s: Sys, a: BrokerAction)
    requires BrokerEnabled(s, a)
    ensures var t := BrokerStep(s, a);
            t.w == s.w && t.journal == s.journal
  {
  }

  lemma WorkerLeavesBroker(s: Sys, a: WorkerAction)
    requires WorkerEnabled(s, a)
    ensures SameBroker(s, WorkerStep(s, a))
  {
  }

  /** What the last store publishes to a live worker is the completed operation of its request. */
  lemma PublishingIsTrue(s: Sys)
    requires Inv(s) && s.b.pc.Publish?
    ensures var t := BrokerStep(s, BrokerAction.Continue); t.state == 1 && (t.w.poisoned || Published(t))
  {
  }

  class Context {
    const start: Sys
    var sys: Sys
    var beats: seq<Beat>
    ghost var history: seq<Action>

    /** What has happened so far is a run of the transition system. */
    ghost predicate Valid()
      reads this
    {
      start == Initial(start.capacity, start.writable, |start.buf|) && Legal(start, history)
      && Run(start, history) == sys
    }

    /** So the mailbox invariant holds, the state word is true, and the mailbox keeps its size. */
    lemma Sound()
      requires Valid()
      ensures Inv(sys) && WordIsTrue(sys) && |sys.buf| == |start.buf| && sys.capacity == start.capacity
    {
      InitialInv(start.capacity, start.writable, |start.buf|);
      RunKeeps(start, history);
      RunKeepsTerms(start, history);
      RunKeepsWord(start, history);
    }

    /** The reason given for a throw holds: the worker was retired before, the request is out of range, its wait
        lapsed in a beat that says so or after the last one, the session has stopped, or the shared word can no
        longer hold the sequence. */
    ghost predicate Justified(why: Why, was: Sys, had: seq<Beat>)
      reads this
    {
      match why
      case AlreadyRetired => was.w.poisoned
      case BadRange =>
        var r := sys.w.req; r.offset < 0 || r.length > |start.buf| || r.offset + r.length > start.capacity
      case Lapsed(k, beat) =>
        if beat.Some? then beat.value in had && beat.value.expire && Lapse(start, history, k, beat.value.steps)
        else beats == [] && Lapse(start, history, k, [])
      case Stopped => !sys.b.running
      case Wrapped => sys.w.sequence >= 0x8000_0000
    }

    /** The worker is not inside `request`. */
    ghost predicate AtRest()
      reads this
    {
      sys.w.pc == (if sys.w.poisoned then Retired else Idle) && (!sys.w.poisoned ==> |sys.journal| == sys.w.sequence)
    }

    constructor (capacity: nat, writable: bool, mailbox: nat, beats: seq<Beat>)
      ensures Valid() && AtRest() && start == Initial(capacity, writable, mailbox) && history == [] && !sys.w.poisoned
    {
      start, sys, this.beats := Initial(capacity, writable, mailbox), Initial(capacity, writable, mailbox), beats;
      history := [];
    }

    method Do(a: Action)
      requires Valid() && Enabled(sys, a)
      modifies this`sys, this`history
      ensures Valid() && sys == Step(old(sys), a) && history == old(history) + [a]
    {
      RunOne(start, history, a);
      sys := Step(sys, a);
      history := history + [a];
    }

    /** The broker's turn. */
    method Interfere() returns (expire: bool)
      requires Valid()
      modifies this
      ensures Valid() && sys.w == old(sys.w) && sys.journal == old(sys.journal)
      ensures var steps := if old(beats) == [] then [] else old(beats)[0].steps;
              sys == Played(old(sys), steps).0 && history == old(history) + Played(old(sys), steps).1
      ensures if old(beats) == [] then beats == [] && expire
              else beats == old(beats)[1..] && expire == old(beats)[0].expire
      ensures sys.b.running ==> old(sys.b.running)
    {
      StoppedStays(sys, if beats == [] then [] else beats[0].steps);
      if beats == [] {
        return true;
      }
      var steps := beats[0].steps;
      expire, beats := beats[0].expire, beats[1..];
      for i := 0 to |steps|
        invariant Valid() && sys.w == old(sys.w) && sys.journal == old(sys.journal) && beats == old(beats)[1..]
        invariant sys == Played(old(sys), steps[..i]).0 && history == old(history) + Played(old(sys), steps[..i]).1
      {
        assert steps[..i + 1][..i] == steps[..i];
        if BrokerEnabled(sys, steps[i]) {
          BrokerLeavesWorker(sys, steps[i]);
          Do(B(steps[i]));
        }
      }
      assert steps[..|steps|] == steps;
    }

    lemma NextAdvances()
      requires Valid() && WorkerEnabled(sys, WorkerAction.Proceed)
      ensures var t := WorkerStep(sys, WorkerAction.Proceed); Advances(sys.w, sys.journal, t.w, t.journal)
    {
      Sound();
      AdvancesStep(sys);
    }

    /** In a running session the answer a worker wakes to passes its checks. */
    lemma NextPasses()
      requires Valid() && Checking(sys.w.pc) && sys.b.running && sys.w.sequence < 0x8000_0000
      ensures WorkerStep(sys, WorkerAction.Proceed).w.pc != StoreRetired
    {
      Sound();
      ChecksPass(sys);
    }

    /** One of the worker's own atomic operations, whenever the broker lets it happen. */
    method Proceed()
      requires Valid() && WorkerEnabled(sys, WorkerAction.Proceed)
      modifies this
      ensures Valid() && Advances(old(sys.w), old(sys.journal), sys.w, sys.journal)
      ensures Later(old(history), old(beats), history, beats) && (sys.w.pc == Sleep ==> sys.state == 0)
      ensures sys.b.running ==> old(sys.b.running)
      ensures Checking(old(sys.w.pc)) && sys.b.running && sys.w.sequence < 0x8000_0000 ==> sys.w.pc != StoreRetired
    {
      var _ := Interfere();
      NextAdvances();
      if Checking(sys.w.pc) && sys.b.running && sys.w.sequence < 0x8000_0000 {
        NextPasses();
      }
      SleepsOnZero(sys);
      Do(W(WorkerAction.Proceed));
    }

    /** Stores the sequence, the length and the state word, and posts the message. */
    method Prepare()
      requires Valid() && sys.w.pc == StoreSequence
      modifies this
      ensures Valid() && sys.w.pc == Load && !sys.w.poisoned && Later(old(history), old(beats), history, beats)
      ensures sys.w.sequence == old(sys.w.sequence) && sys.w.req == old(sys.w.req) && sys.journal == old(sys.journal)
    {
      Proceed();
      Proceed();
      Proceed();
      Proceed();
    }

    /** `throw retire(..)`: the worker is poisoned already; its store follows. */
    method StoreRetire()
      requires Valid() && sys.w.pc == StoreRetired
      modifies this
      ensures Valid() && AtRest() && sys.w.poisoned && sys.journal == old(sys.journal) && sys.w.req == old(sys.w.req)
      ensures Later(old(history), old(beats), history, beats) && sys.w.sequence == old(sys.w.sequence)
      ensures sys.b.running ==> old(sys.b.running)
    {
      Proceed();
    }

    /** A wait that expires in this beat, right after the worker went to sleep on a 0. */
    lemma LapsesHere(before: seq<Action>, slept: Sys, beat: Option<Beat>, was: Sys, had: seq<Beat>)
      requires Valid() && Legal(start, before) && Run(start, before) == slept && slept.w.pc == Sleep && slept.state == 0
      requires history == before + Played(slept, if beat.Some? then beat.value.steps else []).1 + [W(Expire)]
      requires if beat.Some? then beat.value in had && beat.value.expire else beats == []
      ensures Justified(Lapsed(|before|, beat), was, had)
    {
      LapseNow(start, before, slept, if beat.Some? then beat.value.steps else [], history);
    }

    /** The wait loop: ends when the state word was seen nonzero, or when the wait lapsed. */
    method AwaitAnswer() returns (ghost k: nat, ghost beat: Option<Beat>)
      requires Valid() && sys.w.pc == Load
      modifies this
      ensures Valid() && sys.journal == old(sys.journal) && sys.w.req == old(sys.w.req)
              && sys.w.sequence == old(sys.w.sequence)
      ensures sys.w.pc == CheckState || sys.w.pc == StoreRetired
      ensures Later(old(history), old(beats), history, beats)
      ensures sys.w.pc == StoreRetired ==> Justified(Lapsed(k, beat), old(sys), old(beats))
    {
      k, beat := 0, None;
      Proceed();
      while sys.w.pc == Sleep
        invariant Valid() && sys.journal == old(sys.journal) && (sys.w.pc == CheckState || sys.w.pc == Sleep)
        invariant sys.w.req == old(sys.w.req) && sys.w.sequence == old(sys.w.sequence)
        invariant Later(old(history), old(beats), history, beats) && (sys.w.pc == Sleep ==> sys.state == 0)
        decreases |beats|
      {
        k, beat := |history|, if beats == [] then None else Some(beats[0]);
        ghost var slept, before, left := sys, history, beats;
        var expired := Interfere();
        LaterBeats(old(history), old(beats), before, left, history, beats);
        if expired {
          Do(W(Expire));
          LapsesHere(before, slept, beat, old(sys), old(beats));
          return;
        }
        Do(W(Wake));
        Proceed();
      }
    }

    /** The three checks of the answer, and the copy of what was read. */
    method Conclude() returns (ok: bool)
      requires Valid() && (sys.w.pc == CheckState || sys.w.pc == StoreRetired) && sys.w.sequence == |sys.journal| + 1
      modifies this
      ensures Valid() && AtRest() && (ok <==> !sys.w.poisoned) && sys.w.req == old(sys.w.req)
      ensures if ok then Returned(old(sys.w), old(sys.journal), sys.journal) else sys.journal == old(sys.journal)
      ensures Later(old(history), old(beats), history, beats) && sys.w.sequence == old(sys.w.sequence)
      ensures !ok ==> old(sys.w.pc) == StoreRetired || !sys.b.running || sys.w.sequence >= 0x8000_0000
    {
      if sys.w.pc == StoreRetired {
        StoreRetire();
        return false;
      }
      ok := Check();
      if !ok {
        return;
      }
      ok := Check();
      if !ok {
        return;
      }
      ok := Check();
      if ok && sys.w.pc == Copy {
        Proceed();
      }
    }

    /** One check of the answer, and the throw if it fails. */
    method Check() returns (passed: bool)
      requires Valid() && Checking(sys.w.pc) && sys.w.sequence == |sys.journal| + 1
      modifies this
      ensures Valid() && sys.w.req == old(sys.w.req) && sys.w.sequence == old(sys.w.sequence)
      ensures Later(old(history), old(beats), history, beats)
      ensures if passed then
                !sys.w.poisoned && CheckedTo(old(sys.w.pc), sys.w.pc)
                && if sys.w.pc == Idle then Returned(old(sys.w), old(sys.journal), sys.journal)
                     else sys.journal == old(sys.journal)
              else
                AtRest() && sys.w.poisoned && sys.journal == old(sys.journal)
                && (!sys.b.running || sys.w.sequence >= 0x8000_0000)
    {
      Proceed();
      passed := sys.w.pc != StoreRetired;
      if !passed {
        StoreRetire();
      }
    }

    /** The rest of `request` once it is under way. */
    method Exchange() returns (ok: bool, ghost why: Why)
      requires Valid() && sys.w.pc == StoreSequence && sys.w.sequence == |sys.journal| + 1
      modifies this
      ensures Valid() && AtRest() && (ok <==> !sys.w.poisoned) && sys.w.req == old(sys.w.req)
      ensures Later(old(history), old(beats), history, beats)
      ensures if ok then Returned(old(sys.w), old(sys.journal), sys.journal) else sys.journal == old(sys.journal)
      ensures !ok ==> Justified(why, old(sys), old(beats))
    {
      ghost var had := beats;
      Prepare();
      ghost var left := beats;
      ghost var k, beat := AwaitAnswer();
      ghost var waited, lapsed := history, sys.w.pc == StoreRetired;
      ok := Conclude();
      why := if lapsed then Lapsed(k, beat) else if !sys.b.running then Stopped else Wrapped;
      if lapsed {
        LapseStays(start, waited, history, k, if beat.Some? then beat.value.steps else []);
      }
    }

    /** The checks at the start of `request`, its number and its payload. */
    method BeginRequest(r: Req)
      requires Valid() && AtRest() && !sys.w.poisoned && Proper(r)
      modifies this
      ensures Valid() && Later(old(history), old(beats), history, beats) && sys.journal == old(sys.journal)
              && sys.w.req == r
      ensures var fits := 0 <= r.offset && r.length <= |start.buf| && r.offset + r.length <= start.capacity;
              if fits then
                sys.w.pc == StoreSequence && !sys.w.poisoned && sys.w.sequence == |sys.journal| + 1
              else sys.w.pc == StoreRetired && sys.w.poisoned
    {
      var _ := Interfere();
      TermsStay();
      BeginsWithin(sys, r);
      Do(W(Begin(r)));
    }

    /** `request`: a normal return is `Some` of the bytes read, those of the completed operation; a throw is
        `None`, and happens only for the reasons named. */
    method Request(r: Req) returns (data: Option<seq<byte>>, ghost why: Why)
      requires Valid() && AtRest() && Proper(r)
      modifies this
      ensures Valid() && AtRest() && Later(old(history), old(beats), history, beats)
      ensures old(sys.w.poisoned) ==> data.None? && sys == old(sys) && why == AlreadyRetired
      ensures data.Some? ==> !sys.w.poisoned && sys.journal == old(sys.journal) + [Entry(r, data.value, |sys.journal|)]
      ensures data.Some? ==> LastServed(sys)
      ensures data.None? ==> sys.w.poisoned && sys.journal == old(sys.journal) && Justified(why, old(sys), old(beats))
      ensures !old(sys.w.poisoned) ==> sys.w.req == r
    {
      if sys.w.poisoned {
        return None, AlreadyRetired;
      }
      ghost var had := beats;
      BeginRequest(r);
      if sys.w.poisoned {
        StoreRetire();
        return None, BadRange;
      }
      ghost var left, was := beats, sys;
      var ok;
      ok, why := Exchange();
      if !ok {
        JustifiedEarlier(why, was, left, old(sys), had);
        return None, why;
      }
      ServedLast();
      return Some(sys.journal[|sys.journal| - 1].data), why;
    }

    lemma TermsStay()
      requires Valid()
      ensures |sys.buf| == |start.buf| && sys.capacity == start.capacity
    {
      Sound();
    }

    lemma ServedLast()
      requires Valid() && sys.journal != []
      ensures LastServed(sys)
    {
      Sound();
    }

    /** One more piece of a transfer. */
    method RequestPiece(r: Req, ghost pieces: seq<Req>, ghost before: seq<Entry>, ghost got: seq<byte>, ghost k: nat)
      returns (data: Option<seq<byte>>, ghost why: Why)
      requires Valid() && AtRest() && k < |pieces| && pieces[k] == r && Proper(r)
               && Partial(pieces, before, sys.journal, got, k)
      modifies this
      ensures Valid() && AtRest() && (data.None? <==> sys.w.poisoned) && Later(old(history), old(beats), history, beats)
      ensures if old(sys.w.poisoned) then sys == old(sys) else sys.w.req == r
      ensures if data.Some? then Partial(pieces, before, sys.journal, got + data.value, k + 1)
              else !old(sys.w.poisoned) ==> Transferred(pieces, before, sys.journal, None, sys.w.req)
      ensures data.None? ==> Justified(why, old(sys), old(beats))
    {
      ghost var journal := sys.journal;
      data, why := Request(r);
      if data.Some? {
        PartialStep(pieces, before, journal, got, k, sys.journal[|journal|]);
      }
    }

    /** Part way through a transfer begun at `was`; a poisoned worker never gets on the way. */
    ghost predicate Underway(was: Sys, pieces: seq<Req>, got: seq<byte>, k: nat)
      reads this
    {
      && Partial(pieces, was.journal, sys.journal, got, k)
      && (if was.w.poisoned then sys == was && k == 0 else !sys.w.poisoned)
    }

    /** What a transfer begun at `was` came to. */
    ghost predicate Ended(was: Sys, pieces: seq<Req>, length: nat, result: Option<seq<byte>>)
      reads this
    {
      && (result.None? ==> sys.w.poisoned)
      && if was.w.poisoned then sys == was && (result.None? <==> length > 0)
         else Transferred(pieces, was.journal, sys.journal, result, sys.w.req) && (result.Some? ==> !sys.w.poisoned)
    }

    lemma JustifiedEarlier(why: Why, was: Sys, had: seq<Beat>, first: Sys, all: seq<Beat>)
      requires Justified(why, was, had) && (was.w.poisoned ==> first.w.poisoned) && forall b :: b in had ==> b in all
      ensures Justified(why, first, all)
    {
    }

    lemma EndsWhole(was: Sys, pieces: seq<Req>, length: nat, got: seq<byte>)
      requires Underway(was, pieces, got, |pieces|) && (pieces == [] <==> length == 0)
      ensures Ended(was, pieces, length, Some(got))
    {
    }

    /** The request that comes after `at` bytes of a transfer. */
    method RequestNext(kind: Kind, offset: int, length: nat, data: seq<byte>, mailbox: nat, at: nat,
                       ghost was: Sys, ghost all: seq<Beat>, ghost pieces: seq<Req>, ghost got: seq<byte>, ghost k: nat)
      returns (x: Option<seq<byte>>, n: nat, ghost why: Why)
      requires forall b :: b in beats ==> b in all
      requires Valid() && AtRest() && mailbox > 0 && (if kind == Write then |data| == length else data == [])
      requires Listed(pieces, kind, offset, length, data, mailbox)
      requires at < length && k <= |pieces| && at == Begun(pieces, k, offset, length) && Underway(was, pieces, got, k)
      modifies this
      ensures Valid() && AtRest() && k < |pieces| && n > 0 && Later(old(history), old(beats), history, beats)
      ensures x.None? ==> Justified(why, was, all)
      ensures (forall b :: b in beats ==> b in all) && (x.Some? ==> at + n <= length)
      ensures if x.Some? then
                Underway(was, pieces, got + x.value, k + 1) && at + n == Begun(pieces, k + 1, offset, length)
              else Ended(was, pieces, length, None)
    {
      PieceAt(pieces, k, kind, offset, length, data, mailbox);
      var r := NextPiece(kind, offset, length, data, mailbox, at);
      n := r.length;
      ghost var before, had := sys, beats;
      x, why := RequestPiece(r, pieces, was.journal, got, k);
      if x.None? {
        JustifiedEarlier(why, before, had, was, all);
      }
    }

    /** The loop of `chunks`, for a listing of its requests. */
    method RequestAll(kind: Kind, offset: int, length: nat, data: seq<byte>, mailbox: nat, ghost pieces: seq<Req>)
      returns (result: Option<seq<byte>>, ghost why: Why)
      requires Valid() && AtRest() && mailbox > 0 && (if kind == Write then |data| == length else data == [])
      requires Listed(pieces, kind, offset, length, data, mailbox)
      modifies this
      ensures Valid() && AtRest() && Ended(old(sys), pieces, length, result)
      ensures result.None? ==> Justified(why, old(sys), old(beats))
    {
      why := AlreadyRetired;
      var got: seq<byte> := [];
      var at := 0;
      ghost var k := 0;
      result := Some([]);
      ListedStart(pieces, kind, offset, length, data, mailbox);
      PartialStart(pieces, sys.journal);
      while at < length
        invariant Valid() && AtRest() && forall b :: b in beats ==> b in old(beats)
        invariant k <= |pieces| && at == Begun(pieces, k, offset, length) && Underway(old(sys), pieces, got, k)
        decreases length - at
      {
        var x, n;
        x, n, why := RequestNext(kind, offset, length, data, mailbox, at, old(sys), old(beats), pieces, got, k);
        if x.None? {
          result := None;
          break;
        }
        got, at, k := got + x.value, at + n, k + 1;
      }
      if result.Some? {
        ListedEnd(pieces, k, kind, offset, length, data, mailbox);
        EndsWhole(old(sys), pieces, length, got);
        result := Some(got);
      }
    }

    /** `chunks`: cuts a transfer into requests and stops at the first that throws. */
    method Chunks(kind: Kind, offset: int, length: nat, data: seq<byte>)
      returns (result: Option<seq<byte>>, ghost why: Why)
      requires Valid() && AtRest() && |start.buf| > 0 && (if kind == Write then |data| == length else data == [])
      modifies this
      ensures Valid() && AtRest() && Ended(old(sys), Pieces(kind, offset, length, data, |start.buf|), length, result)
      ensures result.None? ==> Justified(why, old(sys), old(beats))
    {
      Sound();
      PiecesListed(kind, offset, length, data, |start.buf|);
      result, why := RequestAll(kind, offset, length, data, |sys.buf|, Pieces(kind, offset, length, data, |start.buf|));
    }

    // ----- The broker's side -----

    lemma PublishSound()
      requires Valid() && sys.b.pc.Publish?
      ensures var t := BrokerStep(sys, BrokerAction.Continue); t.state == 1 && (t.w.poisoned || Published(t))
    {
      Sound();
      PublishingIsTrue(sys);
    }

    /** The operation under way is the worker's request. */
    lemma StartSound()
      requires Valid() && sys.b.active.Some?
      ensures |sys.ops| == sys.w.sequence > 0 && Serves(sys.ops[|sys.ops| - 1], sys.w.req)
              && sys.ops[|sys.ops| - 1].sequence == sys.w.sequence
    {
      Sound();
    }

    /** The worker's turn between two atomic operations of the broker. */
    method Disturb(steps: seq<WorkerAction>)
      requires Valid()
      modifies this`sys, this`history
      ensures Valid() && SameBroker(old(sys), sys)
    {
      for i := 0 to |steps|
        invariant Valid() && SameBroker(old(sys), sys)
      {
        if WorkerEnabled(sys, steps[i]) {
          WorkerLeavesBroker(sys, steps[i]);
          Do(W(steps[i]));
        }
      }
    }

    /** The broker's next atomic operation, whenever the worker lets it happen. */
    method Continue(steps: seq<WorkerAction>) returns (ghost before: Sys)
      requires Valid() && sys.b.pc != Listening
      modifies this`sys, this`history
      ensures Valid() && SameBroker(old(sys), before) && sys == BrokerStep(before, BrokerAction.Continue)
      ensures Live(before) && old(sys.b.pc) != Failing && !old(sys.b.pc).Start? ==> sys.b.pc != Failing
      ensures Live(before) && old(sys.b.pc).Start? && Acceptable(before, old(sys.b.pc).m) ==> sys.b.pc != Failing
    {
      Disturb(steps);
      before := sys;
      NextIsLive();
      Do(B(BrokerAction.Continue));
    }

    /** For a live worker no check of the broker's fails. */
    lemma NextIsLive()
      requires Valid() && sys.b.pc != Listening
      ensures var t := BrokerStep(sys, BrokerAction.Continue);
              && (Live(sys) && sys.b.pc != Failing && !sys.b.pc.Start? ==> t.b.pc != Failing)
              && (Live(sys) && sys.b.pc.Start? && Acceptable(sys, sys.b.pc.m) ==> t.b.pc != Failing)
    {
      Sound();
      if Live(sys) && Matching(sys.b.pc) {
        LiveMatches(sys);
      } else if Live(sys) && Completing(sys.b.pc) {
        LiveCompletes(sys);
      }
    }

    lemma ReceivesLive()
      requires Valid() && sys.b.pc == Listening && sys.inbox != []
      ensures Live(sys) ==> BrokerStep(sys, Receive).b.pc.MatchSequence?
    {
      Sound();
      if Live(sys) {
        LiveReceives(sys);
      }
    }

    /** `fail` from inside `io`. */
    method FailIo(steps: seq<WorkerAction>)
      requires Valid() && sys.b.pc == Failing
      modifies this`sys, this`history
      ensures Valid() && sys.b == old(sys.b).(pc := Listening, running := false)
      ensures sys.ops == old(sys.ops) && sys.settled == old(sys.settled) && KeepsUp(old(sys), sys)
    {
      var _ := Continue(steps);
    }

    /** `io`, from the message to the storage operation it starts: either exactly the one the
        worker's last request asks for, or none, with the session stopped. A live worker's request in a
        running session is refused only if it is out of bounds or writes where it may not. */
    method Io(beats: seq<seq<WorkerAction>>) returns (started: bool)
      requires Valid() && sys.b.pc == Listening && sys.inbox != [] && |beats| == 4
      modifies this`sys, this`history
      ensures Valid() && sys.b.pc == Listening && sys.settled == old(sys.settled)
      ensures started ==> StartedIo(old(sys), sys)
      ensures !started ==> sys.ops == old(sys.ops) && !sys.b.running && sys.b.active == old(sys.b.active)
      ensures StaysLive(old(sys), sys) && Allowed(old(sys)) ==> started
    {
      ReceivesLive();
      Do(B(Receive));
      if sys.b.pc == Listening {
        return false;
      }
      MatchIo(beats[0], beats[1]);
      if sys.b.pc != Failing {
        var _ := Continue(beats[2]);
      }
      if sys.b.pc == Failing {
        FailIo(beats[3]);
        return false;
      }
      StartSound();
      return true;
    }

    /** The two looks at the shared words. */
    method MatchIo(first: seq<WorkerAction>, second: seq<WorkerAction>)
      requires Valid() && (sys.b.pc == Failing || sys.b.pc.MatchSequence?)
      modifies this`sys, this`history
      ensures Valid() && (sys.b.pc == Failing || (sys.b.pc.Start? && old(sys.b.pc.MatchSequence?)
                                                  && sys.b.pc.m == old(sys.b.pc.m)))
      ensures sys.b == old(sys.b).(pc := sys.b.pc) && sys.ops == old(sys.ops) && sys.settled == old(sys.settled)
      ensures sys.capacity == old(sys.capacity) && sys.writable == old(sys.writable) && |sys.buf| == |old(sys.buf)|
      ensures KeepsUp(old(sys), sys) && (old(sys.b.pc) != Failing && Live(sys) ==> sys.b.pc != Failing)
    {
      if sys.b.pc != Failing {
        var _ := Continue(first);
      }
      if sys.b.pc != Failing {
        var _ := Continue(second);
      }
    }

    /** What `io` asks of the message before anything else, spelled out. */
    ghost predicate Allowed(s: Sys)
      requires s.inbox != []
    {
      var m := s.inbox[0];
      && 0 <= m.offset && m.length <= |s.buf| && m.offset + m.length <= s.capacity
      && (m.kind == Write ==> s.writable) && (m.kind == Sync ==> m.offset == 0 && m.length == 0)
    }

    /** A checked read fills the buffer; everything else goes on to the final checks. */
    method FillIo(beats: seq<seq<WorkerAction>>)
      requires Valid() && sys.b.running && sys.b.active.None? && |beats| == 3
      requires sys.b.pc.LateSequence? || sys.b.pc.FinalSequence?
      modifies this`sys, this`history
      ensures Valid() && sys.b.running && sys.b.active.None? && sys.ops == old(sys.ops)
              && sys.settled == old(sys.settled)
      ensures sys.b.pc == Failing || (sys.b.pc.FinalSequence? && sys.b.pc.m == old(sys.b.pc.m))
      ensures KeepsUp(old(sys), sys) && (Live(sys) ==> sys.b.pc != Failing)
    {
      if sys.b.pc.LateSequence? {
        var _ := Continue(beats[0]);
        if sys.b.pc != Failing {
          var _ := Continue(beats[1]);
        }
        if sys.b.pc != Failing {
          Fill(beats[2]);
        }
      }
    }

    method Fill(steps: seq<WorkerAction>)
      requires Valid() && sys.b.pc.Fill?
      modifies this`sys, this`history
      ensures Valid() && sys.b == old(sys.b).(pc := FinalSequence(old(sys.b.pc.m)))
      ensures sys.ops == old(sys.ops) && sys.settled == old(sys.settled) && KeepsUp(old(sys), sys)
    {
      var _ := Continue(steps);
    }

    /** The final checks and the two stores that publish the result. */
    method PublishIo(beats: seq<seq<WorkerAction>>) returns (published: bool)
      requires Valid() && sys.b.running && sys.b.active.None? && |beats| == 5
      requires sys.b.pc == Failing || sys.b.pc.FinalSequence?
      modifies this`sys, this`history
      ensures Valid() && sys.b.pc == Listening && sys.b.active.None? && (sys.b.running <==> published)
      ensures sys.ops == old(sys.ops) && sys.settled == old(sys.settled)
      ensures published ==> sys.state == 1 && (sys.w.poisoned || Published(sys))
      ensures KeepsUp(old(sys), sys)
      ensures old(sys.b.pc) != Failing && !sys.w.poisoned && sys.w.sequence < 0x8000_0000 ==> published
    {
      FinalIo(beats[0], beats[1]);
      if sys.b.pc == Failing {
        FailIo(beats[2]);
        return false;
      }
      Publish(beats[3], beats[4]);
      return true;
    }

    /** The last two looks at the shared words. */
    method FinalIo(first: seq<WorkerAction>, second: seq<WorkerAction>)
      requires Valid() && (sys.b.pc == Failing || sys.b.pc.FinalSequence?)
      modifies this`sys, this`history
      ensures Valid() && (sys.b.pc == Failing || sys.b.pc.PublishLength?)
      ensures sys.b == old(sys.b).(pc := sys.b.pc) && sys.ops == old(sys.ops) && sys.settled == old(sys.settled)
      ensures KeepsUp(old(sys), sys) && (old(sys.b.pc) != Failing && Live(sys) ==> sys.b.pc != Failing)
    {
      if sys.b.pc != Failing {
        var _ := Continue(first);
      }
      if sys.b.pc != Failing {
        var _ := Continue(second);
      }
    }

    method Publish(before: seq<WorkerAction>, between: seq<WorkerAction>)
      requires Valid() && sys.b.running && sys.b.active.None? && sys.b.pc.PublishLength?
      modifies this`sys, this`history
      ensures Valid() && sys.b == old(sys.b).(pc := Listening) && sys.ops == old(sys.ops)
              && sys.settled == old(sys.settled)
      ensures sys.state == 1 && (sys.w.poisoned || Published(sys)) && KeepsUp(old(sys), sys)
    {
      var _ := Continue(before);
      PublishState(between);
    }

    /** The store of 1, whenever the worker lets it happen. */
    method PublishState(between: seq<WorkerAction>)
      requires Valid() && sys.b.pc.Publish?
      modifies this`sys, this`history
      ensures Valid() && sys.b == old(sys.b).(pc := Listening) && sys.ops == old(sys.ops)
              && sys.settled == old(sys.settled)
      ensures sys.state == 1 && (sys.w.poisoned || Published(sys)) && KeepsUp(old(sys), sys)
    {
      Disturb(between);
      PublishSound();
      Do(B(BrokerAction.Continue));
    }

    /** The rest of `io`: what it publishes, for a worker that can still see it, is the completed
        operation of its own request; otherwise the session is stopped. For a live worker in a running
        session every good outcome is published. */
    method IoSettled(outcome: Outcome, beats: seq<seq<WorkerAction>>) returns (published: bool)
      requires Valid() && sys.b.pc == Listening && sys.b.active.Some? && |beats| == 8
      modifies this`sys, this`history
      ensures Valid() && sys.b.pc == Listening && sys.b.active.None?
      ensures sys.ops == old(sys.ops) && sys.settled == old(sys.settled) + [outcome]
      ensures (published <==> sys.b.running) && (published ==> sys.state == 1 && (sys.w.poisoned || Published(sys)))
      ensures var m := old(sys.b.active).value;
              StaysLive(old(sys), sys) && outcome.Settled? && (m.kind == Read ==> |outcome.bytes| == m.length) ==>
                  published
    {
      Sound();
      Do(B(Settle(outcome)));
      if sys.b.pc == Listening {
        return false;
      }
      if sys.b.pc == Failing {
        FailIo(beats[0]);
        return false;
      }
      FillIo(beats[..3]);
      published := PublishIo(beats[3..]);
    }
  }

  /** Worker steps leave the broker's own state and record alone. */
  predicate SameBroker(s: Sys, t: Sys) {
    && t.b == s.b && t.ops == s.ops && t.settled == s.settled && t.capacity == s.capacity && t.writable == s.writable
    && |t.buf| == |s.buf| && s.inbox <= t.inbox && (s.w.poisoned ==> t.w.poisoned) && s.w.sequence <= t.w.sequence
  }

  /** The worker's retirement and its sequence are there to stay. */
  predicate KeepsUp(s: Sys, t: Sys) {
    (s.w.poisoned ==> t.w.poisoned) && s.w.sequence <= t.w.sequence
  }

  /** The session was running, and the worker is still live. */
  predicate StaysLive(s: Sys, t: Sys) {
    s.b.running && !t.w.poisoned && t.w.sequence < 0x8000_0000
  }

  /** From the message at the head of the inbox the broker has started one operation, for it. */
  predicate StartedIo(s: Sys, t: Sys)
    requires s.inbox != []
  {
    && t.b.running && s.b.active.None? && t.b.active == Some(s.inbox[0]) && s.inbox[0].sequence == s.b.nextSequence
    && |t.ops| == |s.ops| + 1 && t.ops[..|s.ops|] == s.ops && Acceptable(s, s.inbox[0])
    && Serves(t.ops[|s.ops|], t.w.req) && t.ops[|s.ops|].sequence == s.inbox[0].sequence == t.w.sequence
  }

  /** The history goes on, and no beat is left that was not there before. */
  predicate Later(history: seq<Action>, beats: seq<Beat>, now: seq<Action>, left: seq<Beat>) {
    history <= now && |left| <= |beats| && forall b :: b in left ==> b in beats
  }

  /** The last normal return was served by the operation that completed last, with its bytes. */
  predicate LastServed(s: Sys) {
    var n := |s.journal| - 1;
    0 <= n < |s.settled| <= |s.ops| && Matches(s.journal[n], s.ops[n], s.settled[n])
  }

  lemma LaterBeats(h0: seq<Action>, b0: seq<Beat>, h1: seq<Action>, b1: seq<Beat>, h2: seq<Action>, b2: seq<Beat>)
    requires Later(h0, b0, h1, b1) && h1 <= h2 && b2 == (if b1 == [] then [] else b1[1..])
    ensures Later(h0, b0, h2, b2) && (b1 != [] ==> b1[0] in b0)
  {
  }

  predicate CheckedTo(pc: WorkerPc, next: WorkerPc) {
    match pc
    case CheckState => next == CheckSequence
    case CheckSequence => next == CheckLength
    case _ => next == Copy || next == Idle
  }

  predicate Checking(pc: WorkerPc) {
    pc == CheckState || pc == CheckSequence || pc == CheckLength
  }

  lemma StoppedStays(s: Sys, steps: seq<BrokerAction>)
    ensures Played(s, steps).0.b.running ==> s.b.running
    decreases |steps|
  {
    if steps != [] {
      StoppedStays(s, steps[..|steps| - 1]);
    }
  }

  lemma LapseNow(start: Sys, before: seq<Action>, slept: Sys, steps: seq<BrokerAction>, history: seq<Action>)
    requires Legal(start, before) && Run(start, before) == slept && slept.w.pc == Sleep && slept.state == 0
    requires history == before + Played(slept, steps).1 + [W(Expire)]
    ensures Lapse(start, history, |before|, steps)
  {
    var n := |before| + |Played(slept, steps).1|;
    assert history[..|before|] == before && history[|before|..n] == Played(slept, steps).1 && history[n] == W(Expire);
  }

  /** The journal has gained the return of the worker's current request. */
  predicate Returned(w: Worker, j: seq<Entry>, k: seq<Entry>) {
    |k| == |j| + 1 && k == j + [Entry(w.req, k[|j|].data, w.sequence)]
  }

  /** How one atomic operation moves the worker. */
  predicate Advances(w: Worker, j: seq<Entry>, v: Worker, k: seq<Entry>) {
    && v.sequence == w.sequence && v.req == w.req && (v.poisoned <==> v.pc == StoreRetired || v.pc == Retired)
    && (v.pc == Idle ==> Returned(w, j, k))
    && (v.pc != Idle ==> k == j)
    && match w.pc
       case StoreSequence => v.pc == StoreLength
       case StoreLength => v.pc == StoreReset
       case StoreReset => v.pc == Post
       case Post => v.pc == Load
       case Load => v.pc == Sleep || v.pc == CheckState
       case CheckState => v.pc == CheckSequence || v.pc == StoreRetired
       case CheckSequence => v.pc == CheckLength || v.pc == StoreRetired
       case CheckLength => v.pc == Copy || v.pc == Idle || v.pc == StoreRetired
       case Copy => v.pc == Idle
       case _ => v.pc == Retired
  }
}
