/** The packet level of a bulk-IN transfer: `NusbIo::read` rounds its buffer up to whole packets,
    and a transfer ends at a short packet or a full buffer (USB 2.0, section 5.8.3). */
module Packets {
  import opened Bytes
  import opened Device
  import opened Bot
  import opened RangeSpec

  type Packet = seq<byte>

  /** How an endpoint with packets of `p` bytes sends `data`: full packets, then what is left. */
  function Split(data: seq<byte>, p: nat): seq<Packet>
    requires p > 0
    decreases |data|
  {
    if data == [] then [] else if |data| <= p then [data] else [data[..p]] + Split(data[p..], p)
  }

  function Flatten(q: seq<Packet>): seq<byte> {
    if q == [] then [] else q[0] + Flatten(q[1..])
  }

  function RoundUp(n: nat, p: nat): nat
    requires p > 0
  {
    CeilDiv(n, p) * p
  }

  /** One transfer into a buffer of `space` bytes: its bytes and the packets left, or nothing while
      it is still waiting for a packet. */
  function Transfer(q: seq<Packet>, space: nat, p: nat): Option<(seq<byte>, seq<Packet>)>
    requires p > 0
    decreases |q|
  {
    if space < p then Some(([], q))
    else if q == [] then None
    else if |q[0]| < p then Some((q[0], q[1..]))
    else
      var o := Transfer(q[1..], space - p, p);
      if o.None? then None else Some((q[0] + o.value.0, o.value.1))
  }

  function NusbRead(q: seq<Packet>, length: nat, p: nat): Option<(seq<byte>, seq<Packet>)>
    requires p > 0
  {
    Transfer(q, RoundUp(length, p), p)
  }

  /** A transfer takes bytes off the front of the stream and nothing else. */
  lemma {:induction false} TransferIsAStreamRead(q: seq<Packet>, space: nat, p: nat)
    requires p > 0 && Transfer(q, space, p).Some?
    ensures var o := Transfer(q, space, p).value;
            o.0 + Flatten(o.1) == Flatten(q)
    decreases |q|
  {
    if space >= p && |q[0]| >= p {
      TransferIsAStreamRead(q[1..], space - p, p);
      var o := Transfer(q[1..], space - p, p).value;
      Assoc(q[0], o.0, Flatten(o.1));
    }
  }

  lemma Assoc(a: seq<byte>, b: seq<byte>, c: seq<byte>)
    ensures (a + b) + c == a + (b + c)
  {
  }

  lemma {:induction false} TransferProgresses(q: seq<Packet>, space: nat, p: nat)
    requires p > 0 && Transfer(q, space, p).Some?
    ensures var o := Transfer(q, space, p).value; |o.1| <= |q| && (space >= p ==> |o.1| < |q|)
    decreases |q|
  {
    if space >= p && |q[0]| >= p {
      TransferProgresses(q[1..], space - p, p);
    }
  }

  lemma {:induction false} SplitFlattens(data: seq<byte>, p: nat)
    requires p > 0
    ensures Flatten(Split(data, p)) == data
    decreases |data|
  {
    if |data| > p {
      SplitFlattens(data[p..], p);
      var q := Split(data, p);
      assert q[1..] == Split(data[p..], p);
    } else if data != [] {
      assert [data][1..] == [];
    }
  }

  /** Data of this length ends in a short packet. */
  predicate EndsShort(length: nat, p: nat)
    requires p > 0
  {
    if length < p then length > 0 else EndsShort(length - p, p)
  }

  lemma {:induction false} WholeOrShort(length: nat, p: nat) returns (k: nat)
    requires p > 0
    ensures EndsShort(length, p) || length == k * p
  {
    if length < p {
      k := 0;
    } else {
      k := WholeOrShort(length - p, p);
      assert (k + 1) * p == k * p + p;
      k := k + 1;
    }
  }

  /** A buffer of whole packets that either fills up or meets the short packet at the end of the
      data takes data only. */
  lemma {:induction false} TransferStaysInData(data: seq<byte>, rest: seq<Packet>, packets: nat, space: nat, p: nat)
    requires p > 0 && space == packets * p && (space <= |data| || EndsShort(|data|, p))
    ensures var k := Min(space, |data|);
            Transfer(Split(data, p) + rest, space, p) == Some((data[..k], Split(data[k..], p) + rest))
    decreases packets
  {
    if packets == 0 {
      assert data[0..] == data;
    } else {
      assert space == (packets - 1) * p + p;
      if |data| < p {
        LastPacket(data, rest, space, p);
      } else {
        TransferStaysInData(data[p..], rest, packets - 1, space - p, p);
        FirstPacket(data, rest, space, p);
        Rejoin(data, p, Min(space - p, |data| - p));
      }
    }
  }

  lemma Rejoin(data: seq<byte>, p: nat, k: nat)
    requires p + k <= |data|
    ensures data[..p] + data[p..][..k] == data[..p + k] && data[p..][k..] == data[p + k..]
  {
  }

  lemma LastPacket(data: seq<byte>, rest: seq<Packet>, space: nat, p: nat)
    requires 0 < |data| < p <= space
    ensures Transfer(Split(data, p) + rest, space, p) == Some((data[..|data|], Split(data[|data|..], p) + rest))
  {
    var q := Split(data, p) + rest;
    assert q[0] == data && q[1..] == rest && data[..|data|] == data;
    assert Split(data[|data|..], p) + rest == rest;
  }

  lemma FirstPacket(data: seq<byte>, rest: seq<Packet>, space: nat, p: nat)
    requires 0 < p <= |data| && p <= space
    ensures var o := Transfer(Split(data[p..], p) + rest, space - p, p);
            Transfer(Split(data, p) + rest, space, p)
            == if o.None? then None else Some((data[..p] + o.value.0, o.value.1))
  {
    var q := Split(data, p) + rest;
    assert q[0] == data[..p];
    assert q[1..] == Split(data[p..], p) + rest;
  }

  lemma MultipleCovers(n: nat, total: nat, p: nat)
    requires p > 0 && 0 < n <= total
    ensures RoundUp(n, p) <= total || EndsShort(total, p)
    ensures n <= RoundUp(n, p)
  {
    CeilBounds(n, p);
    var k := WholeOrShort(total, p);
    if total == k * p {
      Scale(k, CeilDiv(n, p) - 1, p);
      Scale(CeilDiv(n, p), k, p);
    }
  }

  /** The host's reads against a queue of packets; a read that never completes is dropped. */
  function PacketDrive(h: Host, q: seq<Packet>, p: nat): (Host, seq<Packet>)
    requires p > 0 && Runnable(h) && (h.pc.ReadData? || h.pc.ReadStatus? || h.pc.Done?)
    decreases |q|, if h.pc.Done? then 0 else 1
  {
    if h.pc.Done? then (h, q)
    else
      var o := NusbRead(q, Ask(h).length, p);
      if o.None? then (Resume(h, Dropped), q)
      else
        assert RoundUp(Ask(h).length, p) >= p by {
          CeilBounds(Ask(h).length, p);
          Scale(1, CeilDiv(Ask(h).length, p), p);
        }
        TransferProgresses(q, RoundUp(Ask(h).length, p), p);
        PacketDrive(Resume(h, Got(o.value.0)), o.value.1, p)
  }

  lemma PrefixOnward(data: seq<byte>, got: seq<byte>, all: seq<byte>, rest: seq<byte>, whole: seq<byte>)
    requires data + got <= all && all[|data + got|..] <= rest && got + rest == whole
    ensures data <= all && all[|data|..] <= whole
  {
    assert all[|data|..|data + got|] == got;
    assert all[|data|..] == got + all[|data + got|..];
  }

  /** Whatever packets are queued, the data the host takes is the front of the stream, in order. */
  lemma {:induction false} QueueInOrder(h: Host, q: seq<Packet>, p: nat)
    requires p > 0 && Runnable(h) && (h.pc.ReadData? || h.pc.ReadStatus? || h.pc.Done?)
    ensures var o := PacketDrive(h, q, p); h.data <= o.0.data && o.0.data[|h.data|..] <= Flatten(q)
    decreases |q|, if h.pc.Done? then 0 else 1
  {
    if !h.pc.Done? {
      var space := RoundUp(Ask(h).length, p);
      var t := NusbRead(q, Ask(h).length, p);
      if t.Some? {
        CeilBounds(Ask(h).length, p);
        Scale(1, CeilDiv(Ask(h).length, p), p);
        TransferProgresses(q, space, p);
        TransferIsAStreamRead(q, space, p);
        var next := Resume(h, Got(t.value.0));
        QueueInOrder(next, t.value.1, p);
        if next.data == h.data + t.value.0 {
          PrefixOnward(h.data, t.value.0, PacketDrive(h, q, p).0.data, Flatten(t.value.1), Flatten(q));
        }
      }
    }
  }

  /** So from a stream sent in packets the host takes a prefix of it. */
  lemma StreamInOrder(h: Host, stream: seq<byte>, p: nat)
    requires p > 0 && Runnable(h) && h.pc.ReadData? && h.data == []
    ensures PacketDrive(h, Split(stream, p), p).0.data <= stream
  {
    QueueInOrder(h, Split(stream, p), p);
    SplitFlattens(stream, p);
  }

  /** The host once it has all its data. */
  function Filled(h: Host, left: seq<byte>): Host {
    h.(data := h.data + left, pc := ReadStatus)
  }

  /** Rounding never makes an exact data stage swallow status bytes: for every packet size at all,
      every length and every data, a device that sends exactly the data and then any status block is
      read to the last byte of both; so the host judges that block holding exactly that data. */
  lemma {:induction false} ExactStageIsJudged(h: Host, left: seq<byte>, csw: seq<byte>, p: nat)
    requires p > 0 && Runnable(h) && h.incoming > 0 && |h.data| + |left| == h.incoming && |csw| == 13
    requires h.pc == (if left == [] then ReadStatus else ReadData)
    ensures PacketDrive(h, Split(left, p) + Split(csw, p), p) == (Resume(Filled(h, left), Got(csw)), [])
    decreases |left|
  {
    var n := Ask(h).length;
    if left == [] {
      var q := Split(left, p) + Split(csw, p);
      assert q == Split(csw, p) + [];
      MultipleCovers(13, 13, p);
      TransferStaysInData(csw, [], CeilDiv(13, p), RoundUp(13, p), p);
      assert csw[..13] == csw && Split(csw[13..], p) + [] == [];
      assert h.data + left == h.data;
    } else {
      MultipleCovers(n, |left|, p);
      TransferStaysInData(left, Split(csw, p), CeilDiv(n, p), RoundUp(n, p), p);
      var k := Min(RoundUp(n, p), |left|);
      var next := Resume(h, Got(left[..k]));
      assert h.data + left == next.data + left[k..];
      ExactStageIsJudged(next, left[k..], csw, p);
    }
  }

  /** In particular the command succeeds with that data, or is refused and keeps the session usable,
      as the status says. */
  lemma ExactStageSucceeds(h: Host, data: seq<byte>, csw: seq<byte>, p: nat)
    requires p > 0 && Runnable(h) && h.pc == ReadData && h.data == [] && |data| == h.incoming && |csw| == 13
    ensures var o, v := PacketDrive(h, Split(data, p) + Split(csw, p), p), Verdict13(csw, h.cbw.tag, h.cbw.length);
            && o.1 == []
            && (v == Passed ==> o.0.pc == Done(Ok(data)) && o.0.usable)
            && (v == Refuses ==> o.0.pc == Done(Err(CommandFailed)) && o.0.usable)
            && (v.Uncertain? ==> o.0.pc == Done(Err(Protocol(v.fault))) && o.0.usable == h.usable)
  {
    ExactStageIsJudged(h, data, csw, p);
    assert h.data + data == data;
  }
}
