/**
 * The inbound packet queue of the networking layer: a FIFO of
 * (message id, payload) records filled by the network side and drained by
 * the per-frame update loop. Every operation of the source runs under one
 * lock, so each is modelled as one atomic step on the queued sequence.
 */
module Packets {
  import opened Wrappers

  /** Numeric value of the protocol's message-kind enumeration. */
  type MsgId = int

  /** One queued record; the payload `M` is opaque to the queue. */
  datatype PacketMessage<M> = PacketMessage(id: MsgId, message: M)

  /** The three operations a caller can perform on the queue. */
  datatype Op<M> = PushOp(id: MsgId, message: M) | PopOp | PopAllOp

  /** What a run of operations handed out, and what is still queued. */
  datatype Trace<M> = Trace(delivered: seq<PacketMessage<M>>, remaining: seq<PacketMessage<M>>)

  /** One atomic operation on queue contents `q`. */
  function Step<M>(q: seq<PacketMessage<M>>, op: Op<M>): Trace<M>
  {
    match op
    case PushOp(id, m) => Trace([], q + [PacketMessage(id, m)])
    case PopOp => if q == [] then Trace([], q) else Trace([q[0]], q[1..])
    case PopAllOp => Trace(q, [])
  }

  /** The record an operation adds to the queue: one for a push, none otherwise. */
  function PushedBy<M>(op: Op<M>): seq<PacketMessage<M>>
  {
    match op
    case PushOp(id, m) => [PacketMessage(id, m)]
    case _ => []
  }

  /** All records pushed by `ops`, in push order. */
  function Pushed<M>(ops: seq<Op<M>>): seq<PacketMessage<M>>
  {
    if ops == [] then [] else PushedBy(ops[0]) + Pushed(ops[1..])
  }

  /** Performs `ops` in order from contents `q`, concatenating everything popped. */
  function Run<M>(q: seq<PacketMessage<M>>, ops: seq<Op<M>>): Trace<M>
    decreases |ops|
  {
    if ops == [] then Trace([], q)
    else
      var s := Step(q, ops[0]);
      var t := Run(s.remaining, ops[1..]);
      Trace(s.delivered + t.delivered, t.remaining)
  }

  /** Conservation: what was handed out followed by what is still queued is exactly
      the initial contents followed by every pushed record. */
  lemma {:induction false} RunConserves<M>(q: seq<PacketMessage<M>>, ops: seq<Op<M>>)
    ensures Run(q, ops).delivered + Run(q, ops).remaining == q + Pushed(ops)
    decreases |ops|
  {
    if ops != [] {
      var s := Step(q, ops[0]);
      var t := Run(s.remaining, ops[1..]);
      RunConserves(s.remaining, ops[1..]);
      assert s.delivered + s.remaining == q + PushedBy(ops[0]);
      calc {
        Run(q, ops).delivered + Run(q, ops).remaining;
        (s.delivered + t.delivered) + t.remaining;
        s.delivered + (t.delivered + t.remaining);
        s.delivered + (s.remaining + Pushed(ops[1..]));
        (s.delivered + s.remaining) + Pushed(ops[1..]);
        (q + PushedBy(ops[0])) + Pushed(ops[1..]);
        q + Pushed(ops);
      }
    }
  }

  /** FIFO order: the concatenation of all pop results is a prefix of the
      initial contents followed by the push order. */
  lemma DeliveredIsPrefix<M>(q: seq<PacketMessage<M>>, ops: seq<Op<M>>)
    ensures Run(q, ops).delivered <= q + Pushed(ops)
  {
    var r := Run(q, ops);
    RunConserves(q, ops);
    assert (r.delivered + r.remaining)[..|r.delivered|] == r.delivered;
  }

  /** Nothing is duplicated and nothing is lost: every record pushed (or queued
      at the start) is handed out once or is still queued, and nothing else is. */
  lemma NothingLostOrDuplicated<M>(q: seq<PacketMessage<M>>, ops: seq<Op<M>>)
    ensures multiset(Run(q, ops).delivered) + multiset(Run(q, ops).remaining)
            == multiset(q) + multiset(Pushed(ops))
  {
    RunConserves(q, ops);
    assert multiset(q + Pushed(ops)) == multiset(q) + multiset(Pushed(ops));
  }

  /** A drain hands out the whole queue, and any number of pops and drains
      after it with no push in between hand out nothing and leave the queue
      empty; in particular a second PopAll right after a first returns the
      empty list. */
  lemma {:induction false} NothingAfterDrain<M>(q: seq<PacketMessage<M>>, ops: seq<Op<M>>)
    requires forall i :: 0 <= i < |ops| ==> !ops[i].PushOp?
    ensures Run(q, [PopAllOp] + ops) == Trace(q, [])
    decreases |ops|
  {
    assert ([PopAllOp] + ops)[1..] == ops;
    if ops != [] {
      assert forall i :: 0 <= i < |ops[1..]| ==> ops[1..][i] == ops[i + 1];
      NothingAfterDrain([], ops[1..]);
      assert ([PopAllOp] + ops[1..])[1..] == ops[1..];
      assert Step([], ops[0]) == Trace([], []);
    }
  }

  /** The queue object. `packets` is the source's internal queue, oldest first. */
  class PacketQueue<M> {
    var packets: seq<PacketMessage<M>>

    constructor ()
      ensures packets == []
    {
      packets := [];
    }

    /** Appends one record at the tail; earlier records stay as they were. */
    method Push(id: MsgId, packet: M)
      modifies this
      ensures packets == old(packets) + [PacketMessage(id, packet)]
      ensures Step(old(packets), PushOp(id, packet)) == Trace([], packets)
    {
      packets := packets + [PacketMessage(id, packet)];
    }

    /** Removes and returns the head, or returns None (the source's null) when empty. */
    method Pop() returns (r: Option<PacketMessage<M>>)
      modifies this
      ensures old(packets) == [] ==> r == None && packets == old(packets)
      ensures old(packets) != [] ==> r == Some(old(packets)[0]) && packets == old(packets)[1..]
      ensures Step(old(packets), PopOp) == Trace(OptionToSeq(r), packets)
    {
      if |packets| == 0 {
        return None;
      }
      r := Some(packets[0]);
      packets := packets[1..];
    }

    /** Dequeues every record into a new list, oldest first, leaving the queue empty. */
    method PopAll() returns (list: seq<PacketMessage<M>>)
      modifies this
      ensures list == old(packets) && packets == []
      ensures Step(old(packets), PopAllOp) == Trace(list, packets)
    {
      list := [];
      while |packets| > 0
        invariant list + packets == old(packets)
        decreases |packets|
      {
        list := list + [packets[0]];
        packets := packets[1..];
      }
    }
  }
}
