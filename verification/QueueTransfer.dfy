/**
 The receive loops over a provider queue, in place: moving the buffered messages of a
 replaced queue to its successor, and sweeping a queue that no worker reads any more.

 These are the loops run without interference; ProviderQueues has each of their steps
 interleaved with producers and workers.
 */
module QueueTransfer {
  import opened Wrappers

  const QUEUE_FULL := "request failed during provider concurrency update: queue full"
  const SHUTTING_DOWN := "provider is shutting down"

  /** A queued message: its one-slot error channel, and whether its caller's context is done. */
  class ChannelMessage {
    var err: Option<string>
    const callerGone: bool

    constructor (callerGone: bool)
      ensures err == None && this.callerGone == callerGone
    {
      err, this.callerGone := None, callerGone;
    }

    /** Sends the error or gives up because the caller is gone; `sends` decides when both are possible. */
    method Answer(error: string, sends: bool)
      requires err.None? || callerGone
      modifies this
      ensures err == if old(err).None? && (sends || !callerGone) then Some(error) else old(err)
    {
      if err.None? && (sends || !callerGone) {
        err := Some(error);
      }
    }
  }

  /** A buffered channel of messages. */
  class Queue {
    var items: seq<ChannelMessage>
    const capacity: nat

    ghost predicate Valid()
      reads this
    {
      |items| <= capacity && Distinct(items)
    }

    constructor (capacity: nat)
      ensures Valid() && items == [] && this.capacity == capacity
    {
      items, this.capacity := [], capacity;
    }

    /** Non-blocking receive. */
    method TryReceive() returns (m: Option<ChannelMessage>)
      requires Valid()
      modifies this
      ensures Valid()
      ensures if old(items) == [] then m.None? && items == [] else m == Some(old(items)[0]) && items == old(items)[1..]
    {
      if items == [] {
        return None;
      }
      m := Some(items[0]);
      items := items[1..];
    }

    /** Non-blocking send. */
    method TrySend(m: ChannelMessage) returns (sent: bool)
      requires Valid() && m !in items
      modifies this
      ensures Valid() && sent == (|old(items)| < capacity)
      ensures items == if sent then old(items) + [m] else old(items)
    {
      sent := |items| < capacity;
      if sent {
        items := items + [m];
      }
    }

    /** Takes every buffered message and answers it with `error`. */
    method AnswerAll(error: string, choose: nat -> bool) returns (answered: seq<ChannelMessage>)
      requires Valid() && forall m :: m in items ==> m.err.None?
      modifies this, items
      ensures Valid() && items == [] && answered == old(items)
      ensures forall m :: m in answered ==> Cancelled(m, error)
    {
      answered := [];
      ghost var all := items;
      while items != []
        invariant Valid() && answered + items == all
        invariant Distinct(all)
        invariant forall m :: m in answered ==> Cancelled(m, error)
        invariant forall m :: m in items ==> m.err.None?
        decreases |items|
      {
        var m := TryReceive();
        NotYetMoved(all, answered, m.value, items);
        assert all[|answered|] == m.value;
        m.value.Answer(error, choose(|answered|));
        answered := answered + [m.value];
      }
    }

    /** The sweep after the last worker has left. */
    method DrainWithErrors(choose: nat -> bool)
      requires Valid() && forall m :: m in items ==> m.err.None?
      modifies this, items
      ensures Valid() && items == []
      ensures forall m :: m in old(items) ==> Cancelled(m, SHUTTING_DOWN)
    {
      var swept := AnswerAll(SHUTTING_DOWN, choose);
    }
  }

  /** The message has its error, or its caller was gone and it may have been left without one. */
  ghost predicate Cancelled(m: ChannelMessage, error: string)
    reads m
  {
    m.err == Some(error) || (m.callerGone && m.err.None?)
  }

  /** How many messages fit. */
  function Room(have: nat, capacity: nat, arriving: nat): nat {
    if have + arriving <= capacity then arriving else if have <= capacity then capacity - have else 0
  }

  lemma NotYetMoved(all: seq<ChannelMessage>, moved: seq<ChannelMessage>, m: ChannelMessage, rest: seq<ChannelMessage>)
    requires moved + [m] + rest == all
    requires Distinct(all)
    ensures m in all && m !in moved && m !in rest
    ensures forall k :: k in rest ==> k in all && k !in moved
  {
    assert all[|moved|] == m;
    forall k | 0 <= k < |moved| ensures moved[k] != m { assert all[k] == moved[k]; }
    forall k | 0 <= k < |rest| ensures rest[k] != m && rest[k] in all && rest[k] !in moved {
      assert all[|moved| + 1 + k] == rest[k];
      forall j | 0 <= j < |moved| ensures moved[j] != rest[k] { assert all[j] == moved[j]; }
    }
  }

  /** The new queue is full: cancels this message and everything left in the old queue. */
  method CancelRest(prev: Queue, m: ChannelMessage, choose: nat -> bool) returns (cancelled: seq<ChannelMessage>)
    requires prev.Valid() && m !in prev.items && m.err.None? && forall k :: k in prev.items ==> k.err.None?
    modifies prev, prev.items, m
    ensures prev.Valid() && prev.items == [] && cancelled == [m] + old(prev.items)
    ensures forall k :: k in cancelled ==> Cancelled(k, QUEUE_FULL)
  {
    m.Answer(QUEUE_FULL, choose(0));
    var rest := prev.AnswerAll(QUEUE_FULL, (n: nat) => choose(n + 1));
    cancelled := [m] + rest;
  }

  ghost predicate Distinct(ms: seq<ChannelMessage>) {
    forall i, j :: 0 <= i < j < |ms| ==> ms[i] != ms[j]
  }

  /** Moves messages while they fit; `stuck` is the first that did not. */
  method MoveWhileRoom(prev: Queue, next: Queue) returns (moved: seq<ChannelMessage>, stuck: Option<ChannelMessage>)
    requires prev != next && prev.Valid() && next.Valid()
    requires forall m :: m in prev.items ==> m !in next.items
    modifies prev, next
    ensures prev.Valid() && next.Valid() && next.items == old(next.items) + moved
    ensures moved + (if stuck.Some? then [stuck.value] else []) + prev.items == old(prev.items)
    ensures if stuck.Some? then |next.items| >= next.capacity else prev.items == []
  {
    ghost var all, had := prev.items, next.items;
    assert Distinct(all);
    moved, stuck := [], None;
    while prev.items != []
      invariant prev.Valid() && next.Valid()
      invariant moved + prev.items == all && next.items == had + moved
      decreases |prev.items|
    {
      var m := prev.TryReceive();
      NotYetMoved(all, moved, m.value, prev.items);
      var sent := next.TrySend(m.value);
      if !sent {
        stuck := m;
        return;
      }
      moved := moved + [m.value];
    }
  }

  /**
   Moves the buffered messages to the new queue, in order, until it is full; that message and
   all later ones are cancelled.
   */
  method TransferBuffered(prev: Queue, next: Queue, choose: nat -> bool)
    returns (transferred: seq<ChannelMessage>, cancelled: seq<ChannelMessage>)
    requires prev != next && prev.Valid() && next.Valid()
    requires forall m :: m in prev.items ==> m.err.None? && m !in next.items
    modifies prev, next, prev.items
    ensures prev.Valid() && next.Valid() && prev.items == []
    ensures transferred + cancelled == old(prev.items)
    ensures |transferred| == Room(|old(next.items)|, next.capacity, |old(prev.items)|)
    ensures next.items == old(next.items) + transferred
    ensures forall m :: m in transferred ==> m.err.None?
    ensures forall m :: m in cancelled ==> Cancelled(m, QUEUE_FULL)
  {
    ghost var all := prev.items;
    assert Distinct(all);
    var stuck: Option<ChannelMessage>;
    transferred, stuck := MoveWhileRoom(prev, next);
    cancelled := [];
    if stuck.Some? {
      NotYetMoved(all, transferred, stuck.value, prev.items);
      assert forall i :: 0 <= i < |prev.items| ==> prev.items[i] == all[|transferred| + 1 + i];
      forall k | 0 <= k < |transferred| ensures transferred[k] != stuck.value && transferred[k] !in prev.items && transferred[k].err.None? {
        assert transferred[k] == all[k] && transferred[k] in transferred;
      }
      cancelled := CancelRest(prev, stuck.value, choose);
    }
  }
}
