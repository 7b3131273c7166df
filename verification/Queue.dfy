/** The bounded queue between the HTTP threads and the scheduler thread
    (src/core/request_queue.cpp). Every operation holds the mutex from start to finish, so any
    execution of any number of threads is some sequence of these operations; the waiting pop
    is the one that can only happen when there is a request or the queue is closed. */
module Queue {
  import opened Types

  datatype Q = Q(queue: seq<Request>, closed: bool)

  function Enqueue(capacity: nat, q: Q, r: Request): (Q, bool) {
    if q.closed || |q.queue| >= capacity then (q, false) else (q.(queue := q.queue + [r]), true)
  }

  function PopFront(q: Q): (Q, Option<Request>) {
    if q.queue == [] then (q, None) else (q.(queue := q.queue[1..]), Some(q.queue[0]))
  }

  predicate CanPop(q: Q) {
    q.queue != [] || q.closed
  }

  class RequestQueue {
    const capacity: nat
    var queue: seq<Request>
    var closed: bool

    ghost function View(): Q
      reads this
    {
      Q(queue, closed)
    }

    constructor (n: nat)
      ensures capacity == n && View() == Q([], false)
    {
      capacity, queue, closed := n, [], false;
    }

    method TryPush(r: Request) returns (ok: bool)
      modifies this
      ensures (View(), ok) == Enqueue(capacity, old(View()), r)
    {
      if closed || |queue| >= capacity {
        return false;
      }
      queue := queue + [r];
      ok := true;
    }

    /** Returns once the condition it waits for holds. */
    method Pop() returns (r: Option<Request>)
      requires CanPop(View())
      modifies this
      ensures (View(), r) == PopFront(old(View()))
      ensures r.None? <==> old(closed && queue == [])
    {
      if queue == [] {
        return None;
      }
      r := Some(queue[0]);
      queue := queue[1..];
    }

    method TryPop() returns (r: Option<Request>)
      modifies this
      ensures (View(), r) == PopFront(old(View()))
    {
      if queue == [] {
        return None;
      }
      r := Some(queue[0]);
      queue := queue[1..];
    }

    /** Ignores the capacity; only a closed queue refuses. */
    method PushFront(r: Request) returns (ok: bool)
      modifies this
      ensures ok == !old(closed) && closed == old(closed)
      ensures queue == if ok then [r] + old(queue) else old(queue)
    {
      if closed {
        return false;
      }
      queue := [r] + queue;
      ok := true;
    }

    method Close()
      modifies this
      ensures View() == old(View()).(closed := true)
    {
      closed := true;
    }
  }

  /* ---------------- every execution ---------------- */

  /** One completed call, with what it returned. */
  datatype Call =
    | Pushed(req: Request, ok: bool)
    | Popped(got: Option<Request>)
    | TriedPop(got: Option<Request>)
    | Closed

  /** The call is possible in `q` and takes it to `q'`. */
  predicate Does(capacity: nat, q: Q, c: Call, q': Q) {
    match c
    case Pushed(r, ok) => Enqueue(capacity, q, r) == (q', ok)
    case Popped(got) => CanPop(q) && PopFront(q) == (q', got)
    case TriedPop(got) => PopFront(q) == (q', got)
    case Closed => q' == q.(closed := true)
  }

  ghost predicate IsTrace(capacity: nat, states: seq<Q>, calls: seq<Call>) {
    && |states| == |calls| + 1 && states[0] == Q([], false)
    && forall i :: 0 <= i < |calls| ==> Does(capacity, states[i], calls[i], states[i + 1])
  }

  /** The requests a trace accepted, and those it handed out, each in order. */
  function Accepted(calls: seq<Call>): seq<Request> {
    if calls == [] then []
    else Accepted(DropLast(calls)) + (if Last(calls).Pushed? && Last(calls).ok then [Last(calls).req] else [])
  }

  function HandedOut(calls: seq<Call>): seq<Request> {
    if calls == [] then []
    else HandedOut(DropLast(calls)) +
         (if (Last(calls).Popped? || Last(calls).TriedPop?) && Last(calls).got.Some? then [Last(calls).got.value] else [])
  }

  lemma TracePrefix(capacity: nat, states: seq<Q>, calls: seq<Call>)
    requires IsTrace(capacity, states, calls) && calls != []
    ensures IsTrace(capacity, DropLast(states), DropLast(calls))
    ensures Does(capacity, Last(DropLast(states)), Last(calls), Last(states))
  {
  }

  /** FIFO AND LOSSLESS. In every execution what was handed out, followed by what is queued,
      is what was accepted, in order; and the queue never holds more than its capacity. */
  lemma {:induction false} NothingIsLostOrReordered(capacity: nat, states: seq<Q>, calls: seq<Call>)
    requires IsTrace(capacity, states, calls)
    ensures HandedOut(calls) + Last(states).queue == Accepted(calls)
    ensures |Last(states).queue| <= capacity
    ensures Last(states).closed <==> Closed in calls
    decreases |calls|
  {
    if calls != [] {
      TracePrefix(capacity, states, calls);
      NothingIsLostOrReordered(capacity, DropLast(states), DropLast(calls));
      var before, after := Last(DropLast(states)).queue, Last(states).queue;
      assert calls == DropLast(calls) + [Last(calls)];
      if (Last(calls).Popped? || Last(calls).TriedPop?) && Last(calls).got.Some? {
        assert before == [Last(calls).got.value] + after;
      }
    }
  }

  /** A waiting pop comes back empty-handed only after the close, with everything that was
      ever accepted handed out; and from then on nothing is accepted. */
  lemma EmptyHandedMeansDrained(capacity: nat, states: seq<Q>, calls: seq<Call>, i: nat)
    requires IsTrace(capacity, states, calls) && i < |calls| && calls[i] == Popped(None)
    ensures Closed in calls[..i] && HandedOut(calls[..i]) == Accepted(calls[..i])
    ensures Accepted(calls) == Accepted(calls[..i])
  {
    assert IsTrace(capacity, states[..i + 1], calls[..i]);
    NothingIsLostOrReordered(capacity, states[..i + 1], calls[..i]);
    assert Does(capacity, states[i], calls[i], states[i + 1]);
    NothingAfterClose(capacity, states, calls, i);
  }

  lemma {:induction false} NothingAfterClose(capacity: nat, states: seq<Q>, calls: seq<Call>, i: nat)
    requires IsTrace(capacity, states, calls) && i <= |calls| && states[i].closed
    ensures Last(states).closed && Accepted(calls) == Accepted(calls[..i])
    decreases |calls| - i
  {
    if i == |calls| {
      assert calls[..i] == calls;
    } else {
      assert Does(capacity, states[i], calls[i], states[i + 1]);
      assert DropLast(calls[..i + 1]) == calls[..i];
      NothingAfterClose(capacity, states, calls, i + 1);
    }
  }
}
