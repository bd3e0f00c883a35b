/**
 * The firmware's event pool, FIFO queue, handler registry and dispatch step
 * (firmware/event-queue.c).
 *
 * The C code keeps a static array of MAX_PENDING_EVENTS `struct event` slots.
 * A slot whose `source` is NULL is free; the occupied slots double as the
 * nodes of a singly linked FIFO reached from `events` (head) and
 * `events_tail` (tail). Here the slots are an array of `Slot` values and the
 * links are slot indices, with NIL standing for a NULL link. C addresses
 * (sources, handler objects, callbacks, contexts) are opaque addresses, and
 * the address 0 is NULL.
 *
 * Each ATOMIC_BLOCK section becomes a method body that runs without
 * interruption. The ghost view is the FIFO order of slot indices (`order`),
 * the payloads in that order (`Contents`) and the slot whose event is being
 * dispatched (`inFlight`): it is detached from the list but not yet free.
 */
module Events {
  import opened Util

  /** Number of slots in the static pool (MAX_PENDING_EVENTS). */
  const MAX_PENDING_EVENTS: int := 8

  /** Error numbers, returned negated as in the C code. */
  const ENOENT: int := 2
  const ENOMEM: int := 12
  const EINVAL: int := 22

  /** An opaque address; 0 is NULL. */
  type Addr = nat
  const NULL: Addr := 0

  /** A NULL link between slots. */
  const NIL: int := -1

  /** What an event carries: its source, its id and its value (`val.u`). */
  datatype Pending = Pending(source: Addr, id: bv8, val: bv32)

  /** One `struct event` of the pool: a link and the event's fields. */
  datatype Slot = Slot(next: int, source: Addr, id: bv8, val: bv32)
  {
    function Payload(): Pending
    {
      Pending(source, id, val)
    }
  }

  /** A zero-initialised slot, as the static storage starts. */
  const FREE_SLOT: Slot := Slot(NIL, NULL, 0, 0)

  /** One `struct event_handler`: its own address, the source it listens to,
      the id filter (mask and value), the callback and its context. The
      `next` link of the C struct is the handler's position in the registry. */
  datatype Handler = Handler(addr: Addr, source: Addr, mask: bv8, id: bv8, callback: Addr, context: Addr)

  /** One invocation `hdlr->handler(ev->id, ev->val, hdlr->context)`. */
  datatype Call = Call(callback: Addr, id: bv8, val: bv32, context: Addr)

  /** The filter of event_run_handlers: same source, and either no mask or
      the masked id equals the handler's id. */
  predicate Matches(h: Handler, e: Pending)
  {
    h.source == e.source && (h.mask == 0 || e.id & h.mask == h.id)
  }

  function CallFor(h: Handler, e: Pending): Call
  {
    Call(h.callback, e.id, e.val, h.context)
  }

  /** The calls made for event `e`, walking the registry from its head. */
  function Dispatch(hs: seq<Handler>, e: Pending): (calls: seq<Call>)
    ensures |calls| <= |hs|
  {
    if hs == [] then []
    else (if Matches(hs[0], e) then [CallFor(hs[0], e)] else []) + Dispatch(hs[1..], e)
  }

  /** Dispatch over a registry with one more handler at its end. */
  lemma DispatchLast(hs: seq<Handler>, h: Handler, e: Pending)
    ensures Dispatch(hs + [h], e) == Dispatch(hs, e) + (if Matches(h, e) then [CallFor(h, e)] else [])
  {
    DispatchInRegistryOrder(hs, [h], e);
    assert [h][1..] == [];
  }

  /** Dispatch over a registry split in two makes all the calls of the first
      part before any call of the second: calls follow registry order. */
  lemma {:induction false} DispatchInRegistryOrder(a: seq<Handler>, b: seq<Handler>, e: Pending)
    ensures Dispatch(a + b, e) == Dispatch(a, e) + Dispatch(b, e)
  {
    if a != [] {
      assert (a + b)[0] == a[0] && (a + b)[1..] == a[1..] + b;
      DispatchInRegistryOrder(a[1..], b, e);
    } else {
      assert a + b == b;
    }
  }

  /** A handler is called iff it matches the event, and every call belongs to
      a matching handler. */
  lemma {:induction false} DispatchCallsExactlyMatching(hs: seq<Handler>, e: Pending)
    ensures forall k :: 0 <= k < |hs| && Matches(hs[k], e) ==> CallFor(hs[k], e) in Dispatch(hs, e)
    ensures forall c :: c in Dispatch(hs, e) ==> exists k :: 0 <= k < |hs| && Matches(hs[k], e) && c == CallFor(hs[k], e)
  {
    if hs != [] {
      DispatchCallsExactlyMatching(hs[1..], e);
      forall c | c in Dispatch(hs, e)
        ensures exists k :: 0 <= k < |hs| && Matches(hs[k], e) && c == CallFor(hs[k], e)
      {
        if Matches(hs[0], e) && c == CallFor(hs[0], e) {
          assert Matches(hs[0], e) && c == CallFor(hs[0], e);
        } else {
          assert c in Dispatch(hs[1..], e);
          var k :| 0 <= k < |hs[1..]| && Matches(hs[1..][k], e) && c == CallFor(hs[1..][k], e);
          assert hs[k + 1] == hs[1..][k];
        }
      }
      forall k | 0 <= k < |hs| && Matches(hs[k], e)
        ensures CallFor(hs[k], e) in Dispatch(hs, e)
      {
        if k > 0 {
          assert hs[1..][k - 1] == hs[k];
        }
      }
    }
  }

  /** A queued event that event_remove(source, id) deletes. */
  predicate Cancelled(p: Pending, source: Addr, id: bv8)
  {
    p.source == source && p.id == id
  }

  /** The queue after event_remove(source, id): the survivors, in order. */
  function RemoveMatching(q: seq<Pending>, source: Addr, id: bv8): (r: seq<Pending>)
    ensures |r| <= |q|
  {
    if q == [] then []
    else (if Cancelled(q[0], source, id) then [] else [q[0]]) + RemoveMatching(q[1..], source, id)
  }

  lemma {:induction false} RemoveMatchingConcat(a: seq<Pending>, b: seq<Pending>, source: Addr, id: bv8)
    ensures RemoveMatching(a + b, source, id) == RemoveMatching(a, source, id) + RemoveMatching(b, source, id)
  {
    if a != [] {
      assert (a + b)[0] == a[0] && (a + b)[1..] == a[1..] + b;
      RemoveMatchingConcat(a[1..], b, source, id);
    } else {
      assert a + b == b;
    }
  }

  /** Removing a pair that matches nothing leaves the queue as it was. */
  lemma {:induction false} RemoveMatchingNothing(q: seq<Pending>, source: Addr, id: bv8)
    requires forall k :: 0 <= k < |q| ==> !Cancelled(q[k], source, id)
    ensures RemoveMatching(q, source, id) == q
  {
    if q != [] {
      RemoveMatchingNothing(q[1..], source, id);
    }
  }

  /** event_remove(source, id) keeps exactly the events it does not cancel:
      none of the survivors matches, and every event that does not match
      survives. */
  lemma {:induction false} RemoveMatchingMembers(q: seq<Pending>, source: Addr, id: bv8)
    ensures forall p :: p in RemoveMatching(q, source, id) ==> p in q && !Cancelled(p, source, id)
    ensures forall k :: 0 <= k < |q| && !Cancelled(q[k], source, id) ==> q[k] in RemoveMatching(q, source, id)
  {
    if q != [] {
      RemoveMatchingMembers(q[1..], source, id);
      var h := if Cancelled(q[0], source, id) then [] else [q[0]];
      assert RemoveMatching(q, source, id) == h + RemoveMatching(q[1..], source, id);
      forall k | 0 < k < |q|
        ensures q[k] == q[1..][k - 1]
      {
      }
    }
  }

  /** The slots of a FIFO (given by their indices) that event_remove(source,
      id) keeps, in order. */
  ghost function Survivors(s: seq<Slot>, q: seq<int>, source: Addr, id: bv8): (r: seq<int>)
    requires forall k :: 0 <= k < |q| ==> 0 <= q[k] < |s|
    ensures |r| <= |q|
  {
    if q == [] then []
    else (if Cancelled(s[q[0]].Payload(), source, id) then [] else [q[0]]) + Survivors(s, q[1..], source, id)
  }

  lemma {:induction false} SurvivorsConcat(s: seq<Slot>, a: seq<int>, b: seq<int>, source: Addr, id: bv8)
    requires forall k :: 0 <= k < |a| ==> 0 <= a[k] < |s|
    requires forall k :: 0 <= k < |b| ==> 0 <= b[k] < |s|
    ensures Survivors(s, a + b, source, id) == Survivors(s, a, source, id) + Survivors(s, b, source, id)
  {
    if a != [] {
      var h := if Cancelled(s[a[0]].Payload(), source, id) then [] else [a[0]];
      assert (a + b)[0] == a[0] && (a + b)[1..] == a[1..] + b;
      assert Survivors(s, a + b, source, id) == h + Survivors(s, a[1..] + b, source, id);
      SurvivorsConcat(s, a[1..], b, source, id);
      assert Survivors(s, a, source, id) == h + Survivors(s, a[1..], source, id);
    } else {
      assert a + b == b;
    }
  }

  /** Distinct indices below n are at most n of them: the pool cannot hold
      more than its number of slots. */
  lemma {:induction false} DistinctIndicesBound(q: seq<int>, n: nat)
    requires forall k :: 0 <= k < |q| ==> 0 <= q[k] < n
    requires forall j, k :: 0 <= j < k < |q| ==> q[j] != q[k]
    ensures |q| <= n
    decreases n
  {
    if q != [] {
      var x := q[|q| - 1];
      var p := q[..|q| - 1];
      assert x in q;
      var m: nat := n - 1;
      var p' := seq(|p|, k requires 0 <= k < |p| => if p[k] == m then x else p[k]);
      assert forall k :: 0 <= k < |p| ==> p[k] == q[k];
      DistinctIndicesBound(p', m);
    }
  }

  /** A registry the list code can walk: non-NULL entries, each registered once. */
  ghost predicate RegistryValid(hs: seq<Handler>)
  {
    && (forall k :: 0 <= k < |hs| ==> hs[k].addr != NULL && hs[k].source != NULL && hs[k].callback != NULL)
    && (forall j, k :: 0 <= j < k < |hs| ==> hs[j].addr != hs[k].addr)
  }

  predicate Registered(hs: seq<Handler>, addr: Addr)
  {
    exists k :: 0 <= k < |hs| && hs[k].addr == addr
  }

  /** Every queued slot is a pool index. */
  ghost predicate Bounded(order: seq<int>)
  {
    forall k :: 0 <= k < |order| ==> 0 <= order[k] < MAX_PENDING_EVENTS
  }

  /** `pos` gives each queued slot its place in the FIFO, so no slot is
      queued twice. */
  ghost predicate Indices(order: seq<int>, pos: seq<int>)
  {
    && |pos| == MAX_PENDING_EVENTS
    && Bounded(order)
    && forall k :: 0 <= k < |order| ==> pos[order[k]] == k
  }

  /** Slot i is in the FIFO. */
  ghost predicate Queued(order: seq<int>, pos: seq<int>, i: int)
    requires |pos| == MAX_PENDING_EVENTS && 0 <= i < MAX_PENDING_EVENTS
  {
    0 <= pos[i] < |order| && order[pos[i]] == i
  }

  /** `events` is the first slot of the FIFO and `events_tail` the last. */
  ghost predicate Ends(order: seq<int>, head: int, tail: int)
  {
    && head == (if order == [] then NIL else order[0])
    && tail == (if order == [] then NIL else order[|order| - 1])
  }

  /** Each queued slot links to its successor, the last one to NIL. */
  ghost predicate Links(s: seq<Slot>, order: seq<int>)
    requires |s| == MAX_PENDING_EVENTS && Bounded(order)
  {
    forall k {:trigger s[order[k]]} :: 0 <= k < |order| ==>
      s[order[k]].next == (if k + 1 < |order| then order[k + 1] else NIL)
  }

  /** The queued slots hold the queued events, in order. */
  ghost predicate Payloads(s: seq<Slot>, order: seq<int>, contents: seq<Pending>)
    requires |s| == MAX_PENDING_EVENTS && Bounded(order)
  {
    && |contents| == |order|
    && (forall k {:trigger contents[k]} :: 0 <= k < |order| ==> contents[k] == s[order[k]].Payload())
  }

  /** A slot is occupied exactly when it is queued or being dispatched; the
      slot in dispatch and every free slot have a NULL link. */
  ghost predicate Occupancy(s: seq<Slot>, order: seq<int>, pos: seq<int>, inFlight: int)
    requires |s| == MAX_PENDING_EVENTS && |pos| == MAX_PENDING_EVENTS
  {
    && (inFlight == NIL ||
          (0 <= inFlight < MAX_PENDING_EVENTS && !Queued(order, pos, inFlight) && s[inFlight].next == NIL))
    && (forall i :: 0 <= i < MAX_PENDING_EVENTS ==>
          (s[i].source != NULL <==> Queued(order, pos, i) || i == inFlight))
    && (forall i :: 0 <= i < MAX_PENDING_EVENTS && s[i].source == NULL ==> s[i].next == NIL)
  }

  /** How the pool `s` holds the FIFO `order` (slot indices, head first,
      located by `pos`) with payloads `contents`, the in-dispatch slot
      `inFlight` and the `head` and `tail` links. */
  ghost predicate QueueShape(s: seq<Slot>, order: seq<int>, pos: seq<int>, contents: seq<Pending>,
                             inFlight: int, head: int, tail: int)
  {
    && |s| == MAX_PENDING_EVENTS
    && Indices(order, pos)
    && Ends(order, head, tail)
    && Links(s, order)
    && Payloads(s, order, contents)
    && Occupancy(s, order, pos, inFlight)
  }

  /** Places in the FIFO once the entry at position m has left it: the
      entries behind it move up by one. */
  function Shifted(pos: seq<int>, m: int): (r: seq<int>)
    ensures |r| == |pos|
    ensures forall i :: 0 <= i < |pos| ==> r[i] == (if pos[i] > m then pos[i] - 1 else pos[i])
  {
    seq(|pos|, i requires 0 <= i < |pos| => if pos[i] > m then pos[i] - 1 else pos[i])
  }

  /** Removing position m from the FIFO keeps every other slot's membership. */
  lemma QueuedAfterRemove(order: seq<int>, pos: seq<int>, m: int, i: int)
    requires Indices(order, pos) && 0 <= m < |order| && 0 <= i < MAX_PENDING_EVENTS
    ensures Indices(order[..m] + order[m + 1..], Shifted(pos, m))
    ensures i != order[m] ==>
              (Queued(order[..m] + order[m + 1..], Shifted(pos, m), i) <==> Queued(order, pos, i))
    ensures !Queued(order[..m] + order[m + 1..], Shifted(pos, m), order[m])
  {
    var o' := order[..m] + order[m + 1..];
    var p' := Shifted(pos, m);
    assert forall k :: 0 <= k < |o'| ==> o'[k] == (if k < m then order[k] else order[k + 1]);
    if 0 <= pos[i] < |order| {
      if pos[i] > m {
        assert o'[p'[i]] == order[pos[i]];
      } else if pos[i] < m {
        assert o'[p'[i]] == order[pos[i]];
      } else if m + 1 < |order| {
        assert o'[m] == order[m + 1] && pos[order[m + 1]] == m + 1;
      }
    }
    var ev := order[m];
    if m + 1 < |order| {
      assert o'[m] == order[m + 1] && pos[order[m + 1]] == m + 1;
    }
  }

  /** Detaching the head keeps the links and payloads of the rest. */
  lemma DetachLinks(s: seq<Slot>, order: seq<int>, pos: seq<int>, contents: seq<Pending>)
    requires |s| == MAX_PENDING_EVENTS && Indices(order, pos) && order != []
    requires Links(s, order) && Payloads(s, order, contents)
    ensures var ev := order[0];
            && Links(s[ev := s[ev].(next := NIL)], order[1..])
            && Payloads(s[ev := s[ev].(next := NIL)], order[1..], contents[1..])
  {
    var ev := order[0];
    var s' := s[ev := s[ev].(next := NIL)];
    var o' := order[1..];
    forall k | 0 <= k < |o'|
      ensures s'[o'[k]].next == (if k + 1 < |o'| then o'[k + 1] else NIL)
      ensures contents[1..][k] == s'[o'[k]].Payload()
    {
      assert o'[k] == order[k + 1] && pos[order[k + 1]] == k + 1;
    }
  }

  /** Detaching the head keeps occupancy, with the old head now in dispatch. */
  lemma DetachOccupancy(s: seq<Slot>, order: seq<int>, pos: seq<int>)
    requires |s| == MAX_PENDING_EVENTS && Indices(order, pos) && order != []
    requires Occupancy(s, order, pos, NIL)
    ensures var ev := order[0];
            Occupancy(s[ev := s[ev].(next := NIL)], order[1..], Shifted(pos, 0), ev)
  {
    var ev := order[0];
    var s' := s[ev := s[ev].(next := NIL)];
    var o' := order[1..];
    var p' := Shifted(pos, 0);
    assert order[..0] + order[1..] == o';
    QueuedAfterRemove(order, pos, 0, ev);
    forall i | 0 <= i < MAX_PENDING_EVENTS
      ensures s'[i].source != NULL <==> Queued(o', p', i) || i == ev
    {
      QueuedAfterRemove(order, pos, 0, i);
    }
  }

  /** Detaching the head keeps the shape, with the old head now in dispatch. */
  lemma DetachShape(s: seq<Slot>, order: seq<int>, pos: seq<int>, contents: seq<Pending>, head: int, tail: int)
    requires QueueShape(s, order, pos, contents, NIL, head, tail) && order != []
    ensures var ev := order[0];
            QueueShape(s[ev := s[ev].(next := NIL)], order[1..], Shifted(pos, 0), contents[1..], ev,
                       s[ev].next, if s[ev].next == NIL then NIL else tail)
  {
    assert order[..0] + order[1..] == order[1..];
    QueuedAfterRemove(order, pos, 0, order[0]);
    DetachLinks(s, order, pos, contents);
    DetachOccupancy(s, order, pos);
  }

  /** Filling the free slot `ev` with `p` and linking it after the tail
      keeps the links and payloads, with `ev` as the new last element. */
  lemma AddLinks(s: seq<Slot>, order: seq<int>, pos: seq<int>, contents: seq<Pending>, tail: int, ev: int, p: Pending)
    requires |s| == MAX_PENDING_EVENTS && Indices(order, pos) && Links(s, order) && Payloads(s, order, contents)
    requires tail == (if order == [] then NIL else order[|order| - 1])
    requires 0 <= ev < MAX_PENDING_EVENTS && !Queued(order, pos, ev)
    ensures var s1 := s[ev := Slot(NIL, p.source, p.id, p.val)];
            var s2 := if tail != NIL then s1[tail := s1[tail].(next := ev)] else s1;
            && Indices(order + [ev], pos[ev := |order|])
            && Links(s2, order + [ev])
            && Payloads(s2, order + [ev], contents + [p])
  {
    var s1 := s[ev := Slot(NIL, p.source, p.id, p.val)];
    var s2 := if tail != NIL then s1[tail := s1[tail].(next := ev)] else s1;
    var o' := order + [ev];
    assert forall k :: 0 <= k < |order| ==> o'[k] == order[k] != ev;
    forall k | 0 <= k < |o'|
      ensures s2[o'[k]].next == (if k + 1 < |o'| then o'[k + 1] else NIL)
      ensures (contents + [p])[k] == s2[o'[k]].Payload()
    {
      if k < |order| {
        assert o'[k] == order[k] != ev;
      }
    }
  }

  /** Filling the free slot `ev` and linking it after the tail keeps
      occupancy, with `ev` now queued. */
  lemma AddOccupancy(s: seq<Slot>, order: seq<int>, pos: seq<int>, inFlight: int, tail: int, ev: int, p: Pending)
    requires |s| == MAX_PENDING_EVENTS && Indices(order, pos) && Occupancy(s, order, pos, inFlight)
    requires tail == (if order == [] then NIL else order[|order| - 1])
    requires 0 <= ev < MAX_PENDING_EVENTS && s[ev].source == NULL && p.source != NULL
    ensures !Queued(order, pos, ev)
    ensures var s1 := s[ev := Slot(NIL, p.source, p.id, p.val)];
            var s2 := if tail != NIL then s1[tail := s1[tail].(next := ev)] else s1;
            Occupancy(s2, order + [ev], pos[ev := |order|], inFlight)
  {
    var s1 := s[ev := Slot(NIL, p.source, p.id, p.val)];
    var s2 := if tail != NIL then s1[tail := s1[tail].(next := ev)] else s1;
    var o' := order + [ev];
    var p' := pos[ev := |order|];
    assert tail != NIL ==> pos[tail] == |order| - 1 && Queued(order, pos, tail);
    forall i | 0 <= i < MAX_PENDING_EVENTS
      ensures s2[i].source != NULL <==> Queued(o', p', i) || i == inFlight
    {
      if i != ev && 0 <= pos[i] < |order| {
        assert o'[pos[i]] == order[pos[i]];
      }
    }
  }

  /** The shape depends on the pool's contents only. */
  lemma SameShape(s: seq<Slot>, order: seq<int>, pos: seq<int>, contents: seq<Pending>, inFlight: int,
                  head: int, tail: int, s': seq<Slot>)
    requires QueueShape(s, order, pos, contents, inFlight, head, tail) && s' == s
    ensures QueueShape(s', order, pos, contents, inFlight, head, tail)
  {
  }

  /** Filling the free slot `ev` with `p` and linking it after the tail
      keeps the shape, with `ev` as the new last element. */
  lemma AddShape(s: seq<Slot>, order: seq<int>, pos: seq<int>, contents: seq<Pending>, inFlight: int,
                 head: int, tail: int, ev: int, p: Pending)
    requires QueueShape(s, order, pos, contents, inFlight, head, tail)
    requires 0 <= ev < MAX_PENDING_EVENTS && s[ev].source == NULL && p.source != NULL
    ensures QueueShape(Appended(s, tail, ev, p), order + [ev], pos[ev := |order|], contents + [p], inFlight,
                       if tail != NIL then head else ev, ev)
  {
    AddOccupancy(s, order, pos, inFlight, tail, ev, p);
    AddLinks(s, order, pos, contents, tail, ev, p);
  }

  /** The pool after filling the free slot `ev` with `p` and linking it
      after the old `tail`, if any. */
  function Appended(s: seq<Slot>, tail: int, ev: int, p: Pending): (r: seq<Slot>)
    requires |s| == MAX_PENDING_EVENTS && 0 <= ev < MAX_PENDING_EVENTS
    requires tail == NIL || 0 <= tail < MAX_PENDING_EVENTS
    ensures |r| == MAX_PENDING_EVENTS
  {
    var s1 := s[ev := Slot(NIL, p.source, p.id, p.val)];
    if tail != NIL then s1[tail := s1[tail].(next := ev)] else s1
  }

  /** The pool after unlinking and freeing the queued slot at position m:
      its predecessor (if any) takes over its link, and it becomes free. */
  function Unlinked(s: seq<Slot>, order: seq<int>, m: int): (r: seq<Slot>)
    requires |s| == MAX_PENDING_EVENTS && Bounded(order) && 0 <= m < |order|
    ensures |r| == MAX_PENDING_EVENTS
  {
    var ev, next := order[m], s[order[m]].next;
    var s1 := if m > 0 then s[order[m - 1] := s[order[m - 1]].(next := next)] else s;
    s1[ev := s1[ev].(next := NIL, source := NULL)]
  }

  /** Slot by slot: the unlinked slot is freed with a NIL link, its
      predecessor links past it, and no other slot changes. */
  lemma UnlinkedAt(s: seq<Slot>, order: seq<int>, m: int)
    requires |s| == MAX_PENDING_EVENTS && Bounded(order) && 0 <= m < |order|
    ensures var r := Unlinked(s, order, m);
            && r[order[m]] == s[order[m]].(next := NIL, source := NULL)
            && (m > 0 && order[m - 1] != order[m] ==> r[order[m - 1]] == s[order[m - 1]].(next := s[order[m]].next))
            && (forall i :: 0 <= i < MAX_PENDING_EVENTS && i != order[m] && (m == 0 || i != order[m - 1]) ==>
                  r[i] == s[i])
  {
  }

  lemma RemoveLinks(s: seq<Slot>, order: seq<int>, pos: seq<int>, m: int)
    requires |s| == MAX_PENDING_EVENTS && Indices(order, pos) && Links(s, order)
    requires 0 <= m < |order|
    ensures Indices(order[..m] + order[m + 1..], Shifted(pos, m))
    ensures Links(Unlinked(s, order, m), order[..m] + order[m + 1..])
  {
    QueuedAfterRemove(order, pos, m, order[m]);
    UnlinkedAt(s, order, m);
    var s2 := Unlinked(s, order, m);
    var o' := order[..m] + order[m + 1..];
    var ev := order[m];
    forall k | 0 <= k < |o'|
      ensures s2[o'[k]].next == (if k + 1 < |o'| then o'[k + 1] else NIL)
    {
      if k < m - 1 {
        assert o'[k] == order[k] && o'[k + 1] == order[k + 1];
        assert s2[order[k]] == s[order[k]];
      } else if k == m - 1 {
        assert o'[k] == order[k];
        assert s2[order[k]].next == s[ev].next;
      } else {
        assert o'[k] == order[k + 1];
        assert s2[order[k + 1]] == s[order[k + 1]];
      }
    }
  }

  lemma RemovePayloads(s: seq<Slot>, order: seq<int>, pos: seq<int>, contents: seq<Pending>, m: int)
    requires |s| == MAX_PENDING_EVENTS && Indices(order, pos) && Payloads(s, order, contents)
    requires 0 <= m < |order|
    ensures Indices(order[..m] + order[m + 1..], Shifted(pos, m))
    ensures Payloads(Unlinked(s, order, m), order[..m] + order[m + 1..], contents[..m] + contents[m + 1..])
  {
    QueuedAfterRemove(order, pos, m, order[m]);
    UnlinkedAt(s, order, m);
    var s2 := Unlinked(s, order, m);
    var o' := order[..m] + order[m + 1..];
    var c' := contents[..m] + contents[m + 1..];
    forall k | 0 <= k < |o'|
      ensures c'[k] == s2[o'[k]].Payload()
    {
      var j := if k < m then k else k + 1;
      assert c'[k] == contents[j];
      assert o'[k] == order[j] != order[m];
      assert s2[order[j]].Payload() == s[order[j]].Payload();
    }
  }

  lemma RemoveOccupancy(s: seq<Slot>, order: seq<int>, pos: seq<int>, inFlight: int, m: int)
    requires |s| == MAX_PENDING_EVENTS && Indices(order, pos) && Occupancy(s, order, pos, inFlight)
    requires 0 <= m < |order|
    ensures Occupancy(Unlinked(s, order, m), order[..m] + order[m + 1..], Shifted(pos, m), inFlight)
  {
    UnlinkedAt(s, order, m);
    var s2 := Unlinked(s, order, m);
    var o' := order[..m] + order[m + 1..];
    var p' := Shifted(pos, m);
    forall i | 0 <= i < MAX_PENDING_EVENTS
      ensures s2[i].source != NULL <==> Queued(o', p', i) || i == inFlight
    {
      QueuedAfterRemove(order, pos, m, i);
    }
    if inFlight != NIL {
      QueuedAfterRemove(order, pos, m, inFlight);
    }
  }

  /** Unlinking and freeing the queued slot at position m keeps the shape,
      for the list without that position. */
  lemma RemoveShape(s: seq<Slot>, order: seq<int>, pos: seq<int>, contents: seq<Pending>, inFlight: int,
                    head: int, tail: int, m: int, head': int, tail': int)
    requires QueueShape(s, order, pos, contents, inFlight, head, tail)
    requires 0 <= m < |order|
    requires head' == (if m == 0 then s[order[m]].next else head)
    requires tail' == (if s[order[m]].next != NIL then tail else if m == 0 then NIL else order[m - 1])
    ensures QueueShape(Unlinked(s, order, m), order[..m] + order[m + 1..], Shifted(pos, m),
                       contents[..m] + contents[m + 1..], inFlight, head', tail')
  {
    RemoveLinks(s, order, pos, m);
    RemovePayloads(s, order, pos, contents, m);
    RemoveOccupancy(s, order, pos, inFlight, m);
  }

  /** Where event_remove(source, id) stands after examining the first k
      slots q0[..k] of the FIFO it started from (pool s0, events c0): the
      survivors so far are still linked, ahead of the unexamined rest, and
      neither the unexamined slots nor the slot in dispatch have changed. */
  ghost predicate RemoveProgress(s0: seq<Slot>, q0: seq<int>, p0: seq<int>, c0: seq<Pending>, inFlight: int, source: Addr, id: bv8,
                                 k: int, kept: seq<int>, s: seq<Slot>, order: seq<int>, contents: seq<Pending>)
  {
    && |s0| == MAX_PENDING_EVENTS && |s| == MAX_PENDING_EVENTS
    && Indices(q0, p0) && Payloads(s0, q0, c0)
    && 0 <= k <= |q0|
    && order == kept + q0[k..]
    && kept == Survivors(s0, q0[..k], source, id)
    && contents == RemoveMatching(c0[..k], source, id) + c0[k..]
    && (forall j {:trigger s[q0[j]]} :: k <= j < |q0| ==> s[q0[j]] == s0[q0[j]])
    && (inFlight == NIL ||
          (0 <= inFlight < MAX_PENDING_EVENTS && s[inFlight] == s0[inFlight]
           && forall j :: 0 <= j < |q0| ==> q0[j] != inFlight))
  }

  /** Once every queued slot has been examined, the queue is the survivors
      and the contents are the events left by the cancellation. */
  lemma RemoveDone(s0: seq<Slot>, q0: seq<int>, p0: seq<int>, c0: seq<Pending>, inFlight: int, source: Addr, id: bv8,
                   kept: seq<int>, s: seq<Slot>, order: seq<int>, contents: seq<Pending>)
    requires RemoveProgress(s0, q0, p0, c0, inFlight, source, id, |q0|, kept, s, order, contents)
    ensures contents == RemoveMatching(c0, source, id)
    ensures order == Survivors(s0, q0, source, id)
  {
    assert c0[..|c0|] == c0;
    assert q0[..|q0|] == q0;
    assert q0[|q0|..] == [] && c0[|q0|..] == [];
  }

  /** The slot examined next survives: it joins the kept prefix. */
  lemma KeepStep(s0: seq<Slot>, q0: seq<int>, p0: seq<int>, c0: seq<Pending>, inFlight: int, source: Addr, id: bv8,
                 k: int, kept: seq<int>, s: seq<Slot>, order: seq<int>, contents: seq<Pending>)
    requires RemoveProgress(s0, q0, p0, c0, inFlight, source, id, k, kept, s, order, contents)
    requires k < |q0| && !Cancelled(s[q0[k]].Payload(), source, id)
    ensures RemoveProgress(s0, q0, p0, c0, inFlight, source, id, k + 1, kept + [q0[k]], s, order, contents)
  {
    var kept' := kept + [q0[k]];
    assert q0[k..] == [q0[k]] + q0[k + 1..];
    AppendAssociative(kept, [q0[k]], q0[k + 1..]);
    assert order == kept' + q0[k + 1..];
    assert s[q0[k]] == s0[q0[k]] && c0[k] == s0[q0[k]].Payload();
    KeepSurvivor(s0, q0, c0, source, id, k);
    KeepContents(c0, source, id, k, contents);
  }

  /** The kept prefix grows by the surviving slot. */
  lemma KeepSurvivor(s0: seq<Slot>, q0: seq<int>, c0: seq<Pending>, source: Addr, id: bv8, k: int)
    requires |s0| == MAX_PENDING_EVENTS && Bounded(q0) && Payloads(s0, q0, c0)
    requires 0 <= k < |q0| && !Cancelled(c0[k], source, id)
    ensures Survivors(s0, q0[..k + 1], source, id) == Survivors(s0, q0[..k], source, id) + [q0[k]]
  {
    assert q0[..k + 1] == q0[..k] + [q0[k]];
    assert c0[k] == s0[q0[k]].Payload();
    SurvivorsConcat(s0, q0[..k], [q0[k]], source, id);
    assert Survivors(s0, [q0[k]], source, id) == [q0[k]];
  }

  /** The events seen so far gain the surviving one. */
  lemma KeepContents(c0: seq<Pending>, source: Addr, id: bv8, k: int, contents: seq<Pending>)
    requires 0 <= k < |c0| && !Cancelled(c0[k], source, id)
    requires contents == RemoveMatching(c0[..k], source, id) + c0[k..]
    ensures contents == RemoveMatching(c0[..k + 1], source, id) + c0[k + 1..]
  {
    assert c0[..k + 1] == c0[..k] + [c0[k]];
    RemoveMatchingConcat(c0[..k], [c0[k]], source, id);
    assert RemoveMatching([c0[k]], source, id) == [c0[k]];
    assert c0[k..] == [c0[k]] + c0[k + 1..];
    AppendAssociative(RemoveMatching(c0[..k], source, id), [c0[k]], c0[k + 1..]);
  }

  /** The state after the unlink of a cancelled slot, given by the pool,
      order and contents it leaves. */
  lemma DroppedState(s0: seq<Slot>, q0: seq<int>, p0: seq<int>, c0: seq<Pending>, inFlight: int, source: Addr, id: bv8,
                     k: int, kept: seq<int>, s: seq<Slot>, order: seq<int>, contents: seq<Pending>, pk: int,
                     s': seq<Slot>, order': seq<int>, contents': seq<Pending>)
    requires RemoveProgress(s0, q0, p0, c0, inFlight, source, id, k, kept, s, order, contents)
    requires k < |q0| && Cancelled(s[q0[k]].Payload(), source, id)
    requires Bounded(order) && |contents| == |order| && |kept| < |order|
    requires kept != [] ==> 0 <= pk < k && kept[|kept| - 1] == q0[pk]
    requires s' == Unlinked(s, order, |kept|)
    requires order' == order[..|kept|] + order[|kept| + 1..] && contents' == contents[..|kept|] + contents[|kept| + 1..]
    ensures RemoveProgress(s0, q0, p0, c0, inFlight, source, id, k + 1, kept, s', order', contents')
  {
    DropStep(s0, q0, p0, c0, inFlight, source, id, k, kept, s, order, contents, pk);
  }

  /** The slot examined next is cancelled: it is unlinked and freed. */
  lemma DropStep(s0: seq<Slot>, q0: seq<int>, p0: seq<int>, c0: seq<Pending>, inFlight: int, source: Addr, id: bv8,
                 k: int, kept: seq<int>, s: seq<Slot>, order: seq<int>, contents: seq<Pending>, pk: int)
    requires RemoveProgress(s0, q0, p0, c0, inFlight, source, id, k, kept, s, order, contents)
    requires k < |q0| && Cancelled(s[q0[k]].Payload(), source, id)
    requires Bounded(order) && |contents| == |order|
    requires kept != [] ==> 0 <= pk < k && kept[|kept| - 1] == q0[pk]
    ensures var m := |kept|;
            m < |order| &&
            RemoveProgress(s0, q0, p0, c0, inFlight, source, id, k + 1, kept, Unlinked(s, order, m),
                           order[..m] + order[m + 1..], contents[..m] + contents[m + 1..])
  {
    var m := |kept|;
    DropStepSeqs(s0, q0, p0, c0, inFlight, source, id, k, kept, s, order, contents);
    UnlinkedAt(s, order, m);
    var s' := Unlinked(s, order, m);
    assert order[m] == q0[k];
    assert m > 0 ==> order[m - 1] == q0[pk];
    forall j | k + 1 <= j < |q0|
      ensures s'[q0[j]] == s0[q0[j]]
    {
      assert q0[j] != q0[k] && (m > 0 ==> q0[j] != q0[pk]);
    }
    assert inFlight != NIL ==> inFlight != q0[k] && (m > 0 ==> inFlight != q0[pk]);
  }

  lemma DropStepSeqs(s0: seq<Slot>, q0: seq<int>, p0: seq<int>, c0: seq<Pending>, inFlight: int, source: Addr, id: bv8,
                     k: int, kept: seq<int>, s: seq<Slot>, order: seq<int>, contents: seq<Pending>)
    requires RemoveProgress(s0, q0, p0, c0, inFlight, source, id, k, kept, s, order, contents)
    requires k < |q0| && Cancelled(s[q0[k]].Payload(), source, id)
    requires |contents| == |order|
    ensures var m := |kept|;
            && m < |order|
            && order[..m] + order[m + 1..] == kept + q0[k + 1..]
            && kept == Survivors(s0, q0[..k + 1], source, id)
            && contents[..m] + contents[m + 1..] == RemoveMatching(c0[..k + 1], source, id) + c0[k + 1..]
  {
    var m := |kept|;
    var r := RemoveMatching(c0[..k], source, id);
    assert |r| == m;
    assert c0[k] == s0[q0[k]].Payload();
    assert q0[..k + 1] == q0[..k] + [q0[k]];
    assert c0[..k + 1] == c0[..k] + [c0[k]];
    RemoveMatchingConcat(c0[..k], [c0[k]], source, id);
    assert RemoveMatching([c0[k]], source, id) == [];
    SurvivorsConcat(s0, q0[..k], [q0[k]], source, id);
    assert Survivors(s0, [q0[k]], source, id) == [];
    assert order[..m] == kept && order[m + 1..] == q0[k + 1..];
    assert contents[..m] == r && contents[m + 1..] == c0[k + 1..];
  }

  class EventQueue {
    /** events_storage */
    var slots: array<Slot>
    /** events and events_tail */
    var head: int
    var tail: int
    /** handlers, head first */
    var handlers: seq<Handler>

    /** Slot indices in FIFO order, head first. */
    ghost var order: seq<int>
    /** The queued events, head first. */
    ghost var Contents: seq<Pending>
    /** The place of each queued slot in `order`. */
    ghost var pos: seq<int>
    /** The slot detached by event_loop_run_once whose handlers are running, or NIL. */
    ghost var inFlight: int

    ghost predicate Valid()
      reads this, slots
    {
      && slots.Length == MAX_PENDING_EVENTS
      && QueueShape(slots[..], order, pos, Contents, inFlight, head, tail)
      && RegistryValid(handlers)
    }

    /** No free slot is left. */
    predicate Full()
      reads this, slots
      requires slots.Length == MAX_PENDING_EVENTS
    {
      forall i :: 0 <= i < MAX_PENDING_EVENTS ==> slots[i].source != NULL
    }

    /** The zero-initialised static state. */
    constructor ()
      ensures Valid() && fresh(slots)
      ensures Contents == [] && handlers == [] && inFlight == NIL
      ensures forall i :: 0 <= i < MAX_PENDING_EVENTS ==> slots[i] == FREE_SLOT
    {
      slots := new Slot[MAX_PENDING_EVENTS](_ => FREE_SLOT);
      head, tail := NIL, NIL;
      handlers := [];
      order, Contents, inFlight := [], [], NIL;
      pos := seq(MAX_PENDING_EVENTS, _ => NIL);
    }

    /** Events queued plus the one in dispatch never exceed the pool size. */
    lemma InFlightBound()
      requires Valid()
      ensures |Contents| + (if inFlight == NIL then 0 else 1) <= MAX_PENDING_EVENTS
    {
      if inFlight == NIL {
        DistinctIndicesBound(order, MAX_PENDING_EVENTS);
      } else {
        var all := order + [inFlight];
        assert forall k :: 0 <= k < |order| ==> all[k] == order[k];
        DistinctIndicesBound(all, MAX_PENDING_EVENTS);
      }
    }

    /** The scan at the top of event_add: the lowest free slot, or NIL when
        every slot is taken. */
    method FindFree() returns (ev: int)
      requires slots.Length == MAX_PENDING_EVENTS
      ensures ev == NIL <==> Full()
      ensures ev != NIL ==>
        0 <= ev < MAX_PENDING_EVENTS && slots[ev].source == NULL
        && forall i :: 0 <= i < ev ==> slots[i].source != NULL
    {
      ev := NIL;
      var i := 0;
      while i < MAX_PENDING_EVENTS
        invariant 0 <= i <= MAX_PENDING_EVENTS
        invariant forall j :: 0 <= j < i ==> slots[j].source != NULL
      {
        if slots[i].source == NULL {
          return i;
        }
        i := i + 1;
      }
    }

    /** The body of event_add once a free slot is found: fill the slot and
        link it after the current tail (or make it the head of an empty
        FIFO). */
    method Append(ev: int, p: Pending)
      requires Valid()
      requires 0 <= ev < MAX_PENDING_EVENTS && slots[ev].source == NULL && p.source != NULL
      modifies this, slots
      ensures Valid() && slots == old(slots)
      ensures handlers == old(handlers) && inFlight == old(inFlight)
      ensures order == old(order) + [ev] && Contents == old(Contents) + [p] && tail == ev
      ensures slots[..][ev] == Slot(NIL, p.source, p.id, p.val)
      ensures forall i :: 0 <= i < MAX_PENDING_EVENTS && i != ev && i != old(tail) ==>
                slots[..][i] == old(slots[..])[i]
    {
      ghost var s0, o0, p0, c0, h0, t0 := slots[..], order, pos, Contents, head, tail;
      AppendSlots(ev, p);
      head := if tail != NIL then head else ev;
      tail := ev;
      order, pos, Contents := o0 + [ev], p0[ev := |o0|], c0 + [p];
      AddShape(s0, o0, p0, c0, inFlight, h0, t0, ev, p);
    }

    /** The two writes of an append: `ev` is filled with a NIL link, and the
        old tail, if any, links to it. */
    method AppendSlots(ev: int, p: Pending)
      requires slots.Length == MAX_PENDING_EVENTS && 0 <= ev < MAX_PENDING_EVENTS
      requires tail == NIL || (0 <= tail < MAX_PENDING_EVENTS && tail != ev)
      modifies slots
      ensures slots[..] == Appended(old(slots[..]), tail, ev, p)
    {
      ghost var s1 := slots[..][ev := Slot(NIL, p.source, p.id, p.val)];
      slots[ev] := Slot(NIL, p.source, p.id, p.val);
      assert slots[..] == s1;
      if tail != NIL {
        slots[tail] := slots[tail].(next := ev);
      }
    }

    /** event_add: take the lowest free slot, fill it and link it at the tail. */
    method Add(source: Addr, id: bv8, val: bv32) returns (ret: int)
      requires Valid()
      modifies this, slots
      ensures Valid() && slots == old(slots)
      ensures handlers == old(handlers) && inFlight == old(inFlight)
      ensures ret == -EINVAL <==> source == NULL
      ensures ret == -ENOMEM <==> source != NULL && old(Full())
      ensures ret == 0 <==> source != NULL && !old(Full())
      ensures ret != 0 ==>
        order == old(order) && Contents == old(Contents) && slots[..] == old(slots[..])
        && head == old(head) && tail == old(tail)
      ensures ret == 0 ==> Contents == old(Contents) + [Pending(source, id, val)]
      ensures ret == 0 ==>
        0 <= tail < MAX_PENDING_EVENTS && order == old(order) + [tail] && tail != inFlight
        && old(slots[..])[tail].source == NULL
        && (forall i :: 0 <= i < tail ==> old(slots[..])[i].source != NULL)
        && (forall i :: 0 <= i < MAX_PENDING_EVENTS && i != tail && i != old(tail) ==>
              slots[..][i] == old(slots[..])[i])
    {
      if source == NULL {
        return -EINVAL;
      }
      ghost var s0 := slots[..];
      var ev := FindFree();
      assert slots[..] == s0;
      if ev == NIL {
        return -ENOMEM;
      }
      Append(ev, Pending(source, id, val));
      ret := 0;
    }

    /** One step of event_remove: unlink the queued slot at position m of
        the FIFO, whose predecessor is prev, and free it. */
    method Unlink(ghost m: int, prev: int, ev: int)
      requires Valid() && 0 <= m < |order|
      requires ev == order[m] && prev == (if m == 0 then NIL else order[m - 1])
      modifies this, slots
      ensures Valid() && slots == old(slots)
      ensures handlers == old(handlers) && inFlight == old(inFlight)
      ensures order == old(order)[..m] + old(order)[m + 1..]
      ensures Contents == old(Contents)[..m] + old(Contents)[m + 1..]
      ensures slots[..] == Unlinked(old(slots[..]), old(order), m)
    {
      var next := slots[ev].next;
      ghost var s0, o0, p0, c0, h0, t0 := slots[..], order, pos, Contents, head, tail;
      UnlinkSlots(m, prev, ev);
      head := if prev != NIL then head else next;
      tail := if next == NIL then prev else tail;
      order, pos, Contents := o0[..m] + o0[m + 1..], Shifted(p0, m), c0[..m] + c0[m + 1..];
      RemoveShape(s0, o0, p0, c0, inFlight, h0, t0, m, head, tail);
      SameShape(Unlinked(s0, o0, m), order, pos, Contents, inFlight, head, tail, slots[..]);
    }

    /** The two writes of an unlink: the predecessor takes over the link of
        `ev`, and `ev` is cleared. */
    method UnlinkSlots(ghost m: int, prev: int, ev: int)
      requires slots.Length == MAX_PENDING_EVENTS && Indices(order, pos) && 0 <= m < |order|
      requires ev == order[m] && prev == (if m == 0 then NIL else order[m - 1])
      modifies slots
      ensures slots[..] == Unlinked(old(slots[..]), order, m)
    {
      ghost var s0 := slots[..];
      ghost var s1 := if m > 0 then s0[prev := s0[prev].(next := s0[ev].next)] else s0;
      assert m > 0 ==> pos[prev] == m - 1 && prev != ev;
      if prev != NIL {
        slots[prev] := slots[prev].(next := slots[ev].next);
      }
      assert slots[..] == s1;
      slots[ev] := slots[ev].(next := NIL, source := NULL);
    }

    /** One turn of the event_remove loop, at the slot `ev` that follows
        `prev` in the FIFO: the slot is unlinked and freed when its event has
        this source and id, and kept otherwise. */
    method RemoveStep(source: Addr, id: bv8, ev: int, prev: int,
                      ghost s0: seq<Slot>, ghost q0: seq<int>, ghost p0: seq<int>, ghost c0: seq<Pending>,
                      ghost k: int, ghost kept: seq<int>, ghost pk: int)
      returns (next: int, prev': int, ghost kept': seq<int>, ghost pk': int)
      requires Valid()
      requires RemoveProgress(s0, q0, p0, c0, inFlight, source, id, k, kept, slots[..], order, Contents)
      requires k < |q0| && ev == q0[k]
      requires kept != [] ==> 0 <= pk < k && kept[|kept| - 1] == q0[pk]
      requires prev == (if kept == [] then NIL else q0[pk])
      modifies this, slots
      ensures Valid() && slots == old(slots) && handlers == old(handlers) && inFlight == old(inFlight)
      ensures RemoveProgress(s0, q0, p0, c0, inFlight, source, id, k + 1, kept', slots[..], order, Contents)
      ensures next == (if k + 1 < |q0| then q0[k + 1] else NIL)
      ensures kept' != [] ==> 0 <= pk' < k + 1 && kept'[|kept'| - 1] == q0[pk']
      ensures prev' == (if kept' == [] then NIL else q0[pk'])
    {
      assert order[|kept|] == ev;
      next := slots[ev].next;
      if slots[ev].source != source || slots[ev].id != id {
        KeepStep(s0, q0, p0, c0, inFlight, source, id, k, kept, slots[..], order, Contents);
        prev', kept', pk' := ev, kept + [ev], k;
      } else {
        Drop(source, id, ev, prev, s0, q0, p0, c0, k, kept, pk);
        prev', kept', pk' := prev, kept, pk;
      }
    }

    /** The cancelling half of a RemoveStep: the slot at `ev` matches and is
        unlinked, the kept prefix stays as it was. */
    method Drop(source: Addr, id: bv8, ev: int, prev: int,
                ghost s0: seq<Slot>, ghost q0: seq<int>, ghost p0: seq<int>, ghost c0: seq<Pending>,
                ghost k: int, ghost kept: seq<int>, ghost pk: int)
      requires Valid()
      requires RemoveProgress(s0, q0, p0, c0, inFlight, source, id, k, kept, slots[..], order, Contents)
      requires k < |q0| && ev == q0[k] && slots[ev].source == source && slots[ev].id == id
      requires kept != [] ==> 0 <= pk < k && kept[|kept| - 1] == q0[pk]
      requires prev == (if kept == [] then NIL else q0[pk])
      modifies this, slots
      ensures Valid() && slots == old(slots) && handlers == old(handlers) && inFlight == old(inFlight)
      ensures RemoveProgress(s0, q0, p0, c0, inFlight, source, id, k + 1, kept, slots[..], order, Contents)
    {
      assert kept != [] ==> kept[|kept| - 1] == q0[..k][pk];
      assert order[|kept|] == ev;
      ghost var s1, o1, c1 := slots[..], order, Contents;
      Unlink(|kept|, prev, ev);
      DroppedState(s0, q0, p0, c0, inFlight, source, id, k, kept, s1, o1, c1, pk, slots[..], order, Contents);
    }

    /** event_remove: unlink and free every queued event with this source
        and id; the survivors keep their order. */
    method Remove(source: Addr, id: bv8) returns (ret: int)
      requires Valid()
      modifies this, slots
      ensures Valid() && slots == old(slots)
      ensures handlers == old(handlers) && inFlight == old(inFlight)
      ensures ret == (if source == NULL then -EINVAL else 0)
      ensures source == NULL ==> order == old(order) && slots[..] == old(slots[..]) && Contents == old(Contents)
      ensures source != NULL ==> Contents == RemoveMatching(old(Contents), source, id)
      ensures source != NULL ==> order == Survivors(old(slots[..]), old(order), source, id)
      ensures inFlight != NIL ==> slots[..][inFlight] == old(slots[..])[inFlight]
    {
      if source == NULL {
        return -EINVAL;
      }
      ghost var s0, q0, p0, c0 := slots[..], order, pos, Contents;
      ghost var k, pk := 0, 0;
      ghost var kept: seq<int> := [];
      var ev := head;
      var prev := NIL;
      while ev != NIL
        invariant Valid() && slots == old(slots)
        invariant handlers == old(handlers) && inFlight == old(inFlight)
        invariant RemoveProgress(s0, q0, p0, c0, inFlight, source, id, k, kept, slots[..], order, Contents)
        invariant ev == (if k < |q0| then q0[k] else NIL)
        invariant kept != [] ==> 0 <= pk < k && kept[|kept| - 1] == q0[pk]
        invariant prev == (if kept == [] then NIL else q0[pk])
        decreases |q0| - k
      {
        ev, prev, kept, pk := RemoveStep(source, id, ev, prev, s0, q0, p0, c0, k, kept, pk);
        k := k + 1;
      }
      assert k == |q0|;
      RemoveDone(s0, q0, p0, c0, inFlight, source, id, kept, slots[..], order, Contents);
      ret := 0;
    }

    /** The first half of event_loop_run_once: detach the head, leaving its
        slot occupied while its handlers run. */
    method Detach() returns (ev: int)
      requires Valid() && inFlight == NIL
      modifies this, slots
      ensures Valid() && slots == old(slots) && handlers == old(handlers)
      ensures old(Contents) == [] ==>
        ev == NIL && order == old(order) && Contents == old(Contents) && slots[..] == old(slots[..]) && inFlight == NIL
      ensures old(Contents) != [] ==>
        ev == old(head) && ev == inFlight && order == old(order[1..]) && Contents == old(Contents[1..])
        && slots[ev].Payload() == old(Contents[0])
      ensures forall i :: 0 <= i < MAX_PENDING_EVENTS ==> slots[i].Payload() == old(slots[i].Payload())
    {
      ev := head;
      if ev != NIL {
        DetachShape(slots[..], order, pos, Contents, head, tail);
        head := slots[ev].next;
        if head == NIL {
          tail := NIL;
        }
        slots[ev] := slots[ev].(next := NIL);
        order, pos, Contents := order[1..], Shifted(pos, 0), Contents[1..];
        inFlight := ev;
        assert slots[..] == old(slots[..])[ev := old(slots[ev]).(next := NIL)];
      }
    }

    /** The last step of event_loop_run_once: free the slot once its
        handlers have run. */
    method Release(ev: int)
      requires Valid() && ev != NIL && ev == inFlight
      modifies this, slots
      ensures Valid() && slots == old(slots) && handlers == old(handlers)
      ensures inFlight == NIL && order == old(order) && Contents == old(Contents)
      ensures slots[ev].source == NULL
      ensures forall i :: 0 <= i < MAX_PENDING_EVENTS && i != ev ==> slots[i] == old(slots[i])
    {
      slots[ev] := slots[ev].(source := NULL);
      inFlight := NIL;
    }

    /** event_run_handlers: the calls made for event `e`, in registry order. */
    method RunHandlers(e: Pending) returns (calls: seq<Call>)
      ensures calls == Dispatch(handlers, e)
    {
      calls := [];
      var i := 0;
      while i < |handlers|
        invariant 0 <= i <= |handlers|
        invariant calls == Dispatch(handlers[..i], e)
      {
        var h := handlers[i];
        assert handlers[..i + 1] == handlers[..i] + [h];
        DispatchLast(handlers[..i], h, e);
        if Matches(h, e) {
          calls := calls + [CallFor(h, e)];
        }
        i := i + 1;
      }
      assert handlers[..i] == handlers;
    }

    /** event_loop_run_once: dispatch the head event, if any, to the matching
        handlers, then free its slot. The handlers' own effects are not part
        of this model; they see the queue as Detach leaves it. */
    method RunOnce() returns (dispatched: bool, calls: seq<Call>)
      requires Valid() && inFlight == NIL
      modifies this, slots
      ensures Valid() && slots == old(slots) && handlers == old(handlers) && inFlight == NIL
      ensures dispatched <==> old(Contents) != []
      ensures !dispatched ==> calls == [] && Contents == old(Contents) && slots[..] == old(slots[..])
      ensures dispatched ==>
        Contents == old(Contents[1..]) && calls == Dispatch(handlers, old(Contents[0]))
        && slots[old(head)].source == NULL
    {
      var ev := Detach();
      dispatched := ev != NIL;
      calls := [];
      if ev != NIL {
        calls := RunHandlers(slots[ev].Payload());
        Release(ev);
      }
    }

    /** event_handler_add: put a handler at the front of the registry. */
    method HandlerAdd(h: Handler) returns (ret: int)
      requires Valid()
      requires h.addr != NULL ==> !Registered(handlers, h.addr)
      modifies this
      ensures Valid()
      ensures order == old(order) && Contents == old(Contents) && inFlight == old(inFlight)
      ensures ret == (if h.addr == NULL || h.source == NULL || h.callback == NULL then -EINVAL else 0)
      ensures handlers == (if ret == 0 then [h] + old(handlers) else old(handlers))
    {
      if h.addr == NULL || h.source == NULL || h.callback == NULL {
        return -EINVAL;
      }
      handlers := [h] + handlers;
      ret := 0;
    }

    /** event_handler_remove: unlink the handler at `addr`. With an empty
        registry the C loop dereferences a NULL head, so it is excluded. */
    method HandlerRemove(addr: Addr) returns (ret: int)
      requires Valid()
      requires addr == NULL || handlers != []
      modifies this
      ensures Valid()
      ensures order == old(order) && Contents == old(Contents) && inFlight == old(inFlight)
      ensures addr == NULL ==> ret == -EINVAL && handlers == old(handlers)
      ensures addr != NULL && !Registered(old(handlers), addr) ==> ret == -ENOENT && handlers == old(handlers)
      ensures addr != NULL && Registered(old(handlers), addr) ==>
        ret == 0 && exists k :: 0 <= k < |old(handlers)| && old(handlers[k].addr) == addr
                               && handlers == old(handlers[..k] + handlers[k + 1..])
      ensures !Registered(handlers, addr)
    {
      if addr == NULL {
        return -EINVAL;
      }
      ret := -ENOENT;
      if handlers[0].addr == addr {
        handlers := handlers[1..];
        ret := 0;
      } else {
        var i := 0;
        while i + 1 < |handlers|
          invariant 0 <= i < |handlers|
          invariant handlers == old(handlers)
          invariant forall j :: 0 <= j <= i ==> handlers[j].addr != addr
        {
          if handlers[i + 1].addr == addr {
            handlers := handlers[..i + 1] + handlers[i + 2..];
            ret := 0;
            break;
          }
          i := i + 1;
        }
      }
    }
  }
}
