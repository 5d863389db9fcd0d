/**
 What one call of the wait queue's selection does, as functions on values.

 A queued waiter is seen as an `Entry`. The two scanning loops of the source differ in the order of
 two tests only (cancelled first, or demand first), so one function with a flag describes both.
 */
module Selection {
  import opened Basics

  /** Capacity of the wake list. */
  const NUM_WAKERS: nat := 32

  /** A task of the executor, named by a number. */
  type Task = int

  datatype Status = Waiting | Notified | Cancelled

  /** A snapshot of a waiter; `id` is its arrival number and `waker` the task to wake. */
  datatype Entry = Entry(id: nat, priority: int, needs: nat, status: Status, waker: Option<Task>)

  type Queues = map<int, seq<Entry>>

  /** Sum of demands: what `permits_assigned` accumulates. */
  function Needs(es: seq<Entry>): nat {
    if es == [] then 0 else es[0].needs + Needs(es[1..])
  }

  /** Notifying succeeds on a waiting entry only, and yields a waker only if one was stored. */
  predicate Wakes(e: Entry) {
    e.status == Waiting && e.waker.Some?
  }

  function TaskOf(e: Entry): seq<Task> {
    if Wakes(e) then [e.waker.value] else []
  }

  /** The tasks that notifying `es` pushes on the wake list, in order. */
  function Tasks(es: seq<Entry>): seq<Task> {
    if es == [] then []
    else TaskOf(es[0]) + Tasks(es[1..])
  }

  function If(keep: bool, e: Entry): seq<Entry> {
    if keep then [e] else []
  }

  /** What retaining the waiters that are not cancelled leaves. */
  function Live(es: seq<Entry>): seq<Entry> {
    if es == [] then []
    else If(es[0].status != Cancelled, es[0]) + Live(es[1..])
  }

  function AtPriority(es: seq<Entry>, p: int): seq<Entry> {
    if es == [] then []
    else If(es[0].priority == p, es[0]) + AtPriority(es[1..], p)
  }

  datatype Scanned = Scanned(rest: seq<Entry>, notified: seq<Entry>, purged: seq<Entry>)

  /** One queue scanned from its front with `budget` permits and `room` free wake-list slots. */
  function Scan(q: seq<Entry>, budget: nat, room: nat, demandFirst: bool): (s: Scanned)
    ensures Needs(s.notified) <= budget
    ensures |Tasks(s.notified)| <= room
  {
    if q == [] || room == 0 || budget == 0 then Scanned(q, [], [])
    else if demandFirst && q[0].needs > budget then Scanned(q, [], [])
    else if q[0].status == Cancelled then
      var s := Scan(q[1..], budget, room, demandFirst);
      s.(purged := [q[0]] + s.purged)
    else if q[0].needs > budget then Scanned(q, [], [])
    else
      var s := Scan(q[1..], budget - q[0].needs, room - |TaskOf(q[0])|, demandFirst);
      assert ([q[0]] + s.notified)[1..] == s.notified;
      s.(notified := [q[0]] + s.notified)
  }

  function Dead(es: seq<Entry>): seq<Entry> {
    if es == [] then []
    else If(es[0].status == Cancelled, es[0]) + Dead(es[1..])
  }

  datatype Selected = Selected(queues: Queues, heap: multiset<int>, notified: seq<Entry>, purged: seq<Entry>)

  /** The path taken when the heap holds one priority. */
  ghost function SelectSingle(queues: Queues, heap: multiset<int>, budget: nat): Selected
    requires |heap| == 1
  {
    var p := Top(heap);
    if p !in queues then Selected(queues, multiset{}, [], [])
    else
      var s := Scan(queues[p], budget, NUM_WAKERS, false);
      if s.rest == [] then Selected(queues - {p}, multiset{}, s.notified, s.purged)
      else Selected(queues[p := s.rest], multiset{p}, s.notified, s.purged)
  }

  /** One round of the general path at priority `p`, followed by the selection `later` of the other rounds. */
  ghost function Combine(p: int, s: Scanned, later: Selected): Selected {
    Selected(later.queues,
             if Live(s.rest) == [] then later.heap else later.heap + multiset{p},
             s.notified + later.notified,
             s.purged + Dead(s.rest) + later.purged)
  }

  /** The general path: priorities popped from the heap, and the blocked ones pushed back at the end. */
  ghost function SelectMany(queues: Queues, heap: multiset<int>, budget: nat, room: nat): Selected
    decreases |heap|
  {
    if |heap| == 0 || budget == 0 || room == 0 then Selected(queues, heap, [], [])
    else
      var p := Top(heap);
      var q := At(queues, p);
      if q == [] then SelectMany(queues, heap - multiset{p}, budget, room)
      else if q[0].needs > budget then Selected(queues, heap, [], [])
      else
        var s := Scan(q, budget, room, true);
        Combine(p, s, SelectMany(queues[p := Live(s.rest)], heap - multiset{p},
                                 budget - Needs(s.notified), room - |Tasks(s.notified)|))
  }

  ghost function Select(queues: Queues, heap: multiset<int>, budget: nat): Selected {
    if budget == 0 || Flatten(queues) == [] then Selected(queues, heap, [], [])
    else if |heap| == 1 then SelectSingle(queues, heap, budget)
    else SelectMany(queues, heap, budget, NUM_WAKERS)
  }

  // What the wait queue keeps between calls.

  /** Every waiter sits in its own priority's queue. */
  ghost predicate Filed(queues: Queues) {
    forall p, i | 0 <= i < |At(queues, p)| :: At(queues, p)[i].priority == p
  }

  /** Every priority that has waiters is in the heap. */
  ghost predicate Covered<T>(queues: map<int, seq<T>>, heap: multiset<int>) {
    forall p :: At(queues, p) != [] ==> p in heap
  }

  /** The heap holds each priority that has waiters once, and nothing else. */
  ghost predicate HeapExact<T>(queues: map<int, seq<T>>, heap: multiset<int>) {
    forall p :: heap[p] == if At(queues, p) == [] then 0 else 1
  }

  // List facts.

  lemma Assoc<T>(x: seq<T>, y: seq<T>, z: seq<T>)
    ensures x + (y + z) == (x + y) + z
  {
  }

  lemma {:induction false} NeedsConcat(a: seq<Entry>, b: seq<Entry>)
    ensures Needs(a + b) == Needs(a) + Needs(b)
  {
    if a == [] {
      assert a + b == b;
    } else {
      NeedsConcat(a[1..], b);
      assert (a + b)[1..] == a[1..] + b;
    }
  }

  lemma {:induction false} TasksConcat(a: seq<Entry>, b: seq<Entry>)
    ensures Tasks(a + b) == Tasks(a) + Tasks(b)
  {
    if a == [] {
      assert a + b == b;
    } else {
      TasksConcat(a[1..], b);
      assert (a + b)[1..] == a[1..] + b;
      Assoc(TaskOf(a[0]), Tasks(a[1..]), Tasks(b));
    }
  }

  lemma {:induction false} LiveConcat(a: seq<Entry>, b: seq<Entry>)
    ensures Live(a + b) == Live(a) + Live(b)
  {
    if a == [] {
      assert a + b == b;
    } else {
      LiveConcat(a[1..], b);
      assert (a + b)[1..] == a[1..] + b;
      Assoc(If(a[0].status != Cancelled, a[0]), Live(a[1..]), Live(b));
    }
  }

  lemma {:induction false} AtPriorityConcat(a: seq<Entry>, b: seq<Entry>, p: int)
    ensures AtPriority(a + b, p) == AtPriority(a, p) + AtPriority(b, p)
  {
    if a == [] {
      assert a + b == b;
    } else {
      AtPriorityConcat(a[1..], b, p);
      assert (a + b)[1..] == a[1..] + b;
      Assoc(If(a[0].priority == p, a[0]), AtPriority(a[1..], p), AtPriority(b, p));
    }
  }

  lemma {:induction false} LiveIdempotent(es: seq<Entry>)
    ensures Live(Live(es)) == Live(es)
    ensures Dead(Live(es)) == []
  {
    if es != [] {
      LiveIdempotent(es[1..]);
      if es[0].status != Cancelled {
        assert Live(es)[1..] == Live(es[1..]);
      } else {
        assert Live(es) == Live(es[1..]);
      }
    }
  }

  lemma {:induction false} LiveOrDead(es: seq<Entry>)
    ensures multiset(es) == multiset(Live(es)) + multiset(Dead(es))
    ensures forall e :: e in Live(es) <==> e in es && e.status != Cancelled
    ensures forall e :: e in Dead(es) <==> e in es && e.status == Cancelled
  {
    if es != [] {
      LiveOrDead(es[1..]);
      assert es == [es[0]] + es[1..];
    }
  }

  lemma {:induction false} AtPriorityAll(es: seq<Entry>, p: int, x: int)
    requires forall i | 0 <= i < |es| :: es[i].priority == p
    ensures AtPriority(es, x) == if x == p then es else []
  {
    if es != [] { AtPriorityAll(es[1..], p, x); }
  }
}
