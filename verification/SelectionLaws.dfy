/** Laws that one selection keeps for every queue, every demand, every budget and every heap. */
module SelectionLaws {
  import opened Basics
  import opened Selection

  /** A scan takes a prefix of the live waiters and leaves the rest in order. */
  lemma {:induction false} ScanTakesLivePrefix(q: seq<Entry>, budget: nat, room: nat, demandFirst: bool)
    ensures var s := Scan(q, budget, room, demandFirst); Live(q) == s.notified + Live(s.rest)
  {
    if q == [] || room == 0 || budget == 0 || (demandFirst && q[0].needs > budget) {
    } else if q[0].status == Cancelled {
      ScanTakesLivePrefix(q[1..], budget, room, demandFirst);
    } else if q[0].needs <= budget {
      ScanTakesLivePrefix(q[1..], budget - q[0].needs, room - |TaskOf(q[0])|, demandFirst);
      var s := Scan(q[1..], budget - q[0].needs, room - |TaskOf(q[0])|, demandFirst);
      Assoc([q[0]], s.notified, Live(s.rest));
    }
  }

  lemma BagOfHead<T>(q: seq<T>)
    requires q != []
    ensures multiset(q) == multiset{q[0]} + multiset(q[1..])
  {
    assert q == [q[0]] + q[1..];
  }

  lemma BagInto<T>(x: multiset<T>, a: multiset<T>, b: multiset<T>, c: multiset<T>)
    ensures x + (a + b + c) == (x + a) + b + c == a + (x + b) + c
  {
  }

  ghost predicate Splits(q: seq<Entry>, s: Scanned) {
    multiset(q) == multiset(s.notified) + multiset(s.purged) + multiset(s.rest)
  }

  lemma SplitsHead(q: seq<Entry>, s: Scanned)
    requires q != [] && Splits(q[1..], s)
    ensures Splits(q, s.(notified := [q[0]] + s.notified))
    ensures Splits(q, s.(purged := [q[0]] + s.purged))
  {
    BagOfHead(q);
    BagOfHead([q[0]] + s.purged);
    BagOfHead([q[0]] + s.notified);
    BagInto(multiset{q[0]}, multiset(s.notified), multiset(s.purged), multiset(s.rest));
  }

  /** A scan loses and duplicates nobody. */
  lemma {:induction false} ScanPartitions(q: seq<Entry>, budget: nat, room: nat, demandFirst: bool)
    ensures Splits(q, Scan(q, budget, room, demandFirst))
  {
    if q == [] || room == 0 || budget == 0 || (demandFirst && q[0].needs > budget) {
    } else if q[0].status == Cancelled {
      ScanPartitions(q[1..], budget, room, demandFirst);
      SplitsHead(q, Scan(q[1..], budget, room, demandFirst));
    } else if q[0].needs <= budget {
      ScanPartitions(q[1..], budget - q[0].needs, room - |TaskOf(q[0])|, demandFirst);
      SplitsHead(q, Scan(q[1..], budget - q[0].needs, room - |TaskOf(q[0])|, demandFirst));
    }
  }

  ghost predicate AllCancelled(es: seq<Entry>) {
    forall e | e in es :: e.status == Cancelled
  }

  ghost predicate NoneCancelled(es: seq<Entry>) {
    forall e | e in es :: e.status != Cancelled
  }

  lemma {:induction false} ScanSorts(q: seq<Entry>, budget: nat, room: nat, demandFirst: bool)
    ensures var s := Scan(q, budget, room, demandFirst); AllCancelled(s.purged) && NoneCancelled(s.notified)
  {
    if q == [] || room == 0 || budget == 0 || (demandFirst && q[0].needs > budget) {
    } else if q[0].status == Cancelled {
      ScanSorts(q[1..], budget, room, demandFirst);
    } else if q[0].needs <= budget {
      ScanSorts(q[1..], budget - q[0].needs, room - |TaskOf(q[0])|, demandFirst);
    }
  }

  lemma ScanMembers(q: seq<Entry>, budget: nat, room: nat, demandFirst: bool)
    ensures var s := Scan(q, budget, room, demandFirst);
      forall e | e in s.notified || e in s.purged || e in s.rest :: e in q
  {
    var s := Scan(q, budget, room, demandFirst);
    assert Splits(q, s) by { ScanPartitions(q, budget, room, demandFirst); }
    ScanPartitions(q, budget, room, demandFirst);
    forall e | e in s.notified || e in s.purged || e in s.rest ensures e in q {
      assert multiset(q)[e] > 0;
    }
  }

  // One round of the general path. Each law below has a lemma for the round and one for the recursion.

  /** The top priority's queue has a head that fits, so the round serves it. */
  ghost predicate Serves(queues: Queues, heap: multiset<int>, budget: nat, room: nat) {
    && |heap| > 0 && budget > 0 && room > 0
    && At(queues, Top(heap)) != []
    && At(queues, Top(heap))[0].needs <= budget
  }

  /** The top priority is stale, so the round only pops it. */
  ghost predicate PopsStale(queues: Queues, heap: multiset<int>, budget: nat, room: nat) {
    |heap| > 0 && budget > 0 && room > 0 && At(queues, Top(heap)) == []
  }

  lemma SelectManyUnfold(queues: Queues, heap: multiset<int>, budget: nat, room: nat)
    ensures SelectMany(queues, heap, budget, room) ==
      if Serves(queues, heap, budget, room) then
        var p := Top(heap);
        var s := Scan(At(queues, p), budget, room, true);
        Combine(p, s, SelectMany(queues[p := Live(s.rest)], heap - multiset{p},
                                 budget - Needs(s.notified), room - |Tasks(s.notified)|))
      else if PopsStale(queues, heap, budget, room) then
        SelectMany(queues, heap - multiset{Top(heap)}, budget, room)
      else
        Selected(queues, heap, [], [])
  {
  }

  ghost predicate WithinLimits(r: Selected, budget: nat, room: nat) {
    Needs(r.notified) <= budget && |Tasks(r.notified)| <= room
  }

  lemma RoundWithinLimits(p: int, s: Scanned, later: Selected, budget: nat, room: nat)
    requires Needs(s.notified) <= budget && |Tasks(s.notified)| <= room
    requires WithinLimits(later, budget - Needs(s.notified), room - |Tasks(s.notified)|)
    ensures WithinLimits(Combine(p, s, later), budget, room)
  {
    NeedsConcat(s.notified, later.notified);
    TasksConcat(s.notified, later.notified);
  }

  lemma {:induction false} SelectManyWithinLimits(queues: Queues, heap: multiset<int>, budget: nat, room: nat)
    ensures WithinLimits(SelectMany(queues, heap, budget, room), budget, room)
    decreases |heap|
  {
    if Serves(queues, heap, budget, room) {
      var p := Top(heap);
      var s := Scan(At(queues, p), budget, room, true);
      var queues', budget', room' := queues[p := Live(s.rest)], budget - Needs(s.notified), room - |Tasks(s.notified)|;
      SelectManyWithinLimits(queues', heap - multiset{p}, budget', room');
      RoundWithinLimits(p, s, SelectMany(queues', heap - multiset{p}, budget', room'), budget, room);
    } else if PopsStale(queues, heap, budget, room) {
      SelectManyWithinLimits(queues, heap - multiset{Top(heap)}, budget, room);
    }
  }

  /** Permits assigned never exceed the budget, and the wake list never passes its capacity. */
  lemma SelectWithinLimits(queues: Queues, heap: multiset<int>, budget: nat)
    ensures WithinLimits(Select(queues, heap, budget), budget, NUM_WAKERS)
    ensures |Tasks(Select(queues, heap, budget).notified)| <= 32
  {
    if |heap| != 1 {
      SelectManyWithinLimits(queues, heap, budget, NUM_WAKERS);
    }
  }

  /** How a selection treats the heap entries and the queue of priority `x`. */
  ghost predicate TreatsHeap(queues: Queues, heap: multiset<int>, r: Selected, x: int) {
    && r.heap[x] <= heap[x]
    && (x !in heap ==> At(r.queues, x) == At(queues, x))
    && (x in heap && At(r.queues, x) != [] ==> x in r.heap)
    && (At(queues, x) == [] ==> At(r.queues, x) == [])
    && (heap[x] <= 1 && At(queues, x) != [] && x in r.heap ==> At(r.queues, x) != [])
  }

  lemma RoundTreatsHeap(queues: Queues, heap: multiset<int>, p: int, s: Scanned, later: Selected, x: int)
    requires p in heap && At(queues, p) != []
    requires TreatsHeap(queues[p := Live(s.rest)], heap - multiset{p}, later, x)
    ensures TreatsHeap(queues, heap, Combine(p, s, later), x)
  {
  }

  lemma {:induction false} SelectManyTreatsHeap(queues: Queues, heap: multiset<int>, budget: nat, room: nat, x: int)
    ensures TreatsHeap(queues, heap, SelectMany(queues, heap, budget, room), x)
    decreases |heap|
  {
    if Serves(queues, heap, budget, room) {
      var p := Top(heap);
      var s := Scan(At(queues, p), budget, room, true);
      var queues', budget', room' := queues[p := Live(s.rest)], budget - Needs(s.notified), room - |Tasks(s.notified)|;
      SelectManyTreatsHeap(queues', heap - multiset{p}, budget', room', x);
      RoundTreatsHeap(queues, heap, p, s, SelectMany(queues', heap - multiset{p}, budget', room'), x);
    } else if PopsStale(queues, heap, budget, room) {
      SelectManyTreatsHeap(queues, heap - multiset{Top(heap)}, budget, room, x);
    }
  }

  lemma SingletonHeap(heap: multiset<int>)
    requires |heap| == 1
    ensures heap == multiset{Top(heap)}
  {
    var rest := heap - multiset{Top(heap)};
    assert heap == multiset{Top(heap)} + rest;
    assert |rest| == 0;
  }

  /** Selection keeps every priority with waiters in the heap, and keeps an exact heap exact. */
  lemma SelectKeepsHeap(queues: Queues, heap: multiset<int>, budget: nat)
    requires Covered(queues, heap)
    ensures var r := Select(queues, heap, budget);
      Covered(r.queues, r.heap) && (HeapExact(queues, heap) ==> HeapExact(r.queues, r.heap))
  {
    var r := Select(queues, heap, budget);
    if budget == 0 || Flatten(queues) == [] {
    } else if |heap| == 1 {
      var p := Top(heap);
      SingletonHeap(heap);
      assert forall x | x != p :: At(r.queues, x) == At(queues, x) == [];
    } else {
      forall x
        ensures At(r.queues, x) != [] ==> x in r.heap
        ensures HeapExact(queues, heap) ==> r.heap[x] == if At(r.queues, x) == [] then 0 else 1
      {
        SelectManyTreatsHeap(queues, heap, budget, NUM_WAKERS, x);
      }
    }
  }

  lemma FiledMembers(queues: Queues, p: int, es: seq<Entry>)
    requires Filed(queues)
    requires forall e | e in es :: e in At(queues, p)
    ensures forall i | 0 <= i < |es| :: es[i].priority == p
  {
    forall i | 0 <= i < |es| ensures es[i].priority == p {
      assert es[i] in At(queues, p);
    }
  }

  lemma FiledAfter(queues: Queues, p: int, q: seq<Entry>)
    requires Filed(queues)
    requires forall e | e in q :: e in At(queues, p)
    ensures Filed(queues[p := q])
  {
    FiledMembers(queues, p, q);
    var after := queues[p := q];
    forall x, i | 0 <= i < |At(after, x)| ensures At(after, x)[i].priority == x {
      if x != p { assert At(queues, x)[i].priority == x; }
    }
  }

  /** The part of a priority's queue that `r` notified comes first among its live waiters; the others stay in order. */
  ghost predicate TakesPrefixAt(queues: Queues, r: Selected, x: int) {
    Live(At(queues, x)) == AtPriority(r.notified, x) + Live(At(r.queues, x))
  }

  lemma RoundTakesPrefix(queues: Queues, p: int, s: Scanned, later: Selected, x: int)
    requires Live(At(queues, p)) == s.notified + Live(s.rest)
    requires forall i | 0 <= i < |s.notified| :: s.notified[i].priority == p
    requires TakesPrefixAt(queues[p := Live(s.rest)], later, x)
    ensures TakesPrefixAt(queues, Combine(p, s, later), x)
  {
    LiveIdempotent(s.rest);
    AtPriorityAll(s.notified, p, x);
    AtPriorityConcat(s.notified, later.notified, x);
    Assoc(AtPriority(s.notified, x), AtPriority(later.notified, x), Live(At(later.queues, x)));
    if x != p { assert At(queues[p := Live(s.rest)], x) == At(queues, x); }
  }

  lemma {:induction false} SelectManyTakesPrefix(queues: Queues, heap: multiset<int>, budget: nat, room: nat, x: int)
    requires Filed(queues)
    ensures TakesPrefixAt(queues, SelectMany(queues, heap, budget, room), x)
    decreases |heap|
  {
    hide SelectMany, Scan, Live, Dead, Needs, Tasks, FlattenKeys;
    SelectManyUnfold(queues, heap, budget, room);
    if Serves(queues, heap, budget, room) {
      var p := Top(heap);
      var s := Scan(At(queues, p), budget, room, true);
      var queues', budget', room' := queues[p := Live(s.rest)], budget - Needs(s.notified), room - |Tasks(s.notified)|;
      ScanTakesLivePrefix(At(queues, p), budget, room, true);
      ScanMembers(At(queues, p), budget, room, true);
      LiveOrDead(s.rest);
      FiledAfter(queues, p, Live(s.rest));
      FiledMembers(queues, p, s.notified);
      SelectManyTakesPrefix(queues', heap - multiset{p}, budget', room', x);
      RoundTakesPrefix(queues, p, s, SelectMany(queues', heap - multiset{p}, budget', room'), x);
    } else if PopsStale(queues, heap, budget, room) {
      SelectManyTakesPrefix(queues, heap - multiset{Top(heap)}, budget, room, x);
    }
  }

  lemma {:induction false} SelectManyKeepsFiled(queues: Queues, heap: multiset<int>, budget: nat, room: nat)
    requires Filed(queues)
    ensures Filed(SelectMany(queues, heap, budget, room).queues)
    decreases |heap|
  {
    hide SelectMany, Scan, Live, Dead, Needs, Tasks, FlattenKeys;
    SelectManyUnfold(queues, heap, budget, room);
    if Serves(queues, heap, budget, room) {
      var p := Top(heap);
      var s := Scan(At(queues, p), budget, room, true);
      ScanMembers(At(queues, p), budget, room, true);
      LiveOrDead(s.rest);
      FiledAfter(queues, p, Live(s.rest));
      SelectManyKeepsFiled(queues[p := Live(s.rest)], heap - multiset{p},
                           budget - Needs(s.notified), room - |Tasks(s.notified)|);
    } else if PopsStale(queues, heap, budget, room) {
      SelectManyKeepsFiled(queues, heap - multiset{Top(heap)}, budget, room);
    }
  }

  lemma SelectSingleTakesPrefix(queues: Queues, heap: multiset<int>, budget: nat, x: int)
    requires Filed(queues) && |heap| == 1
    ensures TakesPrefixAt(queues, SelectSingle(queues, heap, budget), x)
    ensures Filed(SelectSingle(queues, heap, budget).queues)
  {
    var p := Top(heap);
    if p in queues {
      var s := Scan(queues[p], budget, NUM_WAKERS, false);
      var after := SelectSingle(queues, heap, budget).queues;
      ScanTakesLivePrefix(queues[p], budget, NUM_WAKERS, false);
      ScanMembers(queues[p], budget, NUM_WAKERS, false);
      FiledMembers(queues, p, s.notified);
      FiledAfter(queues, p, s.rest);
      AtPriorityAll(s.notified, p, x);
      forall y, i | 0 <= i < |At(after, y)| ensures At(after, y)[i].priority == y {
        assert At(queues[p := s.rest], y)[i].priority == y;
      }
    }
  }

  /**
   Within one priority nobody is overtaken: for any demands, cancellations and heap, a selection notifies
   a prefix of each queue's live waiters and keeps the remaining ones in order.
   */
  lemma SelectTakesPrefix(queues: Queues, heap: multiset<int>, budget: nat, x: int)
    requires Filed(queues)
    ensures TakesPrefixAt(queues, Select(queues, heap, budget), x)
    ensures Filed(Select(queues, heap, budget).queues)
  {
    if budget == 0 || Flatten(queues) == [] {
    } else if |heap| == 1 {
      SelectSingleTakesPrefix(queues, heap, budget, x);
    } else {
      SelectManyTakesPrefix(queues, heap, budget, NUM_WAKERS, x);
      SelectManyKeepsFiled(queues, heap, budget, NUM_WAKERS);
    }
  }

  /** `r` splits the waiters of `queues` into notified, purged and kept ones. */
  ghost predicate Partitions(queues: Queues, r: Selected) {
    multiset(Flatten(queues)) == multiset(r.notified) + multiset(r.purged) + multiset(Flatten(r.queues))
  }

  /** Only live waiters are notified, and only cancelled ones are purged. */
  ghost predicate Sorts(r: Selected) {
    NoneCancelled(r.notified) && AllCancelled(r.purged)
  }

  lemma PartitionStep<T>(before: multiset<T>, mid: multiset<T>, q: multiset<T>,
                         sn: multiset<T>, sp: multiset<T>, kept: multiset<T>, dead: multiset<T>,
                         rn: multiset<T>, rp: multiset<T>, after: multiset<T>)
    requires mid + q == before + kept
    requires q == sn + sp + (kept + dead)
    requires mid == rn + rp + after
    ensures before == (sn + rn) + (sp + dead + rp) + after
  {
    forall e ensures before[e] == ((sn + rn) + (sp + dead + rp) + after)[e] {
      assert (mid + q)[e] == (before + kept)[e];
    }
  }

  lemma RoundPartitions(queues: Queues, p: int, s: Scanned, later: Selected)
    requires Splits(At(queues, p), s)
    requires Partitions(queues[p := Live(s.rest)], later)
    ensures Partitions(queues, Combine(p, s, later))
  {
    var kept := Live(s.rest);
    LiveOrDead(s.rest);
    FlattenUpdate(queues, p, kept);
    PartitionStep(multiset(Flatten(queues)), multiset(Flatten(queues[p := kept])), multiset(At(queues, p)),
                  multiset(s.notified), multiset(s.purged), multiset(kept), multiset(Dead(s.rest)),
                  multiset(later.notified), multiset(later.purged), multiset(Flatten(later.queues)));
    BagConcat(s.notified, later.notified);
    BagConcat(s.purged, Dead(s.rest));
    BagConcat(s.purged + Dead(s.rest), later.purged);
  }

  lemma BagConcat<T>(a: seq<T>, b: seq<T>)
    ensures multiset(a + b) == multiset(a) + multiset(b)
  {
  }

  lemma {:induction false} SelectManyPartitions(queues: Queues, heap: multiset<int>, budget: nat, room: nat)
    ensures Partitions(queues, SelectMany(queues, heap, budget, room))
    decreases |heap|
  {
    hide SelectMany, Scan, Live, Dead, Needs, Tasks, FlattenKeys;
    SelectManyUnfold(queues, heap, budget, room);
    if Serves(queues, heap, budget, room) {
      var p := Top(heap);
      var s := Scan(At(queues, p), budget, room, true);
      var queues', budget', room' := queues[p := Live(s.rest)], budget - Needs(s.notified), room - |Tasks(s.notified)|;
      ScanPartitions(At(queues, p), budget, room, true);
      SelectManyPartitions(queues', heap - multiset{p}, budget', room');
      RoundPartitions(queues, p, s, SelectMany(queues', heap - multiset{p}, budget', room'));
    } else if PopsStale(queues, heap, budget, room) {
      SelectManyPartitions(queues, heap - multiset{Top(heap)}, budget, room);
    }
  }

  lemma RoundSorts(p: int, s: Scanned, later: Selected)
    requires AllCancelled(s.purged) && NoneCancelled(s.notified) && Sorts(later)
    ensures Sorts(Combine(p, s, later))
  {
    LiveOrDead(s.rest);
  }

  lemma {:induction false} SelectManySorts(queues: Queues, heap: multiset<int>, budget: nat, room: nat)
    ensures Sorts(SelectMany(queues, heap, budget, room))
    decreases |heap|
  {
    hide SelectMany, Scan, Live, Dead, Needs, Tasks, FlattenKeys;
    SelectManyUnfold(queues, heap, budget, room);
    if Serves(queues, heap, budget, room) {
      var p := Top(heap);
      var s := Scan(At(queues, p), budget, room, true);
      var queues', budget', room' := queues[p := Live(s.rest)], budget - Needs(s.notified), room - |Tasks(s.notified)|;
      ScanSorts(At(queues, p), budget, room, true);
      SelectManySorts(queues', heap - multiset{p}, budget', room');
      RoundSorts(p, s, SelectMany(queues', heap - multiset{p}, budget', room'));
    } else if PopsStale(queues, heap, budget, room) {
      SelectManySorts(queues, heap - multiset{Top(heap)}, budget, room);
    }
  }

  lemma SelectSinglePartitions(queues: Queues, heap: multiset<int>, budget: nat)
    requires |heap| == 1
    ensures Partitions(queues, SelectSingle(queues, heap, budget))
    ensures Sorts(SelectSingle(queues, heap, budget))
  {
    var p := Top(heap);
    if p in queues {
      var s := Scan(queues[p], budget, NUM_WAKERS, false);
      var r := SelectSingle(queues, heap, budget);
      ScanPartitions(queues[p], budget, NUM_WAKERS, false);
      ScanSorts(queues[p], budget, NUM_WAKERS, false);
      FlattenUpdate(queues, p, s.rest);
      FlattenSame(r.queues, queues[p := s.rest]);
      PartitionStep(multiset(Flatten(queues)), multiset(Flatten(r.queues)), multiset(queues[p]),
                    multiset(s.notified), multiset(s.purged), multiset(s.rest), multiset{},
                    multiset{}, multiset{}, multiset(Flatten(r.queues)));
    }
  }

  /** No waiter is lost or duplicated by a selection. */
  lemma SelectPartitions(queues: Queues, heap: multiset<int>, budget: nat)
    ensures Partitions(queues, Select(queues, heap, budget))
    ensures Sorts(Select(queues, heap, budget))
  {
    if budget == 0 || Flatten(queues) == [] {
    } else if |heap| == 1 {
      SelectSinglePartitions(queues, heap, budget);
    } else {
      SelectManyPartitions(queues, heap, budget, NUM_WAKERS);
      SelectManySorts(queues, heap, budget, NUM_WAKERS);
    }
  }

  /** Whoever is notified, purged or kept was in the queue, in one of the priorities. */
  lemma SelectedCameFrom(queues: Queues, heap: multiset<int>, n: nat, e: Entry)
    requires var r := Select(queues, heap, n); e in r.notified || e in r.purged || exists p :: e in At(r.queues, p)
    ensures exists p :: e in At(queues, p)
    ensures e in Select(queues, heap, n).notified ==> e.status != Cancelled
  {
    hide Select, FlattenKeys;
    var r := Select(queues, heap, n);
    SelectPartitions(queues, heap, n);
    FlattenMembers(r.queues, e);
    FlattenMembers(queues, e);
    assert multiset(Flatten(queues))[e] > 0;
  }

  // The order of service across priorities.

  ghost predicate NoneAbove(es: seq<Entry>, bound: int) {
    forall e | e in es :: e.priority <= bound
  }

  ghost predicate Descending(es: seq<Entry>) {
    forall i, j | 0 <= i < j < |es| :: es[i].priority >= es[j].priority
  }

  lemma {:induction false} SelectManyNoneAbove(queues: Queues, heap: multiset<int>, budget: nat, room: nat, bound: int)
    requires Filed(queues) && forall x | x in heap :: x <= bound
    ensures NoneAbove(SelectMany(queues, heap, budget, room).notified, bound)
    decreases |heap|
  {
    hide SelectMany, Scan, Live, Dead, Needs, Tasks, FlattenKeys;
    SelectManyUnfold(queues, heap, budget, room);
    if Serves(queues, heap, budget, room) {
      var p := Top(heap);
      var s := Scan(At(queues, p), budget, room, true);
      ScanMembers(At(queues, p), budget, room, true);
      LiveOrDead(s.rest);
      FiledAfter(queues, p, Live(s.rest));
      FiledMembers(queues, p, s.notified);
      SelectManyNoneAbove(queues[p := Live(s.rest)], heap - multiset{p},
                          budget - Needs(s.notified), room - |Tasks(s.notified)|, bound);
    } else if PopsStale(queues, heap, budget, room) {
      SelectManyNoneAbove(queues, heap - multiset{Top(heap)}, budget, room, bound);
    }
  }

  lemma DescendingJoin(a: seq<Entry>, b: seq<Entry>, p: int)
    requires (forall i | 0 <= i < |a| :: a[i].priority == p) && NoneAbove(b, p) && Descending(b)
    ensures Descending(a + b)
  {
  }

  lemma {:induction false} SelectManyDescends(queues: Queues, heap: multiset<int>, budget: nat, room: nat)
    requires Filed(queues)
    ensures Descending(SelectMany(queues, heap, budget, room).notified)
    decreases |heap|
  {
    hide SelectMany, Scan, Live, Dead, Needs, Tasks, FlattenKeys, NoneAbove;
    SelectManyUnfold(queues, heap, budget, room);
    if Serves(queues, heap, budget, room) {
      var p := Top(heap);
      var s := Scan(At(queues, p), budget, room, true);
      var queues', budget', room' := queues[p := Live(s.rest)], budget - Needs(s.notified), room - |Tasks(s.notified)|;
      ScanMembers(At(queues, p), budget, room, true);
      LiveOrDead(s.rest);
      FiledAfter(queues, p, Live(s.rest));
      FiledMembers(queues, p, s.notified);
      SelectManyNoneAbove(queues', heap - multiset{p}, budget', room', p);
      SelectManyDescends(queues', heap - multiset{p}, budget', room');
      DescendingJoin(s.notified, SelectMany(queues', heap - multiset{p}, budget', room').notified, p);
    } else if PopsStale(queues, heap, budget, room) {
      SelectManyDescends(queues, heap - multiset{Top(heap)}, budget, room);
    }
  }

  /** For any demands, cancellations and heap, a selection never serves a higher priority after a lower one. */
  lemma SelectDescends(queues: Queues, heap: multiset<int>, budget: nat)
    requires Filed(queues)
    ensures Descending(Select(queues, heap, budget).notified)
  {
    if budget == 0 || Flatten(queues) == [] {
    } else if |heap| == 1 {
      var p := Top(heap);
      if p in queues {
        ScanMembers(queues[p], budget, NUM_WAKERS, false);
        FiledMembers(queues, p, Scan(queues[p], budget, NUM_WAKERS, false).notified);
      }
    } else {
      SelectManyDescends(queues, heap, budget, NUM_WAKERS);
    }
  }

  /** `r` leaves nobody cancelled at `x` if it served somebody there, or if nobody there was cancelled before. */
  ghost predicate PurgesAt(queues: Queues, r: Selected, x: int) {
    NoneCancelled(At(queues, x)) || AtPriority(r.notified, x) != [] ==> NoneCancelled(At(r.queues, x))
  }

  lemma RoundPurges(queues: Queues, p: int, s: Scanned, later: Selected, x: int)
    requires forall i | 0 <= i < |s.notified| :: s.notified[i].priority == p
    requires PurgesAt(queues[p := Live(s.rest)], later, x)
    ensures PurgesAt(queues, Combine(p, s, later), x)
  {
    hide Live, Dead, AtPriority;
    AtPriorityAll(s.notified, p, x);
    AtPriorityConcat(s.notified, later.notified, x);
    LiveOrDead(s.rest);
    assert x != p ==> At(queues[p := Live(s.rest)], x) == At(queues, x);
  }

  /** A priority in which the general path served somebody, or which had nobody cancelled, has nobody cancelled left. */
  lemma {:induction false} SelectManyPurges(queues: Queues, heap: multiset<int>, budget: nat, room: nat, x: int)
    requires Filed(queues)
    ensures PurgesAt(queues, SelectMany(queues, heap, budget, room), x)
    decreases |heap|
  {
    hide SelectMany, Scan, Live, Dead, Needs, Tasks, FlattenKeys, PurgesAt;
    SelectManyUnfold(queues, heap, budget, room);
    if Serves(queues, heap, budget, room) {
      var p := Top(heap);
      var s := Scan(At(queues, p), budget, room, true);
      var queues', budget', room' := queues[p := Live(s.rest)], budget - Needs(s.notified), room - |Tasks(s.notified)|;
      ScanMembers(At(queues, p), budget, room, true);
      FiledMembers(queues, p, s.notified);
      LiveOrDead(s.rest);
      FiledAfter(queues, p, Live(s.rest));
      SelectManyPurges(queues', heap - multiset{p}, budget', room', x);
      RoundPurges(queues, p, s, SelectMany(queues', heap - multiset{p}, budget', room'), x);
    } else if PopsStale(queues, heap, budget, room) {
      SelectManyPurges(queues, heap - multiset{Top(heap)}, budget, room, x);
    } else {
      NobodyPurged(queues, heap, x);
    }
  }

  lemma NobodyPurged(queues: Queues, heap: multiset<int>, x: int)
    ensures PurgesAt(queues, Selected(queues, heap, [], []), x)
  {
  }
}
