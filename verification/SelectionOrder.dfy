/** A selection keeps the order within each queue, and gives every waiter exactly one fate. */
module SelectionOrder {
  import opened Basics
  import opened Selection
  import opened SelectionLaws

  /** The ranks of `es` increase from front to back; nobody occurs twice. */
  ghost predicate Increasing(es: seq<Entry>, rank: Entry -> int) {
    forall i, j | 0 <= i < j < |es| :: rank(es[i]) < rank(es[j])
  }

  lemma IncreasingCons(e: Entry, es: seq<Entry>, rank: Entry -> int)
    requires Increasing(es, rank) && forall d | d in es :: rank(e) < rank(d)
    ensures Increasing([e] + es, rank)
  {
    forall i, j | 0 <= i < j < |[e] + es| ensures rank(([e] + es)[i]) < rank(([e] + es)[j]) {
      assert ([e] + es)[j] == es[j - 1];
      assert i > 0 ==> ([e] + es)[i] == es[i - 1];
    }
  }

  lemma IncreasingTail(es: seq<Entry>, rank: Entry -> int)
    requires es != [] && Increasing(es, rank)
    ensures Increasing(es[1..], rank) && forall d | d in es[1..] :: rank(es[0]) < rank(d)
  {
  }

  lemma {:induction false} LiveIncreasing(es: seq<Entry>, rank: Entry -> int)
    requires Increasing(es, rank)
    ensures Increasing(Live(es), rank)
  {
    hide Increasing;
    if es == [] {
      assert Live(es) == es;
    } else {
      IncreasingTail(es, rank);
      LiveIncreasing(es[1..], rank);
      LiveOrDead(es[1..]);
      if es[0].status != Cancelled {
        IncreasingCons(es[0], Live(es[1..]), rank);
      } else {
        assert Live(es) == Live(es[1..]);
      }
    }
  }

  lemma {:induction false} ScanLeavesSuffix(q: seq<Entry>, budget: nat, room: nat, demandFirst: bool)
    ensures var rest := Scan(q, budget, room, demandFirst).rest; |rest| <= |q| && rest == q[|q| - |rest|..]
  {
    if q == [] || room == 0 || budget == 0 || (demandFirst && q[0].needs > budget) {
    } else if q[0].status == Cancelled {
      ScanLeavesSuffix(q[1..], budget, room, demandFirst);
    } else if q[0].needs <= budget {
      ScanLeavesSuffix(q[1..], budget - q[0].needs, room - |TaskOf(q[0])|, demandFirst);
    }
  }

  lemma ScanIncreasing(q: seq<Entry>, budget: nat, room: nat, demandFirst: bool, rank: Entry -> int)
    requires Increasing(q, rank)
    ensures Increasing(Scan(q, budget, room, demandFirst).rest, rank)
    ensures Increasing(Live(Scan(q, budget, room, demandFirst).rest), rank)
  {
    hide Scan;
    ScanLeavesSuffix(q, budget, room, demandFirst);
    LiveIncreasing(Scan(q, budget, room, demandFirst).rest, rank);
  }

  lemma {:induction false} SelectManyKeepsOrder(queues: Queues, heap: multiset<int>, budget: nat, room: nat,
                                                x: int, rank: Entry -> int)
    requires Increasing(At(queues, x), rank)
    ensures Increasing(At(SelectMany(queues, heap, budget, room).queues, x), rank)
    decreases |heap|
  {
    hide SelectMany, Scan, Live, Dead, Needs, Tasks, FlattenKeys, Increasing;
    SelectManyUnfold(queues, heap, budget, room);
    if Serves(queues, heap, budget, room) {
      var p := Top(heap);
      var s := Scan(At(queues, p), budget, room, true);
      var queues' := queues[p := Live(s.rest)];
      if x == p { ScanIncreasing(At(queues, p), budget, room, true, rank); }
      assert x != p ==> At(queues', x) == At(queues, x);
      SelectManyKeepsOrder(queues', heap - multiset{p}, budget - Needs(s.notified), room - |Tasks(s.notified)|, x, rank);
    } else if PopsStale(queues, heap, budget, room) {
      SelectManyKeepsOrder(queues, heap - multiset{Top(heap)}, budget, room, x, rank);
    }
  }

  /** Whatever orders the queue of a priority still orders it after a selection. */
  lemma SelectKeepsOrder(queues: Queues, heap: multiset<int>, budget: nat, x: int, rank: Entry -> int)
    requires Increasing(At(queues, x), rank)
    ensures Increasing(At(Select(queues, heap, budget).queues, x), rank)
  {
    if budget == 0 || Flatten(queues) == [] {
    } else if |heap| == 1 {
      if x == Top(heap) { ScanIncreasing(At(queues, x), budget, NUM_WAKERS, false, rank); }
    } else {
      SelectManyKeepsOrder(queues, heap, budget, NUM_WAKERS, x, rank);
    }
  }

  // Fates.

  lemma {:induction false} IncreasingOnce(es: seq<Entry>, rank: Entry -> int, e: Entry)
    requires Increasing(es, rank)
    ensures multiset(es)[e] <= 1
  {
    if es != [] {
      BagOfHead(es);
      IncreasingOnce(es[1..], rank, e);
    }
  }

  lemma {:induction false} FlattenKeysCount(queues: Queues, keys: set<int>, e: Entry)
    requires Filed(queues)
    ensures multiset(FlattenKeys(queues, keys))[e] == if e.priority in keys then multiset(At(queues, e.priority))[e] else 0
    decreases keys
  {
    if keys != {} {
      var m := MaxKey(keys);
      FlattenKeysCount(queues, keys - {m}, e);
      assert e in At(queues, m) ==> e.priority == m;
    }
  }

  /** The whole queue holds `e` exactly as often as its own priority does. */
  lemma FlattenCount(queues: Queues, e: Entry)
    requires Filed(queues)
    ensures multiset(Flatten(queues))[e] == multiset(At(queues, e.priority))[e]
  {
    FlattenKeysCount(queues, queues.Keys, e);
  }

  /**
   A queued waiter is notified, purged or kept in its own queue, and only one of these; nobody else appears,
   and nobody is notified twice.
   */
  lemma SelectFates(queues: Queues, heap: multiset<int>, budget: nat, rank: Entry -> int, e: Entry)
    requires Filed(queues) && Increasing(At(queues, e.priority), rank)
    ensures var r := Select(queues, heap, budget);
      && (e in At(queues, e.priority) <==> e in r.notified || e in r.purged || e in At(r.queues, e.priority))
      && !(e in r.notified && e in At(r.queues, e.priority))
      && multiset(r.notified)[e] <= 1
      && (e in r.notified ==> e.status != Cancelled) && (e in r.purged ==> e.status == Cancelled)
  {
    hide Select, Flatten, FlattenKeys;
    var r := Select(queues, heap, budget);
    SelectPartitions(queues, heap, budget);
    SelectTakesPrefix(queues, heap, budget, e.priority);
    FlattenCount(queues, e);
    FlattenCount(r.queues, e);
    IncreasingOnce(At(queues, e.priority), rank, e);
    var was, now := multiset(At(queues, e.priority)), multiset(At(r.queues, e.priority));
    assert was[e] == multiset(r.notified)[e] + multiset(r.purged)[e] + now[e];
    assert e in r.notified <==> multiset(r.notified)[e] > 0;
    assert e in r.purged <==> multiset(r.purged)[e] > 0;
  }
}
