/**
 The greedy descent through the priorities, a description of a selection without heap and loops, and the two paths on
 queues with nobody cancelled.
 */
module GreedySelection {
  import opened Basics
  import opened Selection
  import opened SelectionLaws

  ghost predicate Clean(queues: Queues) {
    forall p :: NoneCancelled(At(queues, p))
  }

  ghost predicate AllPositive(es: seq<Entry>) {
    forall e | e in es :: e.needs > 0
  }

  ghost predicate Positive(queues: Queues) {
    forall p :: AllPositive(At(queues, p))
  }

  /** The priorities that have waiters. */
  ghost function Occupied(queues: Queues): set<int> {
    set p | p in queues && queues[p] != []
  }

  // The reference: no heap, no loop state, prefixes chosen by what they need.

  /** The first `n` of `q` can be served together; only the last of them may use the last slot. */
  ghost predicate Fits(q: seq<Entry>, n: nat, budget: nat, room: nat) {
    n <= |q| && Needs(q[..n]) <= budget && (n == 0 || |Tasks(q[..n - 1])| < room)
  }

  /** The largest prefix of length at most `n` that fits. */
  ghost function LongestFit(q: seq<Entry>, n: nat, budget: nat, room: nat): (best: nat)
    requires n <= |q|
    ensures best <= n && Fits(q, best, budget, room)
    ensures forall j | best < j <= n :: !Fits(q, j, budget, room)
  {
    if Fits(q, n, budget, room) then n else LongestFit(q, n - 1, budget, room)
  }

  /** Descend the priorities; stop at a head that does not fit, else take the longest prefix that does. */
  ghost function Greedy(queues: Queues, keys: set<int>, budget: nat, room: nat): seq<Entry>
    decreases keys
  {
    if keys == {} || budget == 0 || room == 0 then []
    else
      var p := MaxKey(keys);
      var q := At(queues, p);
      var n := LongestFit(q, |q|, budget, room);
      if n == 0 then []
      else
        TasksOfPrefix(q, n, room);
        q[..n] + Greedy(queues, keys - {p}, budget - Needs(q[..n]), room - |Tasks(q[..n])|)
  }

  lemma TasksOfPrefix(q: seq<Entry>, n: nat, room: nat)
    requires 0 < n <= |q| && |Tasks(q[..n - 1])| < room
    ensures |Tasks(q[..n])| <= room
  {
    assert q[..n] == q[..n - 1] + [q[n - 1]];
    TasksConcat(q[..n - 1], [q[n - 1]]);
  }

  lemma PrefixSums(q: seq<Entry>, n: nat)
    requires 0 < n <= |q|
    ensures Needs(q[..n]) == q[0].needs + Needs(q[1..][..n - 1])
    ensures |Tasks(q[..n])| == |TaskOf(q[0])| + |Tasks(q[1..][..n - 1])|
  {
    assert q[..n][1..] == q[1..][..n - 1];
  }

  lemma FitsCons(q: seq<Entry>, n: nat, budget: nat, room: nat)
    requires 0 < n <= |q| && room > 0
    ensures Fits(q, n, budget, room) <==>
      q[0].needs <= budget && (n == 1 || |TaskOf(q[0])| < room)
      && Fits(q[1..], n - 1, budget - q[0].needs, room - |TaskOf(q[0])|)
  {
    PrefixSums(q, n);
    if n > 1 { PrefixSums(q, n - 1); }
  }

  /** `s` takes a prefix that fits, and the next longer one does not. */
  ghost predicate StopsAtFit(q: seq<Entry>, s: Scanned, budget: nat, room: nat) {
    var n := |s.notified|;
    && n <= |q| && s.notified == q[..n] && s.rest == q[n..] && s.purged == []
    && Fits(q, n, budget, room)
    && (n < |q| && room > 0 ==> !Fits(q, n + 1, budget, room))
  }

  lemma StopsAtFitCons(q: seq<Entry>, s: Scanned, budget: nat, room: nat)
    requires q != [] && room > 0 && q[0].needs <= budget
    requires room == |TaskOf(q[0])| ==> s.notified == []
    requires StopsAtFit(q[1..], s, budget - q[0].needs, room - |TaskOf(q[0])|)
    ensures StopsAtFit(q, s.(notified := [q[0]] + s.notified), budget, room)
  {
    var n := |s.notified| + 1;
    FitsCons(q, n, budget, room);
    if n < |q| { FitsCons(q, n + 1, budget, room); }
  }

  lemma {:induction false} ScanStopsAtFit(q: seq<Entry>, budget: nat, room: nat, demandFirst: bool)
    requires NoneCancelled(q) && AllPositive(q)
    ensures StopsAtFit(q, Scan(q, budget, room, demandFirst), budget, room)
  {
    if q != [] && room > 0 {
      if q[0].needs <= budget {
        ScanStopsAtFit(q[1..], budget - q[0].needs, room - |TaskOf(q[0])|, demandFirst);
        StopsAtFitCons(q, Scan(q[1..], budget - q[0].needs, room - |TaskOf(q[0])|, demandFirst), budget, room);
      } else {
        FitsCons(q, 1, budget, room);
      }
    }
  }

  lemma {:induction false} NoFitNoLonger(q: seq<Entry>, n: nat, j: nat, budget: nat, room: nat)
    requires n <= j <= |q| && !Fits(q, n, budget, room)
    ensures !Fits(q, j, budget, room)
  {
    if n < j {
      NoFitNoLonger(q, n, j - 1, budget, room);
      assert q[..j] == q[..j - 1] + [q[j - 1]];
      NeedsConcat(q[..j - 1], [q[j - 1]]);
      if j > 1 {
        assert q[..j - 1] == q[..j - 2] + [q[j - 2]];
        TasksConcat(q[..j - 2], [q[j - 2]]);
      }
    }
  }

  /** On a clean queue of positive demands a scan takes the longest prefix that fits. */
  lemma ScanIsLongestFit(q: seq<Entry>, budget: nat, room: nat, demandFirst: bool)
    requires NoneCancelled(q) && AllPositive(q) && room > 0
    ensures var s, n := Scan(q, budget, room, demandFirst), LongestFit(q, |q|, budget, room);
      s.notified == q[..n] && s.rest == q[n..] && s.purged == []
  {
    var s, n := Scan(q, budget, room, demandFirst), LongestFit(q, |q|, budget, room);
    ScanStopsAtFit(q, budget, room, demandFirst);
    var m := |s.notified|;
    if m < n { NoFitNoLonger(q, m + 1, n, budget, room); }
  }

  lemma {:induction false} LiveOfClean(es: seq<Entry>)
    requires NoneCancelled(es)
    ensures Live(es) == es
  {
    if es != [] { LiveOfClean(es[1..]); }
  }

  lemma {:induction false} GreedyFrame(a: Queues, b: Queues, keys: set<int>, budget: nat, room: nat)
    requires forall p | p in keys :: At(a, p) == At(b, p)
    ensures Greedy(a, keys, budget, room) == Greedy(b, keys, budget, room)
    decreases keys
  {
    hide LongestFit, Needs, Tasks;
    if keys != {} && budget > 0 && room > 0 {
      var p := MaxKey(keys);
      var q := At(a, p);
      var n := LongestFit(q, |q|, budget, room);
      if n > 0 {
        TasksOfPrefix(q, n, room);
        GreedyFrame(a, b, keys - {p}, budget - Needs(q[..n]), room - |Tasks(q[..n])|);
      }
    }
  }

  lemma TopOfKeys(keys: set<int>)
    requires keys != {}
    ensures |multiset(keys)| > 0 && Top(multiset(keys)) == MaxKey(keys)
    ensures multiset(keys) - multiset{MaxKey(keys)} == multiset(keys - {MaxKey(keys)})
  {
    assert MaxKey(keys) in multiset(keys);
  }

  lemma HeadFits(q: seq<Entry>, budget: nat, room: nat)
    requires q != [] && room > 0
    ensures LongestFit(q, |q|, budget, room) > 0 <==> q[0].needs <= budget
  {
    FitsCons(q, 1, budget, room);
    if q[0].needs > budget {
      var n := LongestFit(q, |q|, budget, room);
      if n > 0 { NoFitNoLonger(q, 1, n, budget, room); }
    }
  }

  lemma ExactHeap(queues: Queues, heap: multiset<int>)
    requires HeapExact(queues, heap)
    ensures heap == multiset(Occupied(queues))
    ensures forall p | p in Occupied(queues) :: At(queues, p) != []
  {
    forall p ensures heap[p] == multiset(Occupied(queues))[p] {}
  }

  lemma {:induction false} CleanIgnoresOrder(q: seq<Entry>, budget: nat, room: nat)
    requires NoneCancelled(q)
    ensures Scan(q, budget, room, true) == Scan(q, budget, room, false)
    ensures Scan(q, budget, room, false).purged == []
  {
    if q != [] && room > 0 && q[0].needs <= budget {
      CleanIgnoresOrder(q[1..], budget - q[0].needs, room - |TaskOf(q[0])|);
    }
  }

  /** The single-priority path and the general path do the same to a clean queue with an exact heap. */
  lemma CleanPathsAgree(queues: Queues, heap: multiset<int>, budget: nat)
    requires Clean(queues) && HeapExact(queues, heap) && |heap| == 1 && budget > 0
    ensures var fast, general := SelectSingle(queues, heap, budget), SelectMany(queues, heap, budget, NUM_WAKERS);
      && fast.notified == general.notified
      && fast.purged == general.purged
      && fast.heap == general.heap
      && forall x :: At(fast.queues, x) == At(general.queues, x)
  {
    hide Scan, Live, Dead, Needs, Tasks, SelectMany;
    var p := Top(heap);
    var q := At(queues, p);
    SingletonHeap(heap);
    SelectManyUnfold(queues, heap, budget, NUM_WAKERS);
    assert NoneCancelled(q);
    CleanIgnoresOrder(q, budget, NUM_WAKERS);
    var s := Scan(q, budget, NUM_WAKERS, false);
    if q[0].needs <= budget {
      ScanMembers(q, budget, NUM_WAKERS, true);
      LiveOfClean(s.rest);
      DeadOfClean(s.rest);
      assert heap - multiset{p} == multiset{};
      SelectManyUnfold(queues[p := s.rest], multiset{}, budget - Needs(s.notified), NUM_WAKERS - |Tasks(s.notified)|);
    } else {
      ScanBlocked(q, budget, NUM_WAKERS);
    }
  }

  lemma {:induction false} DeadOfClean(es: seq<Entry>)
    requires NoneCancelled(es)
    ensures Dead(es) == []
  {
    if es != [] { DeadOfClean(es[1..]); }
  }

  lemma ScanBlocked(q: seq<Entry>, budget: nat, room: nat)
    requires NoneCancelled(q) && q != [] && q[0].needs > budget
    ensures Scan(q, budget, room, false) == Scanned(q, [], [])
  {
  }

  /** The queue of `x` loses exactly its notified waiters, which were at its front. */
  ghost predicate LosesNotified(queues: Queues, r: Selected, x: int) {
    At(queues, x) == AtPriority(r.notified, x) + At(r.queues, x)
  }

  lemma SelectLosesNotified(queues: Queues, heap: multiset<int>, budget: nat)
    requires Clean(queues) && Filed(queues)
    ensures forall x :: LosesNotified(queues, Select(queues, heap, budget), x)
  {
    hide Select, FlattenKeys, Live;
    var r := Select(queues, heap, budget);
    forall x ensures LosesNotified(queues, r, x) {
      SelectTakesPrefix(queues, heap, budget, x);
      forall e | e in At(r.queues, x) ensures e.status != Cancelled {
        SelectedCameFrom(queues, heap, budget, e);
        var p :| e in At(queues, p);
        assert NoneCancelled(At(queues, p));
      }
      LiveOfClean(At(r.queues, x));
      assert NoneCancelled(At(queues, x));
      LiveOfClean(At(queues, x));
    }
  }
}
