/** With equal demands, one selection serves exactly the first waiters of the priority order. */
module UniformSelection {
  import opened Basics
  import opened Selection
  import opened SelectionLaws

  /** All demands are `k`, and every live waiter is waiting with its waker stored. */
  ghost predicate UniformQueue(q: seq<Entry>, k: nat) {
    forall e | e in q :: e.needs == k && e.status != Notified && (e.status == Waiting ==> e.waker.Some?)
  }

  ghost predicate Uniform(queues: Queues, k: nat) {
    forall p :: UniformQueue(At(queues, p), k)
  }

  /** The live waiters in the order the semaphore promises: descending priority, then queue order. */
  ghost function LiveOrder(queues: Queues): seq<Entry> {
    Live(Flatten(queues))
  }

  /** How many of `available` waiters are served when the budget holds `whole` demands. */
  function Quota(available: nat, whole: nat, room: nat): nat {
    Min(available, Min(room, whole))
  }

  /** `taken` is the first `n` of `order` and `left` the others. */
  ghost predicate Cut<T>(order: seq<T>, n: nat, taken: seq<T>, left: seq<T>) {
    n <= |order| && taken == order[..n] && left == order[n..]
  }

  // Arithmetic of whole demands in a budget.

  lemma MulLe(m: nat, q: nat, k: nat)
    requires m <= q
    ensures m * k <= q * k
    ensures (q - m) * k == q * k - m * k
  {
  }

  lemma DivUnique(x: nat, k: nat, q: nat, r: nat)
    requires k > 0 && r < k && x == q * k + r
    ensures x / k == q
  {
    var q', r' := x / k, x % k;
    assert x == q' * k + r';
    assert (q + 1) * k == q * k + k && (q' + 1) * k == q' * k + k;
    if q' < q { MulLe(q' + 1, q, k); }
    if q < q' { MulLe(q + 1, q', k); }
  }

  lemma DivShift(budget: nat, m: nat, k: nat)
    requires k > 0 && m <= budget / k
    ensures m * k <= budget && (budget - m * k) / k == budget / k - m
  {
    var q, r := budget / k, budget % k;
    assert budget == q * k + r;
    MulLe(m, q, k);
    DivUnique(budget - m * k, k, q - m, r);
  }

  /** A budget of `budget` permits holds `whole` demands of `k`. */
  ghost predicate Holds(budget: nat, k: nat, whole: nat) {
    k > 0 && whole == budget / k
  }

  lemma HoldsNone(budget: nat, k: nat, whole: nat)
    requires Holds(budget, k, whole)
    ensures k > 0 && (whole == 0 <==> budget < k)
  {
  }

  lemma HoldsLess(budget: nat, k: nat, whole: nat)
    requires Holds(budget, k, whole) && whole > 0
    ensures k <= budget && Holds(budget - k, k, whole - 1)
  {
    DivShift(budget, 1, k);
  }

  ghost predicate ScanServes(q: seq<Entry>, s: Scanned, whole: nat, room: nat) {
    Cut(Live(q), Quota(|Live(q)|, whole, room), s.notified, Live(s.rest))
  }

  lemma ScanServesOne(q: seq<Entry>, s: Scanned, whole: nat, room: nat)
    requires q != [] && q[0].status != Cancelled && whole > 0 && room > 0
    requires ScanServes(q[1..], s, whole - 1, room - 1)
    ensures ScanServes(q, s.(notified := [q[0]] + s.notified), whole, room)
  {
    assert Live(q) == [q[0]] + Live(q[1..]);
  }

  lemma ScanServesSkip(q: seq<Entry>, s: Scanned, whole: nat, room: nat)
    requires q != [] && q[0].status == Cancelled && ScanServes(q[1..], s, whole, room)
    ensures ScanServes(q, s.(purged := [q[0]] + s.purged), whole, room)
  {
    assert Live(q) == Live(q[1..]);
  }

  lemma ScanServesNone(q: seq<Entry>, s: Scanned, whole: nat, room: nat)
    requires s.notified == [] && Live(s.rest) == Live(q) && (q == [] || room == 0 || whole == 0)
    ensures ScanServes(q, s, whole, room)
  {
  }

  lemma {:induction false} ScanUniform(q: seq<Entry>, budget: nat, room: nat, demandFirst: bool, k: nat, whole: nat)
    requires UniformQueue(q, k) && Holds(budget, k, whole)
    ensures ScanServes(q, Scan(q, budget, room, demandFirst), whole, room)
  {
    hide Holds, ScanServes, Live, Needs, Tasks;
    HoldsNone(budget, k, whole);
    if q == [] || room == 0 || whole == 0 {
      ScanNone(q, budget, room, demandFirst, k);
      ScanServesNone(q, Scan(q, budget, room, demandFirst), whole, room);
    } else if q[0].status == Cancelled {
      ScanUniform(q[1..], budget, room, demandFirst, k, whole);
      ScanServesSkip(q, Scan(q[1..], budget, room, demandFirst), whole, room);
    } else {
      HoldsLess(budget, k, whole);
      ScanUniform(q[1..], budget - k, room - 1, demandFirst, k, whole - 1);
      ScanServesOne(q, Scan(q[1..], budget - k, room - 1, demandFirst), whole, room);
    }
  }

  lemma {:induction false} ScanNone(q: seq<Entry>, budget: nat, room: nat, demandFirst: bool, k: nat)
    requires UniformQueue(q, k) && (q == [] || room == 0 || budget < k)
    ensures var s := Scan(q, budget, room, demandFirst); s.notified == [] && Live(s.rest) == Live(q)
  {
    if q != [] && room > 0 && q[0].status == Cancelled {
      ScanNone(q[1..], budget, room, demandFirst, k);
    }
  }

  /** Serving `es` leaves a budget that holds as many demands fewer. */
  lemma {:induction false} UniformTotals(es: seq<Entry>, budget: nat, k: nat, whole: nat)
    requires UniformQueue(es, k) && NoneCancelled(es) && Holds(budget, k, whole) && |es| <= whole
    ensures Needs(es) <= budget && Holds(budget - Needs(es), k, whole - |es|)
    ensures |Tasks(es)| == |es|
  {
    hide Holds;
    if es != [] {
      HoldsLess(budget, k, whole);
      UniformTotals(es[1..], budget - k, k, whole - 1);
    }
  }

  /** With less than one demand left, or no slot, the remaining rounds change no queue. */
  lemma {:induction false} SelectManyStuck(queues: Queues, heap: multiset<int>, budget: nat, room: nat, k: nat)
    requires Uniform(queues, k) && (room == 0 || budget < k)
    ensures var r := SelectMany(queues, heap, budget, room); r.notified == [] && r.queues == queues
    decreases |heap|
  {
    hide Scan, Live, Dead, FlattenKeys;
    if PopsStale(queues, heap, budget, room) {
      SelectManyStuck(queues, heap - multiset{Top(heap)}, budget, room, k);
    } else if |heap| > 0 {
      assert UniformQueue(At(queues, Top(heap)), k);
    }
  }

  /** The promised order starts with the queue of the highest priority that has waiters. */
  lemma LiveOrderTop(queues: Queues, p: int)
    requires forall x | x > p :: At(queues, x) == []
    ensures LiveOrder(queues) == Live(At(queues, p)) + LiveOrder(queues[p := []])
  {
    FlattenTop(queues, p);
    LiveConcat(At(queues, p), Flatten(queues[p := []]));
  }

  lemma CutTwice<T>(first: seq<T>, others: seq<T>, m: nat, n: nat,
                    taken: seq<T>, mid: seq<T>, taken': seq<T>, left: seq<T>)
    requires Cut(first, m, taken, mid) && Cut(mid + others, n, taken', left)
    ensures Cut(first + others, m + n, taken + taken', left)
  {
  }

  /** `r` serves the first waiters of the promised order, as many as the quota allows, and keeps the others in order. */
  ghost predicate ServesFirst(queues: Queues, r: Selected, whole: nat, room: nat) {
    var order := LiveOrder(queues);
    Cut(order, Quota(|order|, whole, room), r.notified, LiveOrder(r.queues))
  }

  lemma QuotaTwice(first: nat, others: nat, whole: nat, room: nat)
    ensures var m := Quota(first, whole, room);
      Quota(first + others, whole, room) == m + Quota(first - m + others, whole - m, room - m)
  {
  }

  lemma RoundServesFirst(queues: Queues, p: int, s: Scanned, later: Selected, whole: nat, room: nat)
    requires forall x | x > p :: At(queues, x) == []
    requires Cut(Live(At(queues, p)), Quota(|Live(At(queues, p))|, whole, room), s.notified, Live(s.rest))
    requires var m := Quota(|Live(At(queues, p))|, whole, room);
      ServesFirst(queues[p := Live(s.rest)], later, whole - m, room - m)
    ensures ServesFirst(queues, Combine(p, s, later), whole, room)
  {
    hide Live, FlattenKeys, Flatten, Dead, LiveOrder, Cut;
    var first, mid := Live(At(queues, p)), Live(s.rest);
    var m := Quota(|first|, whole, room);
    var queues' := queues[p := mid];
    var others := LiveOrder(queues[p := []]);
    assert LiveOrder(queues) == first + others by { LiveOrderTop(queues, p); }
    assert LiveOrder(queues') == mid + others by {
      assert forall x | x > p :: At(queues', x) == At(queues, x);
      LiveOrderTop(queues', p);
      LiveIdempotent(s.rest);
      assert queues'[p := []] == queues[p := []];
    }
    QuotaTwice(|first|, |others|, whole, room);
    CutTwice(first, others, m, Quota(|mid + others|, whole - m, room - m),
             s.notified, mid, later.notified, LiveOrder(later.queues));
  }

  lemma UniformAfter(queues: Queues, p: int, s: Scanned, k: nat)
    requires Uniform(queues, k) && forall e | e in s.rest :: e in At(queues, p)
    ensures Uniform(queues[p := Live(s.rest)], k)
  {
    LiveOrDead(s.rest);
    assert UniformQueue(At(queues, p), k);
    var after := queues[p := Live(s.rest)];
    forall x ensures UniformQueue(At(after, x), k) {
      assert UniformQueue(At(queues, x), k);
    }
  }

  lemma StuckServesFirst(queues: Queues, r: Selected, whole: nat, room: nat)
    requires r.notified == [] && r.queues == queues && (room == 0 || whole == 0)
    ensures ServesFirst(queues, r, whole, room)
  {
  }

  lemma {:induction false} SelectManyUniform(queues: Queues, heap: multiset<int>, budget: nat, room: nat,
                                             k: nat, whole: nat)
    requires Uniform(queues, k) && Covered(queues, heap) && Holds(budget, k, whole)
    ensures ServesFirst(queues, SelectMany(queues, heap, budget, room), whole, room)
    decreases |heap|
  {
    hide SelectMany, Scan, Live, Dead, Needs, Tasks, FlattenKeys, Holds, LiveOrder, ServesFirst;
    SelectManyUnfold(queues, heap, budget, room);
    HoldsNone(budget, k, whole);
    if Serves(queues, heap, budget, room) {
      var p := Top(heap);
      var q := At(queues, p);
      var s := Scan(q, budget, room, true);
      var queues' := queues[p := Live(s.rest)];
      assert UniformQueue(q, k);
      ScanUniform(q, budget, room, true, k, whole);
      ScanMembers(q, budget, room, true);
      ScanSorts(q, budget, room, true);
      UniformTotals(s.notified, budget, k, whole);
      UniformAfter(queues, p, s, k);
      var budget', room', whole' := budget - Needs(s.notified), room - |s.notified|, whole - |s.notified|;
      if Live(s.rest) == [] {
        forall x | At(queues', x) != [] ensures x in heap - multiset{p} { assert At(queues, x) != []; }
        SelectManyUniform(queues', heap - multiset{p}, budget', room', k, whole');
      } else {
        HoldsNone(budget', k, whole');
        SelectManyStuck(queues', heap - multiset{p}, budget', room', k);
        StuckServesFirst(queues', SelectMany(queues', heap - multiset{p}, budget', room'), whole', room');
      }
      assert forall x | x > p :: At(queues, x) == [];
      RoundServesFirst(queues, p, s, SelectMany(queues', heap - multiset{p}, budget', room'), whole, room);
    } else if PopsStale(queues, heap, budget, room) {
      SelectManyUniform(queues, heap - multiset{Top(heap)}, budget, room, k, whole);
    } else {
      StopServesFirst(queues, heap, budget, room, k, whole);
    }
  }

  /** A round that stops at once had nothing to serve. */
  lemma StopServesFirst(queues: Queues, heap: multiset<int>, budget: nat, room: nat, k: nat, whole: nat)
    requires Uniform(queues, k) && Covered(queues, heap) && Holds(budget, k, whole)
    requires !Serves(queues, heap, budget, room) && !PopsStale(queues, heap, budget, room)
    ensures ServesFirst(queues, Selected(queues, heap, [], []), whole, room)
  {
    HoldsNone(budget, k, whole);
    if |heap| == 0 {
      FlattenEmpty(queues);
      LiveOfNone(Flatten(queues));
    } else if budget > 0 && room > 0 {
      assert UniformQueue(At(queues, Top(heap)), k);
    }
  }

  lemma LiveOfNone(es: seq<Entry>)
    requires es == []
    ensures Live(es) == []
  {
  }

  lemma SelectSingleUniform(queues: Queues, heap: multiset<int>, budget: nat, k: nat)
    requires k > 0 && Uniform(queues, k) && Covered(queues, heap) && |heap| == 1
    ensures ServesFirst(queues, SelectSingle(queues, heap, budget), budget / k, NUM_WAKERS)
  {
    hide Scan, Live, Needs, Tasks, FlattenKeys;
    var p := Top(heap);
    var q := At(queues, p);
    var r := SelectSingle(queues, heap, budget);
    SingletonHeap(heap);
    assert forall x | x != p :: At(queues, x) == [] && At(r.queues, x) == [];
    assert UniformQueue(q, k);
    ScanUniform(q, budget, NUM_WAKERS, false, k, budget / k);
    OnlyQueue(queues, p);
    OnlyQueue(r.queues, p);
    LiveOfNone([]);
  }

  lemma OnlyQueue(queues: Queues, p: int)
    requires forall x | x != p :: At(queues, x) == []
    ensures LiveOrder(queues) == Live(At(queues, p))
  {
    LiveOrderTop(queues, p);
    var rest := queues[p := []];
    forall x ensures At(rest, x) == [] {
      if x != p { assert At(queues, x) == []; }
    }
    FlattenEmpty(rest);
    LiveOfNone(Flatten(rest));
  }

  /**
   When all demands equal `k`, a selection of budget `budget`, on either path and with cancelled waiters
   anywhere, notifies exactly the first min(live, 32, budget / k) live waiters of the promised order and
   keeps the remaining live ones in that order.
   */
  lemma SelectUniform(queues: Queues, heap: multiset<int>, budget: nat, k: nat)
    requires k > 0 && Uniform(queues, k) && Covered(queues, heap)
    ensures ServesFirst(queues, Select(queues, heap, budget), budget / k, NUM_WAKERS)
  {
    if budget == 0 || Flatten(queues) == [] {
    } else if |heap| == 1 {
      SelectSingleUniform(queues, heap, budget, k);
    } else {
      SelectManyUniform(queues, heap, budget, NUM_WAKERS, k, budget / k);
    }
  }
}
