/** The priority wait queue: queues by priority, a max-heap of active priorities and a counter. */
module WaitQueues {
  import opened Basics
  import opened Config
  import opened Selection
  import opened SelectionLaws
  import opened Waiters

  // A snapshot remembers how waiters looked when a selection began.

  type Snapshot = map<Waiter, Entry>

  ghost predicate Knows(snap: Snapshot, q: seq<Waiter>) {
    forall i | 0 <= i < |q| :: q[i] in snap
  }

  ghost function Look(snap: Snapshot, q: seq<Waiter>): (es: seq<Entry>)
    requires Knows(snap, q)
    ensures |es| == |q| && forall i | 0 <= i < |q| :: es[i] == snap[q[i]]
  {
    seq(|q|, i requires 0 <= i < |q| => snap[q[i]])
  }

  ghost predicate Unchanged(snap: Snapshot, w: Waiter)
    reads w
  {
    w in snap && w.View() == snap[w]
  }

  /** `w` was notified: its state is set and its waker taken, if it was still waiting. */
  ghost predicate WasNotified(snap: Snapshot, w: Waiter)
    reads w
  {
    && w in snap
    && if snap[w].status == Waiting
       then w.status == Notified && w.waker == None
       else w.status == snap[w].status && w.waker == snap[w].waker
  }

  ghost predicate Distinct<T>(q: seq<T>) {
    forall i, j | 0 <= i < j < |q| :: q[i] != q[j]
  }

  /** A scan `s` of `q` leaves `rest` and notifies `picked`; all other waiters of `q` look as before. */
  ghost predicate Scans(snap: Snapshot, q: seq<Waiter>, rest: seq<Waiter>, picked: seq<Waiter>, s: Scanned)
    requires Knows(snap, q)
    reads q, picked
  {
    && |rest| <= |q| && rest == q[|q| - |rest|..]
    && Look(snap, rest) == s.rest
    && Knows(snap, picked) && Look(snap, picked) == s.notified
    && (forall w | w in picked :: w in q && w !in rest && WasNotified(snap, w))
    && (forall w | w in q && w !in picked :: Unchanged(snap, w))
  }

  // One step of a scanning loop, on values.

  /** `whole` is what was already notified and purged, followed by the scan `s` of what is left. */
  ghost predicate Ahead(whole: Scanned, notified: seq<Entry>, purged: seq<Entry>, s: Scanned) {
    whole == Scanned(s.rest, notified + s.notified, purged + s.purged)
  }

  lemma AheadStart(whole: Scanned)
    ensures Ahead(whole, [], [], whole)
  {
  }

  lemma AheadSkip(whole: Scanned, notified: seq<Entry>, purged: seq<Entry>,
                  es: seq<Entry>, budget: nat, room: nat, demandFirst: bool)
    requires es != [] && room > 0 && budget > 0 && es[0].status == Cancelled
    requires demandFirst ==> es[0].needs <= budget
    requires Ahead(whole, notified, purged, Scan(es, budget, room, demandFirst))
    ensures Ahead(whole, notified, purged + [es[0]], Scan(es[1..], budget, room, demandFirst))
  {
    Assoc(purged, [es[0]], Scan(es[1..], budget, room, demandFirst).purged);
  }

  lemma AheadTake(whole: Scanned, notified: seq<Entry>, purged: seq<Entry>,
                  es: seq<Entry>, budget: nat, room: nat, demandFirst: bool)
    requires es != [] && room > 0 && 0 < budget && es[0].needs <= budget && es[0].status != Cancelled
    requires Ahead(whole, notified, purged, Scan(es, budget, room, demandFirst))
    ensures Ahead(whole, notified + [es[0]], purged,
                  Scan(es[1..], budget - es[0].needs, room - |TaskOf(es[0])|, demandFirst))
  {
    Assoc(notified, [es[0]], Scan(es[1..], budget - es[0].needs, room - |TaskOf(es[0])|, demandFirst).notified);
  }

  lemma AheadStop(whole: Scanned, notified: seq<Entry>, purged: seq<Entry>,
                  es: seq<Entry>, budget: nat, room: nat, demandFirst: bool)
    requires es == [] || room == 0 || budget == 0 || (es[0].needs > budget && (demandFirst || es[0].status != Cancelled))
    requires Ahead(whole, notified, purged, Scan(es, budget, room, demandFirst))
    ensures whole == Scanned(es, notified, purged)
  {
  }

  lemma TotalsOfOneMore(es: seq<Entry>, e: Entry)
    ensures Needs(es + [e]) == Needs(es) + e.needs
    ensures Tasks(es + [e]) == Tasks(es) + TaskOf(e)
  {
    NeedsConcat(es, [e]);
    TasksConcat(es, [e]);
  }

  /** The loop state shared by both scanning loops. */
  ghost predicate Scanning(snap: Snapshot, q: seq<Waiter>, rest: seq<Waiter>, picked: seq<Waiter>, notified: seq<Entry>)
    reads q, picked
  {
    && Knows(snap, q)
    && |rest| <= |q| && rest == q[|q| - |rest|..]
    && Knows(snap, rest)
    && Knows(snap, picked) && Look(snap, picked) == notified
    && (forall w | w in picked :: w in q && w !in rest && WasNotified(snap, w))
    && (forall w | w in q && w !in picked :: Unchanged(snap, w))
  }

  lemma ScanningStart(snap: Snapshot, q: seq<Waiter>)
    requires Knows(snap, q) && forall w | w in q :: Unchanged(snap, w)
    ensures Scanning(snap, q, q, [], [])
  {
  }

  lemma ScanningKnows(snap: Snapshot, q: seq<Waiter>, rest: seq<Waiter>, picked: seq<Waiter>, notified: seq<Entry>)
    requires Scanning(snap, q, rest, picked, notified)
    ensures Knows(snap, rest) && |rest| <= |q|
  {
  }

  lemma ScanningEnd(snap: Snapshot, q: seq<Waiter>, rest: seq<Waiter>, picked: seq<Waiter>,
                    notified: seq<Entry>, s: Scanned)
    requires Knows(snap, q) && Scanning(snap, q, rest, picked, notified)
    requires Look(snap, rest) == s.rest && notified == s.notified
    ensures Scans(snap, q, rest, picked, s)
  {
  }

  lemma ScanningStep(snap: Snapshot, q: seq<Waiter>, rest: seq<Waiter>, picked: seq<Waiter>, notified: seq<Entry>)
    requires Knows(snap, q) && Distinct(q) && rest != [] && Scanning(snap, q, rest, picked, notified)
    ensures Scanning(snap, q, rest[1..], picked, notified)
    ensures rest[0] in q && rest[0] !in picked && rest[0] !in rest[1..] && Unchanged(snap, rest[0])
    ensures Knows(snap, rest) && Look(snap, rest)[1..] == Look(snap, rest[1..])
  {
    var i := |q| - |rest|;
    assert rest[0] == q[i];
  }

  /** Pops the head of `rest` and notifies it. */
  method ServeHead(ghost snap: Snapshot, ghost q: seq<Waiter>, rest: seq<Waiter>, ghost picked: seq<Waiter>,
                   ghost notified: seq<Entry>, wakeList: WakeList)
    requires Knows(snap, q) && Distinct(q) && rest != [] && Scanning(snap, q, rest, picked, notified)
    requires wakeList.Valid() && wakeList.CanPush()
    modifies rest[0], wakeList`count, wakeList.wakers
    ensures wakeList.Valid()
    ensures Scanning(snap, q, rest[1..], picked + [rest[0]], notified + [snap[rest[0]]])
    ensures wakeList.Collected() == old(wakeList.Collected()) + TaskOf(snap[rest[0]])
  {
    ScanningStep(snap, q, rest, picked, notified);
    NotifyInto(rest[0], wakeList);
  }

  // The waiters of a queue map, through a snapshot.

  ghost predicate KnowsAll(snap: Snapshot, queues: map<int, seq<Waiter>>) {
    forall p | p in queues :: Knows(snap, queues[p])
  }

  ghost function LookAll(snap: Snapshot, queues: map<int, seq<Waiter>>): Queues
    requires KnowsAll(snap, queues)
  {
    map p | p in queues :: Look(snap, queues[p])
  }

  /** Waiters sit in their own priority's queue, in one slot each. */
  ghost predicate Shaped(queues: map<int, seq<Waiter>>) {
    && (forall p, i | p in queues && 0 <= i < |queues[p]| :: queues[p][i].priority == p)
    && (forall p | p in queues :: Distinct(queues[p]))
  }

  lemma LookAllUpdate(snap: Snapshot, queues: map<int, seq<Waiter>>, p: int, q: seq<Waiter>)
    requires KnowsAll(snap, queues) && Knows(snap, q)
    ensures KnowsAll(snap, queues[p := q])
    ensures LookAll(snap, queues[p := q]) == LookAll(snap, queues)[p := Look(snap, q)]
  {
  }

  lemma LookAllWithout(snap: Snapshot, queues: map<int, seq<Waiter>>, p: int)
    requires KnowsAll(snap, queues)
    ensures KnowsAll(snap, queues - {p}) && LookAll(snap, queues - {p}) == LookAll(snap, queues) - {p}
  {
  }

  lemma LookAllAt(snap: Snapshot, queues: map<int, seq<Waiter>>, p: int)
    requires KnowsAll(snap, queues)
    ensures Knows(snap, At(queues, p)) && At(LookAll(snap, queues), p) == Look(snap, At(queues, p))
  {
  }

  /** `kept` are some of the waiters of `q`, in `q`'s order. */
  ghost predicate Thins(q: seq<Waiter>, kept: seq<Waiter>) {
    |kept| <= |q| && Distinct(kept) && forall w | w in kept :: w in q
  }

  lemma ShapedUpdate(queues: map<int, seq<Waiter>>, p: int, kept: seq<Waiter>)
    requires Shaped(queues) && p in queues && Thins(queues[p], kept)
    ensures Shaped(queues[p := kept])
  {
    forall i | 0 <= i < |kept| ensures kept[i].priority == p {
      assert kept[i] in queues[p];
    }
  }

  /** Every waiter of the snapshot was notified if it is in `picked`, and looks as before otherwise. */
  ghost predicate Reflects(snap: Snapshot, picked: seq<Waiter>)
    reads snap.Keys
  {
    forall w | w in snap :: if w in picked then WasNotified(snap, w) else Unchanged(snap, w)
  }

  /** `picked`, seen as `notified`, have left the queues. */
  ghost predicate Selecting(snap: Snapshot, queues: map<int, seq<Waiter>>, picked: seq<Waiter>, notified: seq<Entry>) {
    && KnowsAll(snap, queues) && Shaped(queues)
    && Knows(snap, picked) && Look(snap, picked) == notified
    && (forall p, i | p in queues && 0 <= i < |queues[p]| :: queues[p][i] !in picked)
  }

  lemma SelectingStart(snap: Snapshot, queues: map<int, seq<Waiter>>)
    requires KnowsAll(snap, queues) && Shaped(queues)
    ensures Selecting(snap, queues, [], [])
  {
  }

  lemma SelectingQueue(snap: Snapshot, queues: map<int, seq<Waiter>>, picked: seq<Waiter>, notified: seq<Entry>, p: int)
    requires Selecting(snap, queues, picked, notified) && p in queues
    ensures Knows(snap, queues[p]) && Distinct(queues[p]) && forall w | w in queues[p] :: w !in picked
  {
  }

  lemma SelectingHead(snap: Snapshot, queues: map<int, seq<Waiter>>, picked: seq<Waiter>, notified: seq<Entry>, p: int,
                      heap: multiset<int>, budget: nat, room: nat)
    requires Selecting(snap, queues, picked, notified) && Reflects(snap, picked)
    requires |heap| > 0 ==> p == Top(heap)
    ensures var view := LookAll(snap, queues);
      && (PopsStale(view, heap, budget, room) <==> |heap| > 0 && budget > 0 && room > 0 && At(queues, p) == [])
      && (Serves(view, heap, budget, room) <==>
          |heap| > 0 && budget > 0 && room > 0 && At(queues, p) != [] && queues[p][0].needs <= budget)
  {
    LookAllAt(snap, queues, p);
    if At(queues, p) != [] { assert Unchanged(snap, queues[p][0]); }
  }

  lemma ReflectsQueue(snap: Snapshot, q: seq<Waiter>)
    requires Knows(snap, q) && Reflects(snap, [])
    ensures forall w | w in q :: Unchanged(snap, w)
  {
  }

  lemma SelectingWithout(snap: Snapshot, queues: map<int, seq<Waiter>>, picked: seq<Waiter>, notified: seq<Entry>, p: int)
    requires Selecting(snap, queues[p := []], picked, notified)
    ensures Selecting(snap, queues - {p}, picked, notified)
  {
    forall x | x in queues - {p} ensures Knows(snap, queues[x]) && Distinct(queues[x]) {
      assert queues[p := []][x] == queues[x];
    }
    forall x, i | x in queues - {p} && 0 <= i < |queues[x]| ensures queues[x][i].priority == x && queues[x][i] !in picked {
      assert queues[p := []][x][i] == queues[x][i];
    }
  }

  lemma SelectingFacts(snap: Snapshot, queues: map<int, seq<Waiter>>, picked: seq<Waiter>, notified: seq<Entry>)
    requires Selecting(snap, queues, picked, notified)
    ensures KnowsAll(snap, queues) && Shaped(queues) && Knows(snap, picked) && Look(snap, picked) == notified
  {
  }

  /** What the single-priority path computes, through a snapshot. */
  lemma SingleOutcome(snap: Snapshot, queues: map<int, seq<Waiter>>, heap: multiset<int>, available: nat,
                      rest: seq<Waiter>)
    requires KnowsAll(snap, queues) && |heap| == 1 && Top(heap) in queues && Knows(snap, queues[Top(heap)]) && Knows(snap, rest)
    requires Look(snap, rest) == Scan(Look(snap, queues[Top(heap)]), available, NUM_WAKERS, false).rest
    ensures var p := Top(heap);
      var r := SelectSingle(LookAll(snap, queues), heap, available);
      var after := if rest == [] then queues - {p} else queues[p := rest];
      && KnowsAll(snap, after) && LookAll(snap, after) == r.queues
      && r.notified == Scan(Look(snap, queues[p]), available, NUM_WAKERS, false).notified
      && r.heap == (if rest == [] then multiset{} else multiset{p})
  {
    hide Scan;
    LookAllWithout(snap, queues, Top(heap));
    LookAllUpdate(snap, queues, Top(heap), rest);
  }

  lemma SingleStale(snap: Snapshot, queues: map<int, seq<Waiter>>, heap: multiset<int>, available: nat)
    requires KnowsAll(snap, queues) && |heap| == 1 && Top(heap) !in queues
    ensures var view := LookAll(snap, queues);
      SelectSingle(view, heap, available) == Selected(view, multiset{}, [], [])
  {
  }

  lemma ScansFacts(snap: Snapshot, q: seq<Waiter>, rest: seq<Waiter>, picked: seq<Waiter>, s: Scanned)
    requires Knows(snap, q) && Distinct(q) && Scans(snap, q, rest, picked, s)
    ensures Thins(q, rest) && Knows(snap, rest) && Look(snap, rest) == s.rest
    ensures Knows(snap, picked) && Look(snap, picked) == s.notified
    ensures forall w | w in picked :: w in q && w !in rest && WasNotified(snap, w)
    ensures forall w | w in q && w !in picked :: Unchanged(snap, w)
  {
  }

  lemma ReflectsAfter(snap: Snapshot, q: seq<Waiter>, picked: seq<Waiter>, more: seq<Waiter>)
    requires Knows(snap, q)
    requires forall w | w in snap && w !in q :: if w in picked then WasNotified(snap, w) else Unchanged(snap, w)
    requires forall w | w in q :: w !in picked
    requires forall w | w in more :: w in q && WasNotified(snap, w)
    requires forall w | w in q && w !in more :: Unchanged(snap, w)
    ensures Reflects(snap, picked + more)
  {
  }

  lemma SelectingRound(snap: Snapshot, queues: map<int, seq<Waiter>>, picked: seq<Waiter>, notified: seq<Entry>,
                       p: int, kept: seq<Waiter>, picked': seq<Waiter>)
    requires Selecting(snap, queues, picked, notified)
    requires p in queues && Thins(queues[p], kept) && Knows(snap, picked')
    requires forall w | w in picked' :: w in queues[p] && w !in kept
    ensures Selecting(snap, queues[p := kept], picked + picked', notified + Look(snap, picked'))
  {
    var after := queues[p := kept];
    ShapedUpdate(queues, p, kept);
    forall i | 0 <= i < |kept| ensures kept[i] !in picked + picked' && kept[i] in snap {
      assert kept[i] in queues[p];
    }
    forall x, i | x in after && 0 <= i < |after[x]| ensures after[x][i] !in picked + picked' {
      if x != p {
        assert after[x][i].priority == x;
        assert forall w | w in picked' :: w.priority == p;
      }
    }
  }

  /** Where the general path stands: what it did so far, and the selection `r` still ahead of it. */
  ghost predicate AheadMany(whole: Selected, restore: seq<int>, notified: seq<Entry>, purged: seq<Entry>, r: Selected) {
    whole == Selected(r.queues, r.heap + multiset(restore), notified + r.notified, purged + r.purged)
  }

  /** The local variables of the general path agree with the selection `whole` of `available` permits. */
  ghost predicate Progress(whole: Selected, available: nat, restore: seq<int>, notified: seq<Entry>, purged: seq<Entry>,
                           permits: nat, tasks: seq<Task>, view: Queues, heap: multiset<int>, budget: nat, room: nat) {
    && permits == Needs(notified) && budget + permits == available && tasks == Tasks(notified)
    && AheadMany(whole, restore, notified, purged, SelectMany(view, heap, budget, room))
  }

  lemma ProgressStart(available: nat, view: Queues, heap: multiset<int>)
    ensures Progress(SelectMany(view, heap, available, NUM_WAKERS), available, [], [], [], 0, [], view, heap, available, NUM_WAKERS)
  {
    EmptyTotals();
  }

  lemma ProgressRound(whole: Selected, available: nat, restore: seq<int>, notified: seq<Entry>, purged: seq<Entry>,
                      permits: nat, tasks: seq<Task>, view: Queues, heap: multiset<int>, budget: nat, room: nat)
    requires Serves(view, heap, budget, room)
    requires Progress(whole, available, restore, notified, purged, permits, tasks, view, heap, budget, room)
    ensures var p := Top(heap);
      var s := Scan(At(view, p), budget, room, true);
      Progress(whole, available, if Live(s.rest) == [] then restore else restore + [p],
               notified + s.notified, purged + (s.purged + Dead(s.rest)),
               permits + Needs(s.notified), tasks + Tasks(s.notified), view[p := Live(s.rest)], heap - multiset{p},
               budget - Needs(s.notified), room - |Tasks(s.notified)|)
  {
    hide SelectMany, Scan, Live, Dead, Needs, Tasks;
    SelectManyUnfold(view, heap, budget, room);
    var p := Top(heap);
    var s := Scan(At(view, p), budget, room, true);
    var later := SelectMany(view[p := Live(s.rest)], heap - multiset{p}, budget - Needs(s.notified), room - |Tasks(s.notified)|);
    Assoc(notified, s.notified, later.notified);
    Assoc(purged, s.purged + Dead(s.rest), later.purged);
    BagConcat(restore, [p]);
    NeedsConcat(notified, s.notified);
    TasksConcat(notified, s.notified);
  }

  lemma ProgressStale(whole: Selected, available: nat, restore: seq<int>, notified: seq<Entry>, purged: seq<Entry>,
                      permits: nat, tasks: seq<Task>, view: Queues, heap: multiset<int>, budget: nat, room: nat)
    requires PopsStale(view, heap, budget, room)
    requires Progress(whole, available, restore, notified, purged, permits, tasks, view, heap, budget, room)
    ensures Progress(whole, available, restore, notified, purged, permits, tasks, view, heap - multiset{Top(heap)}, budget, room)
  {
    SelectManyUnfold(view, heap, budget, room);
  }

  lemma ProgressStop(whole: Selected, available: nat, restore: seq<int>, notified: seq<Entry>, purged: seq<Entry>,
                     permits: nat, tasks: seq<Task>, view: Queues, heap: multiset<int>, budget: nat, room: nat)
    requires |heap| > 0 && budget > 0 && room > 0 ==> !Serves(view, heap, budget, room) && !PopsStale(view, heap, budget, room)
    requires Progress(whole, available, restore, notified, purged, permits, tasks, view, heap, budget, room)
    ensures whole == Selected(view, heap + multiset(restore), notified, purged)
    ensures permits == Needs(notified) && tasks == Tasks(notified)
  {
    hide Needs, Tasks;
    SelectManyUnfold(view, heap, budget, room);
  }

  lemma RetainOne(q: seq<Waiter>, i: nat, kept: seq<Waiter>, snap: Snapshot)
    requires Distinct(q) && Knows(snap, q) && i < |q|
    requires Thins(q[..i], kept) && Knows(snap, kept) && Look(snap, kept) == Live(Look(snap, q)[..i])
    ensures var kept' := if snap[q[i]].status == Cancelled then kept else kept + [q[i]];
      Thins(q[..i + 1], kept') && Knows(snap, kept') && Look(snap, kept') == Live(Look(snap, q)[..i + 1])
  {
    hide Live;
    var es := Look(snap, q);
    assert q[i] !in q[..i];
    assert q[..i + 1] == q[..i] + [q[i]] && es[..i + 1] == es[..i] + [es[i]];
    LiveConcat(es[..i], [es[i]]);
    LiveOfOne(es[i]);
    assert Look(snap, kept + [q[i]]) == Look(snap, kept) + [es[i]];
  }

  // Keeps the waiters that are not cancelled, in order.
  method RetainLive(q: seq<Waiter>, ghost snap: Snapshot) returns (kept: seq<Waiter>)
    requires Distinct(q) && Knows(snap, q) && forall w | w in q :: Unchanged(snap, w)
    ensures Thins(q, kept) && Knows(snap, kept) && Look(snap, kept) == Live(Look(snap, q))
  {
    hide Look, Thins, Live, Distinct;
    kept := [];
    RetainNone(q, snap);
    for i := 0 to |q|
      invariant Thins(q[..i], kept) && Knows(snap, kept) && Look(snap, kept) == Live(Look(snap, q)[..i])
    {
      assert q[i] in q && Unchanged(snap, q[i]);
      RetainOne(q, i, kept, snap);
      if q[i].status != Cancelled {
        kept := kept + [q[i]];
      }
    }
    assert q[..|q|] == q && Look(snap, q)[..|q|] == Look(snap, q);
  }

  lemma RetainNone(q: seq<Waiter>, snap: Snapshot)
    requires Knows(snap, q)
    ensures Thins(q[..0], []) && Knows(snap, []) && Look(snap, []) == Live(Look(snap, q)[..0])
  {
  }

  lemma LiveOfOne(e: Entry)
    ensures Live([e]) == if e.status == Cancelled then [] else [e]
  {
  }

  /** `q` without the first occurrence of `x`. */
  ghost function Without<T>(q: seq<T>, x: T): seq<T> {
    if q == [] then [] else if q[0] == x then q[1..] else [q[0]] + Without(q[1..], x)
  }

  lemma {:induction false} WithoutFirst<T>(q: seq<T>, x: T, i: nat)
    requires i <= |q| && x !in q[..i] && (i < |q| ==> q[i] == x)
    ensures Without(q, x) == if i < |q| then q[..i] + q[i + 1..] else q
  {
    if i > 0 {
      var rest := q[1..];
      assert q[0] in q[..i];
      assert rest[..i - 1] == q[1..i];
      WithoutFirst(rest, x, i - 1);
      if i < |q| {
        assert rest[i..] == q[i + 1..];
        assert [q[0]] + (q[1..i] + q[i + 1..]) == q[..i] + q[i + 1..];
      } else {
        assert [q[0]] + rest == q;
      }
    }
  }

  lemma ThinsWithout(q: seq<Waiter>, i: nat)
    requires Distinct(q) && i < |q|
    ensures Thins(q, q[..i] + q[i + 1..])
  {
  }

  lemma ShapedDistinct(queues: map<int, seq<Waiter>>, p: int)
    requires Shaped(queues) && p in queues
    ensures Distinct(queues[p])
  {
  }

  method CancelAll(waiters: seq<Waiter>) returns (woken: set<Task>)
    modifies waiters
    ensures forall w | w in waiters :: w.status == Cancelled && w.waker == old(w.waker)
    ensures woken == set w | w in waiters && old(w.status) != Cancelled && old(w.waker).Some? :: old(w.waker).value
  {
    woken := {};
    for i := 0 to |waiters|
      invariant forall w | w in waiters[..i] :: w.status == Cancelled
      invariant forall w | w in waiters :: w.waker == old(w.waker)
      invariant forall w | w in waiters && w !in waiters[..i] :: unchanged(w)
      invariant woken == set w | w in waiters[..i] && old(w.status) != Cancelled && old(w.waker).Some? :: old(w.waker).value
    {
      var w := waiters[i];
      assert waiters[..i + 1] == waiters[..i] + [w];
      var one := w.Cancel();
      if one.Some? { woken := woken + {one.value}; }
    }
    assert waiters[..|waiters|] == waiters;
  }

  /** `queues` with `w` added to its priority's queue: last for FIFO, first for LIFO. */
  ghost function Inserted(queues: map<int, seq<Waiter>>, w: Waiter, strategy: QueueStrategy): map<int, seq<Waiter>> {
    queues[w.priority := if strategy == Fifo then At(queues, w.priority) + [w] else [w] + At(queues, w.priority)]
  }

  lemma InsertedShape(queues: map<int, seq<Waiter>>, w: Waiter, strategy: QueueStrategy)
    requires Shaped(queues) && forall p | p in queues :: w !in queues[p]
    ensures Shaped(Inserted(queues, w, strategy))
  {
  }

  class WaitQueue {
    var queues: map<int, seq<Waiter>>
    var heap: multiset<int>
    const config: PriorityConfig
    var closed: bool
    var total: nat

    constructor (config: PriorityConfig)
      ensures Valid() && queues == map[] && heap == multiset{} && !closed && this.config == config
    {
      queues, heap, this.config, closed, total := map[], multiset{}, config, false, 0;
    }

    ghost function Members(): set<Waiter>
      reads this
    {
      set p, i | p in queues && 0 <= i < |queues[p]| :: queues[p][i]
    }

    ghost predicate Valid()
      reads this
    {
      Shaped(queues) && Covered(queues, heap) && total == |Flatten(queues)|
    }

    predicate IsEmpty()
      reads this
    {
      total == 0
    }

    // The loop of the single-priority path: cancelled first, then demand.
    method ProcessSinglePriorityFast(q: seq<Waiter>, available: nat, wakeList: WakeList, ghost snap: Snapshot)
      returns (rest: seq<Waiter>, permits: nat, ghost picked: seq<Waiter>)
      requires Distinct(q) && total >= |q| && wakeList.Valid()
      requires Knows(snap, q) && forall w | w in q :: Unchanged(snap, w)
      modifies this`total, q, wakeList`count, wakeList.wakers
      ensures wakeList.Valid()
      ensures var s := Scan(Look(snap, q), available, NUM_WAKERS - old(wakeList.count), false);
        && Scans(snap, q, rest, picked, s)
        && permits == Needs(s.notified)
        && wakeList.Collected() == old(wakeList.Collected()) + Tasks(s.notified)
      ensures total == old(total) - (|q| - |rest|)
    {
      hide Scan, Needs, Tasks, Scanning, Ahead, Look, Scans;
      var budget: nat := available;
      rest, permits, picked := q, 0, [];
      ghost var notified, purged := [], [];
      ghost var whole := Scan(Look(snap, q), available, NUM_WAKERS - wakeList.count, false);
      EmptyTotals();
      ScanningStart(snap, q);
      AheadStart(whole);
      while rest != []
        invariant Scanning(snap, q, rest, picked, notified) && Knows(snap, rest) && |rest| <= |q|
        invariant total == old(total) - (|q| - |rest|)
        invariant wakeList.Valid()
        invariant permits == Needs(notified) && budget + permits == available
        invariant wakeList.Collected() == old(wakeList.Collected()) + Tasks(notified)
        invariant Ahead(whole, notified, purged, Scan(Look(snap, rest), budget, NUM_WAKERS - wakeList.count, false))
      {
        var waiter := rest[0];
        ScanningStep(snap, q, rest, picked, notified);
        ghost var es := Look(snap, rest);
        if !wakeList.CanPush() || budget == 0 { break; }
        if waiter.status == Cancelled {
          AheadSkip(whole, notified, purged, es, budget, NUM_WAKERS - wakeList.count, false);
          purged := purged + [es[0]];
          rest := rest[1..];
          total := total - 1;
          continue;
        }
        if waiter.needs > budget { break; }
        AheadTake(whole, notified, purged, es, budget, NUM_WAKERS - wakeList.count, false);
        TotalsOfOneMore(notified, es[0]);
        Assoc(old(wakeList.Collected()), Tasks(notified), TaskOf(es[0]));
        budget := budget - waiter.needs;
        permits := permits + waiter.needs;
        total := total - 1;
        ServeHead(snap, q, rest, picked, notified, wakeList);
        rest := rest[1..];
        notified := notified + [es[0]];
        picked := picked + [waiter];
      }
      ScanningKnows(snap, q, rest, picked, notified);
      AheadStop(whole, notified, purged, Look(snap, rest), budget, NUM_WAKERS - wakeList.count, false);
      ScanningEnd(snap, q, rest, picked, notified, whole);
    }

    // The inner loop of the general path: demand first, then cancelled.
    method ProcessPriority(q: seq<Waiter>, available: nat, wakeList: WakeList, ghost snap: Snapshot)
      returns (rest: seq<Waiter>, permits: nat, processedAny: bool, ghost picked: seq<Waiter>)
      requires Distinct(q) && total >= |q| && wakeList.Valid()
      requires Knows(snap, q) && forall w | w in q :: Unchanged(snap, w)
      modifies this`total, q, wakeList`count, wakeList.wakers
      ensures wakeList.Valid()
      ensures var s := Scan(Look(snap, q), available, NUM_WAKERS - old(wakeList.count), true);
        && Scans(snap, q, rest, picked, s)
        && permits == Needs(s.notified) && processedAny == (s.notified != [])
        && wakeList.Collected() == old(wakeList.Collected()) + Tasks(s.notified)
      ensures total == old(total) - (|q| - |rest|)
    {
      hide Scan, Needs, Tasks, Scanning, Ahead, Look, Scans;
      var budget: nat := available;
      rest, permits, processedAny, picked := q, 0, false, [];
      ghost var notified, purged := [], [];
      ghost var whole := Scan(Look(snap, q), available, NUM_WAKERS - wakeList.count, true);
      EmptyTotals();
      ScanningStart(snap, q);
      AheadStart(whole);
      while rest != []
        invariant Scanning(snap, q, rest, picked, notified) && Knows(snap, rest) && |rest| <= |q|
        invariant total == old(total) - (|q| - |rest|)
        invariant wakeList.Valid()
        invariant processedAny == (notified != [])
        invariant permits == Needs(notified) && budget + permits == available
        invariant wakeList.Collected() == old(wakeList.Collected()) + Tasks(notified)
        invariant Ahead(whole, notified, purged, Scan(Look(snap, rest), budget, NUM_WAKERS - wakeList.count, true))
      {
        var waiter := rest[0];
        ScanningStep(snap, q, rest, picked, notified);
        ghost var es := Look(snap, rest);
        if !wakeList.CanPush() || budget == 0 { break; }
        if waiter.needs > budget { break; }
        if waiter.status == Cancelled {
          AheadSkip(whole, notified, purged, es, budget, NUM_WAKERS - wakeList.count, true);
          purged := purged + [es[0]];
          rest := rest[1..];
          total := total - 1;
          continue;
        }
        AheadTake(whole, notified, purged, es, budget, NUM_WAKERS - wakeList.count, true);
        TotalsOfOneMore(notified, es[0]);
        Assoc(old(wakeList.Collected()), Tasks(notified), TaskOf(es[0]));
        budget := budget - waiter.needs;
        permits := permits + waiter.needs;
        processedAny := true;
        total := total - 1;
        ServeHead(snap, q, rest, picked, notified, wakeList);
        rest := rest[1..];
        notified := notified + [es[0]];
        picked := picked + [waiter];
      }
      ScanningKnows(snap, q, rest, picked, notified);
      AheadStop(whole, notified, purged, Look(snap, rest), budget, NUM_WAKERS - wakeList.count, true);
      ScanningEnd(snap, q, rest, picked, notified, whole);
    }

    method PeekHeap() returns (p: int)
      requires |heap| > 0
      ensures p == Top(heap)
    {
      ghost var top := Top(heap);
      p :| p in heap && forall x | x in heap :: x <= p;
    }

    // One round of the general path: the queue of `p` is drained, then rid of its remaining cancelled waiters.
    method ServePriority(p: int, budget: nat, wakeList: WakeList, ghost snap: Snapshot,
                         ghost picked: seq<Waiter>, ghost notified: seq<Entry>)
      returns (spent: nat, processedAny: bool, keep: bool, ghost more: seq<Waiter>)
      requires p in queues && total == |Flatten(queues)| && wakeList.Valid()
      requires Selecting(snap, queues, picked, notified) && Reflects(snap, picked)
      modifies this`queues, this`total, snap.Keys, wakeList`count, wakeList.wakers
      ensures wakeList.Valid() && total == |Flatten(queues)|
      ensures old(KnowsAll(snap, queues)) && KnowsAll(snap, queues) && Shaped(queues)
      ensures var view := LookAll(snap, old(queues));
        var s := Scan(At(view, p), budget, NUM_WAKERS - old(wakeList.count), true);
        && LookAll(snap, queues) == view[p := Live(s.rest)]
        && keep == (Live(s.rest) != [])
        && spent == Needs(s.notified) && processedAny == (s.notified != [])
        && wakeList.Collected() == old(wakeList.Collected()) + Tasks(s.notified)
        && Selecting(snap, queues, picked + more, notified + s.notified)
      ensures Reflects(snap, picked + more)
    {
      hide Scan, Live, Needs, Tasks, FlattenKeys, Scanning;
      var q := queues[p];
      SelectingQueue(snap, queues, picked, notified, p);
      LookAllAt(snap, queues, p);
      FlattenLength(queues, p, []);
      var rest;
      rest, spent, processedAny, more := ProcessPriority(q, budget, wakeList, snap);
      ReflectsAfter(snap, q, picked, more);
      var kept := RetainLive(rest, snap);
      var cancelled := |rest| - |kept|;
      if total >= cancelled { total := total - cancelled; }
      SelectingRound(snap, queues, picked, notified, p, kept, more);
      LookAllUpdate(snap, queues, p, kept);
      FlattenLength(queues, p, kept);
      queues := queues[p := kept];
      keep := kept != [];
    }

    method RestorePriorities(restore: seq<int>)
      modifies this`heap
      ensures heap == old(heap) + multiset(restore)
    {
      for i := 0 to |restore|
        invariant heap == old(heap) + multiset(restore[..i])
      {
        assert restore[..i + 1] == restore[..i] + [restore[i]];
        heap := heap + multiset{restore[i]};
      }
      assert restore[..|restore|] == restore;
    }

    // The rest of one iteration of the general path, once the head of the top priority is known to fit.
    method ServeRound(p: int, budget: nat, permits: nat, restore: seq<int>, wakeList: WakeList, ghost whole: Selected,
                      ghost available: nat, ghost snap: Snapshot, ghost picked: seq<Waiter>,
                      ghost notified: seq<Entry>, ghost purged: seq<Entry>)
      returns (budget': nat, permits': nat, restore': seq<int>, processedAny: bool,
               ghost picked': seq<Waiter>, ghost notified': seq<Entry>, ghost purged': seq<Entry>)
      requires |heap| > 0 && p == Top(heap) && p in queues && total == |Flatten(queues)| && wakeList.Valid()
      requires Selecting(snap, queues, picked, notified) && Reflects(snap, picked) && KnowsAll(snap, queues)
      requires Serves(LookAll(snap, queues), heap, budget, NUM_WAKERS - wakeList.count)
      requires Progress(whole, available, restore, notified, purged, permits, wakeList.Collected(),
                        LookAll(snap, queues), heap, budget, NUM_WAKERS - wakeList.count)
      modifies this`queues, this`heap, this`total, snap.Keys, wakeList`count, wakeList.wakers
      ensures wakeList.Valid() && wakeList.count <= NUM_WAKERS && total == |Flatten(queues)| && KnowsAll(snap, queues)
      ensures Selecting(snap, queues, picked', notified') && Reflects(snap, picked')
      ensures Progress(whole, available, restore', notified', purged', permits', wakeList.Collected(),
                       LookAll(snap, queues), heap, budget', NUM_WAKERS - wakeList.count)
      ensures heap == old(heap) - multiset{p}
    {
      hide SelectMany, Scan, Live, Dead, Needs, Tasks, Progress, Selecting, Flatten, Reflects, Shaped, LookAll,
        KnowsAll, Serves;
      ghost var view, room := LookAll(snap, queues), NUM_WAKERS - wakeList.count;
      ghost var s := Scan(At(view, p), budget, room, true);
      ProgressRound(whole, available, restore, notified, purged, permits, wakeList.Collected(), view, heap, budget, room);
      heap := heap - multiset{p};
      var spent, keep; ghost var more;
      spent, processedAny, keep, more := ServePriority(p, budget, wakeList, snap, picked, notified);
      budget' := budget - spent;
      permits' := permits + spent;
      restore' := if keep then restore + [p] else restore;
      picked', notified', purged' := picked + more, notified + s.notified, purged + (s.purged + Dead(s.rest));
    }

    // The outer loop of the general path.
    method ServePriorities(available: nat, wakeList: WakeList, ghost snap: Snapshot)
      returns (permits: nat, restore: seq<int>, ghost picked: seq<Waiter>, ghost purged: seq<Entry>)
      requires Shaped(queues) && total == |Flatten(queues)| && wakeList.Valid() && wakeList.Collected() == []
      requires KnowsAll(snap, queues) && Reflects(snap, [])
      modifies this`queues, this`heap, this`total, snap.Keys, wakeList`count, wakeList.wakers
      ensures wakeList.Valid() && total == |Flatten(queues)| && KnowsAll(snap, queues)
      ensures var r := SelectMany(LookAll(snap, old(queues)), old(heap), available, NUM_WAKERS);
        && r == Selected(LookAll(snap, queues), heap + multiset(restore), r.notified, purged)
        && permits == Needs(r.notified) && wakeList.Collected() == Tasks(r.notified)
        && Selecting(snap, queues, picked, r.notified)
      ensures Reflects(snap, picked)
    {
      hide SelectMany, Scan, Live, Dead, Needs, Tasks, Progress, Selecting, Flatten, Reflects, Shaped, LookAll, KnowsAll,
        Serves, PopsStale, Knows, Look, WakeList.Valid, Top;
      var budget: nat := available;
      permits, restore, picked, purged := 0, [], [], [];
      ghost var notified := [];
      ghost var whole := SelectMany(LookAll(snap, queues), heap, available, NUM_WAKERS);
      assert wakeList.count == 0;
      SelectingStart(snap, queues);
      ProgressStart(available, LookAll(snap, queues), heap);
      while |heap| > 0
        invariant Selecting(snap, queues, picked, notified) && KnowsAll(snap, queues)
        invariant Reflects(snap, picked)
        invariant total == |Flatten(queues)|
        invariant wakeList.Valid() && wakeList.count <= NUM_WAKERS
        invariant Progress(whole, available, restore, notified, purged, permits, wakeList.Collected(),
                           LookAll(snap, queues), heap, budget, NUM_WAKERS - wakeList.count)
        decreases |heap|
      {
        var p := PeekHeap();
        ghost var view, room := LookAll(snap, queues), NUM_WAKERS - wakeList.count;
        SelectingHead(snap, queues, picked, notified, p, heap, budget, room);
        if budget == 0 || !wakeList.CanPush() { break; }
        if p !in queues || queues[p] == [] {
          ProgressStale(whole, available, restore, notified, purged, permits, wakeList.Collected(), view, heap,
                        budget, room);
          heap := heap - multiset{p};
          continue;
        }
        if queues[p][0].needs > budget { break; }
        var processedAny;
        budget, permits, restore, processedAny, picked, notified, purged :=
          ServeRound(p, budget, permits, restore, wakeList, whole, available, snap, picked, notified, purged);
        if processedAny && !wakeList.CanPush() { break; }
      }
      ProgressStop(whole, available, restore, notified, purged, permits, wakeList.Collected(),
                   LookAll(snap, queues), heap, budget, NUM_WAKERS - wakeList.count);
    }

    // The general path. Priorities that still have waiters are pushed back only after the loop.
    method ProcessMultiplePrioritiesOptimized(available: nat, wakeList: WakeList, ghost snap: Snapshot)
      returns (permits: nat, ghost picked: seq<Waiter>)
      requires Shaped(queues) && total == |Flatten(queues)| && wakeList.Valid() && wakeList.Collected() == []
      requires KnowsAll(snap, queues) && Reflects(snap, [])
      modifies this`queues, this`heap, this`total, snap.Keys, wakeList`count, wakeList.wakers
      ensures wakeList.Valid() && Shaped(queues) && total == |Flatten(queues)|
      ensures KnowsAll(snap, queues)
      ensures var r := SelectMany(LookAll(snap, old(queues)), old(heap), available, NUM_WAKERS);
        && LookAll(snap, queues) == r.queues && heap == r.heap
        && permits == Needs(r.notified) && wakeList.Collected() == Tasks(r.notified)
        && Selecting(snap, queues, picked, r.notified)
      ensures Reflects(snap, picked)
    {
      hide SelectMany, Needs, Tasks, Selecting, Flatten, Reflects, Shaped, LookAll, KnowsAll, WakeList.Valid;
      ghost var r := SelectMany(LookAll(snap, queues), heap, available, NUM_WAKERS);
      var restore; ghost var purged;
      permits, restore, picked, purged := ServePriorities(available, wakeList, snap);
      RestorePriorities(restore);
      SelectingFacts(snap, queues, picked, r.notified);
    }

    // The fast scan, seen from the whole wait queue.
    method ServeOnlyPriority(q: seq<Waiter>, available: nat, wakeList: WakeList, ghost snap: Snapshot)
      returns (rest: seq<Waiter>, permits: nat, ghost picked: seq<Waiter>)
      requires Distinct(q) && total >= |q| && wakeList.Valid() && wakeList.Collected() == []
      requires Knows(snap, q) && Reflects(snap, [])
      modifies this`total, snap.Keys, wakeList`count, wakeList.wakers
      ensures wakeList.Valid() && total == old(total) - (|q| - |rest|)
      ensures Thins(q, rest) && Knows(snap, rest) && Knows(snap, picked)
      ensures forall w | w in picked :: w in q && w !in rest
      ensures var s := Scan(Look(snap, q), available, NUM_WAKERS, false);
        && Look(snap, rest) == s.rest && Look(snap, picked) == s.notified
        && permits == Needs(s.notified) && wakeList.Collected() == Tasks(s.notified)
      ensures Reflects(snap, picked)
    {
      hide Scan, Needs, Tasks, Scans, Look;
      ReflectsQueue(snap, q);
      rest, permits, picked := ProcessSinglePriorityFast(q, available, wakeList, snap);
      ScansFacts(snap, q, rest, picked, Scan(Look(snap, q), available, NUM_WAKERS, false));
      ReflectsAfter(snap, q, [], picked);
      assert [] + picked == picked;
    }

    // The path for a heap of one priority: the queue leaves the map while it is scanned.
    method SelectSinglePriority(available: nat, wakeList: WakeList, ghost snap: Snapshot)
      returns (permits: nat, ghost picked: seq<Waiter>)
      requires Valid() && |heap| == 1 && wakeList.Valid() && wakeList.Collected() == []
      requires KnowsAll(snap, queues) && Reflects(snap, [])
      modifies this`queues, this`heap, this`total, snap.Keys, wakeList`count, wakeList.wakers
      ensures wakeList.Valid() && Shaped(queues) && total == |Flatten(queues)|
      ensures KnowsAll(snap, queues)
      ensures var r := SelectSingle(LookAll(snap, old(queues)), old(heap), available);
        && LookAll(snap, queues) == r.queues && heap == r.heap
        && permits == Needs(r.notified) && wakeList.Collected() == Tasks(r.notified)
        && Selecting(snap, queues, picked, r.notified)
      ensures Reflects(snap, picked)
    {
      hide Scan, Needs, Tasks, Flatten, Selecting, Reflects, Shaped, LookAll, KnowsAll, SelectSingle, Knows,
        Covered, Look, Thins, Distinct;
      EmptyTotals();
      ghost var before, heap0 := queues, heap;
      var p := PeekHeap();
      SingletonHeap(heap);
      SelectingStart(snap, queues);
      heap := heap - multiset{p};
      permits, picked := 0, [];
      if p in queues {
        var queue := queues[p];
        FlattenLength(before, p, []);
        SelectingQueue(snap, before, [], [], p);
        queues := queues - {p};
        var rest;
        rest, permits, picked := ServeOnlyPriority(queue, available, wakeList, snap);
        ghost var s := Scan(Look(snap, queue), available, NUM_WAKERS, false);
        SelectingRound(snap, before, [], [], p, rest, picked);
        SingleOutcome(snap, before, heap0, available, rest);
        FlattenLength(before, p, rest);
        assert [] + picked == picked && [] + s.notified == s.notified;
        if rest != [] {
          queues := queues[p := rest];
          heap := heap + multiset{p};
          assert queues == before[p := rest];
        } else {
          FlattenSame(queues, before[p := rest]);
          SelectingWithout(snap, before, picked, s.notified, p);
        }
      } else {
        SingleStale(snap, queues, heap0, available);
      }
      SelectingFacts(snap, queues, picked, SelectSingle(LookAll(snap, before), heap0, available).notified);
    }

    ghost function Snap(): Snapshot
      reads this, Members()
    {
      map w | w in Members() :: w.View()
    }

    lemma SnapKnowsAll()
      ensures KnowsAll(Snap(), queues) && Reflects(Snap(), [])
    {
    }

    /** The queues as the selection functions see them. */
    ghost function View(): Queues
      reads this, Members()
    {
      SnapKnowsAll();
      LookAll(Snap(), queues)
    }

    /** The view shows, priority by priority and in order, how each queued waiter looks. */
    lemma ViewAt()
      ensures View().Keys == queues.Keys
      ensures forall p | p in queues :: |View()[p]| == |queues[p]|
      ensures forall p, i | p in queues && 0 <= i < |queues[p]| :: View()[p][i] == queues[p][i].View()
    {
      SnapKnowsAll();
      forall p, i | p in queues && 0 <= i < |queues[p]| ensures View()[p][i] == queues[p][i].View() {
        assert queues[p][i] in Members();
      }
    }

    lemma ViewFacts()
      requires Shaped(queues)
      ensures Flatten(View()) == [] <==> Flatten(queues) == []
      ensures forall h :: Covered(View(), h) <==> Covered(queues, h)
      ensures KnowsAll(Snap(), queues) && View() == LookAll(Snap(), queues) && Snap().Keys == Members()
    {
      SnapKnowsAll();
      FlattenEmpty(queues);
      FlattenEmpty(View());
      assert forall p :: At(View(), p) == [] <==> At(queues, p) == [];
    }

    lemma ViewThroughSnapshot(snap: Snapshot, picked: seq<Waiter>, notified: seq<Entry>)
      requires Selecting(snap, queues, picked, notified) && Reflects(snap, picked) && KnowsAll(snap, queues)
      ensures View() == LookAll(snap, queues) && Members() <= snap.Keys
      ensures forall h :: Covered(View(), h) <==> Covered(queues, h)
      ensures forall w | w in picked :: w !in Members()
    {
      SnapKnowsAll();
      forall p | p in queues ensures Look(Snap(), queues[p]) == Look(snap, queues[p]) {
        forall i | 0 <= i < |queues[p]| ensures queues[p][i] in snap && Snap()[queues[p][i]] == snap[queues[p][i]] {
          assert queues[p][i] in Members() && Unchanged(snap, queues[p][i]);
        }
      }
      ViewFacts();
    }

    /**
     One selection. It does to the queues and the heap exactly what `Selection.Select` says, hands out the
     demands of the waiters it picked, notifies those and no others, and collects their wakers in order.
     */
    method SelectWaitersToNotify(available: nat)
      returns (wakeList: WakeList, permits: nat, ghost picked: seq<Waiter>)
      requires Valid()
      modifies this`queues, this`heap, this`total, Members()
      ensures Valid() && fresh(wakeList) && fresh(wakeList.wakers) && wakeList.Valid()
      ensures var r := Select(old(View()), old(heap), available);
        && View() == r.queues && heap == r.heap
        && permits == Needs(r.notified) && wakeList.Collected() == Tasks(r.notified)
        && Knows(old(Snap()), picked) && Look(old(Snap()), picked) == r.notified
      ensures Members() <= old(Members()) && Reflects(old(Snap()), picked)
      ensures forall w | w in picked :: w !in Members()
    {
      hide SelectMany, SelectSingle, Needs, Tasks, Flatten, Selecting, Reflects, Shaped, LookAll, KnowsAll,
        Covered, View, Snap, Knows, Look;
      ghost var snap, before, heap0 := Snap(), queues, heap;
      ghost var r := Select(View(), heap, available);
      SnapKnowsAll();
      SelectingStart(snap, queues);
      EmptyTotals();
      ViewFacts();
      SelectKeepsHeap(View(), heap, available);
      wakeList := new WakeList();
      permits, picked := 0, [];
      if available == 0 || total == 0 {
        return;
      }
      if |heap| == 1 {
        permits, picked := SelectSinglePriority(available, wakeList, snap);
      } else {
        permits, picked := ProcessMultiplePrioritiesOptimized(available, wakeList, snap);
      }
      SelectingFacts(snap, queues, picked, r.notified);
      ViewThroughSnapshot(snap, picked, r.notified);
    }

    lemma MembersShape()
      ensures forall p, w | p in queues && w in queues[p] :: w in Members()
    {
    }

    /**
     Queues a new waiter at the end (FIFO) or the front (LIFO) of its priority, and activates the priority if
     needed.
     */
    method PushWaiter(needs: nat, priority: Isize, ghost id: nat) returns (waiter: Waiter)
      requires Valid()
      modifies this`queues, this`heap, this`total
      ensures Valid() && fresh(waiter)
      ensures waiter.needs == needs && waiter.priority == priority && waiter.id == id
      ensures waiter.status == Waiting && waiter.waker == None
      ensures queues == Inserted(old(queues), waiter, Resolve(config.rules, priority))
      ensures heap == (if At(old(queues), priority) == [] then old(heap) + multiset{priority} else old(heap))
      ensures old(HeapExact(queues, heap)) ==> HeapExact(queues, heap)
    {
      hide Shaped, FlattenKeys, Flatten;
      ghost var before := queues;
      MembersShape();
      waiter := new Waiter(needs, priority, id);
      var strategy := config.ResolveStrategy(priority);
      ResolveAsDeclared(config.rules, priority, strategy);
      var queue := if priority in queues then queues[priority] else [];
      if queue == [] {
        heap := heap + multiset{priority};
      }
      match strategy {
        case Fifo => queue := queue + [waiter];
        case Lifo => queue := [waiter] + queue;
      }
      FlattenLength(before, priority, queue);
      InsertedShape(before, waiter, strategy);
      queues := queues[priority := queue];
      total := total + 1;
    }

    // Takes every queue out of the map, in no particular order of priorities.
    method DrainAllWaiters() returns (waiters: seq<Waiter>)
      requires Valid()
      modifies this`queues
      ensures queues == map[] && forall w :: w in waiters <==> w in old(Members())
    {
      waiters := [];
      ghost var all := queues;
      while queues != map[]
        invariant queues.Keys <= all.Keys && forall p | p in queues :: queues[p] == all[p]
        invariant forall w :: w in waiters <==> exists p :: p in all && p !in queues && w in all[p]
        decreases queues.Keys
      {
        assert queues.Keys != {};
        SetHasMember(queues.Keys);
        var p :| p in queues;
        waiters := waiters + queues[p];
        queues := queues - {p};
      }
    }

    /** Empties the queue for good and cancels its waiters; the tasks of those that were still live are woken. */
    method Close() returns (woken: set<Task>)
      requires Valid()
      modifies this`queues, this`heap, this`total, this`closed, Members()
      ensures Valid() && closed && queues == map[] && heap == multiset{} && total == 0
      ensures forall w | w in old(Members()) :: w.status == Cancelled && w.waker == old(w.waker)
      ensures woken == set w | w in old(Members()) && old(w.status) != Cancelled && old(w.waker).Some? :: old(w.waker).value
    {
      closed := true;
      var waiters := DrainAllWaiters();
      assert forall w :: w in waiters <==> w in old(Members());
      heap := multiset{};
      total := 0;
      woken := CancelAll(waiters);
    }

    /** Takes `waiter` out of its queue if it is there. The heap entry stays, so an exact heap may turn stale. */
    method RemoveWaiter(waiter: Waiter)
      requires Valid()
      modifies this`queues, this`total
      ensures Valid()
      ensures forall p | p != waiter.priority :: At(queues, p) == At(old(queues), p)
      ensures At(queues, waiter.priority) == Without(At(old(queues), waiter.priority), waiter)
    {
      hide Shaped, FlattenKeys, Flatten, Thins, Without;
      var p := waiter.priority;
      WithoutFirst([], waiter, 0);
      if p in queues {
        assert Distinct(queues[p]) by { ShapedDistinct(queues, p); }
        var q := queues[p];
        var i := 0;
        while i < |q| && q[i] != waiter
          invariant 0 <= i <= |q| && waiter !in q[..i]
        {
          i := i + 1;
        }
        WithoutFirst(q, waiter, i);
        if i < |q| {
          var others := q[..i] + q[i + 1..];
          ThinsWithout(q, i);
          ShapedUpdate(queues, p, others);
          FlattenLength(queues, p, others);
          queues := queues[p := others];
          if total > 0 { total := total - 1; }
        }
      }
    }
  }

  lemma EmptyTotals()
    ensures Needs([]) == 0 && Tasks([]) == []
  {
  }
}
