/**
 The semaphore with every operation taken as one step: what a release, a poll, a drop and a close do to the
 permit count and the wait queue, and what runs of such operations keep.
 */
module AtomicSemaphore {
  import opened Basics
  import opened Config
  import opened Selection
  import opened SelectionLaws
  import opened UniformSelection

  datatype Sem = Sem(count: nat, closed: bool, queues: Queues, heap: multiset<int>)

  /**
   The outcome of a release: who was notified, which tasks were woken, permits given to nobody, and permits
   put back on the word although their waiters were notified.
   */
  datatype Released = Released(sem: Sem, notified: seq<Entry>, woken: seq<Task>, lost: nat, refunded: nat)

  /**
   A release of `n` permits. The wake list is emptied before it is asked whether it was full, so a second
   batch never happens; with nothing to wake the closed flag is not looked at either.
   */
  ghost function Release(s: Sem, n: nat): Released {
    if n == 0 then Released(s, [], [], 0, 0)
    else if Flatten(s.queues) == [] then Released(s.(count := s.count + n), [], [], 0, 0)
    else
      SelectWithinLimits(s.queues, s.heap, n);
      var r := Select(s.queues, s.heap, n);
      var granted := Needs(r.notified);
      var after := s.(queues := r.queues, heap := r.heap);
      if granted == 0 || Tasks(r.notified) == [] then Released(after.(count := s.count + (n - granted)), r.notified, [], 0, 0)
      else if s.closed then Released(after.(count := s.count + granted), r.notified, [], n - granted, granted)
      else Released(after.(count := s.count + (n - granted)), r.notified, Tasks(r.notified), 0, 0)
  }

  /**
   A release splits its permits between the notified waiters and the count; on a closed semaphore some are lost
   or given twice.
   */
  lemma ReleaseConserves(s: Sem, n: nat)
    ensures var r := Release(s, n);
      && r.sem.count + Needs(r.notified) + r.lost == s.count + n + r.refunded
      && (!s.closed ==> r.lost == 0 && r.refunded == 0)
  {
  }

  lemma {:induction false} AllWoken(es: seq<Entry>)
    requires forall e | e in es :: Wakes(e)
    ensures |Tasks(es)| == |es| && forall i | 0 <= i < |es| :: Some(Tasks(es)[i]) == es[i].waker
  {
    if es != [] {
      AllWoken(es[1..]);
      assert Wakes(es[0]);
      assert Tasks(es) == [es[0].waker.value] + Tasks(es[1..]);
      assert forall i | 0 < i < |es| :: es[i] == es[1..][i - 1];
    }
  }

  lemma {:induction false} PositiveSum(es: seq<Entry>)
    requires es != [] && forall e | e in es :: e.needs > 0
    ensures Needs(es) > 0
  {
  }

  /** Every live waiter is waiting and has stored its waker. */
  ghost predicate Ready(queues: Queues) {
    forall p, e | e in At(queues, p) && e.status != Cancelled :: Wakes(e)
  }

  /** The tasks woken are those of the notified, one each, in the order of notification. */
  ghost predicate WakesAll(r: Released) {
    |r.woken| == |r.notified| && forall i | 0 <= i < |r.notified| :: Some(r.woken[i]) == r.notified[i].waker
  }

  /**
   A release wakes all it notified if and only if the semaphore is open and some permit was granted, or nobody
   was notified.
   */
  lemma ReleaseWakesNotified(s: Sem, n: nat)
    requires Ready(s.queues)
    ensures var r := Release(s, n);
      WakesAll(r) <==> r.notified == [] || (!s.closed && Needs(r.notified) > 0)
    ensures var r := Release(s, n);
      (!s.closed && forall e | e in r.notified :: e.needs > 0) ==> WakesAll(r)
  {
    hide Select, FlattenKeys, Needs, Tasks;
    if n > 0 && Flatten(s.queues) != [] {
      var r := Select(s.queues, s.heap, n);
      forall e | e in r.notified ensures Wakes(e) {
        SelectedCameFrom(s.queues, s.heap, n, e);
      }
      AllWoken(r.notified);
      if r.notified != [] && forall e | e in r.notified :: e.needs > 0 { PositiveSum(r.notified); }
    }
  }

  lemma UniformAfterSelect(queues: Queues, heap: multiset<int>, n: nat, k: nat)
    requires Uniform(queues, k)
    ensures Uniform(Select(queues, heap, n).queues, k)
  {
    hide Select;
    var r := Select(queues, heap, n);
    forall p ensures UniformQueue(At(r.queues, p), k) {
      forall e | e in At(r.queues, p) ensures e.needs == k && e.status != Notified && (e.status == Waiting ==> e.waker.Some?) {
        SelectedCameFrom(queues, heap, n, e);
        var x :| e in At(queues, x);
        assert UniformQueue(At(queues, x), k);
      }
    }
  }

  /**
   How an open release treats a queue of unit demands: it serves the first min(live, 32, n) waiters of the
   promised order.
   */
  lemma ReleaseUnits(s: Sem, n: nat)
    requires !s.closed && Uniform(s.queues, 1) && Covered(s.queues, s.heap)
    ensures var r, order := Release(s, n), LiveOrder(s.queues);
      var m := Quota(|order|, n, NUM_WAKERS);
      && Cut(order, m, r.notified, LiveOrder(r.sem.queues))
      && r.sem.count == s.count + (n - m)
      && Uniform(r.sem.queues, 1) && Covered(r.sem.queues, r.sem.heap) && !r.sem.closed
  {
    hide Select, FlattenKeys, Needs, Tasks;
    if n > 0 && Flatten(s.queues) != [] {
      var order := LiveOrder(s.queues);
      SelectUniform(s.queues, s.heap, n, 1);
      UniformAfterSelect(s.queues, s.heap, n, 1);
      SelectKeepsHeap(s.queues, s.heap, n);
      var r := Select(s.queues, s.heap, n);
      forall e | e in r.notified ensures e.needs == 1 {
        SelectedCameFrom(s.queues, s.heap, n, e);
        var x :| e in At(s.queues, x);
        assert UniformQueue(At(s.queues, x), 1);
      }
      UnitSum(r.notified);
    } else if n > 0 {
      LiveOfNone(Flatten(s.queues));
    }
  }

  /** With unit demands, a release that finds as many permits and waiters serves a full batch of 32, and no more. */
  lemma FullBatch(s: Sem, n: nat)
    requires !s.closed && Uniform(s.queues, 1) && Covered(s.queues, s.heap) && n >= 32 && |LiveOrder(s.queues)| >= 32
    ensures |Release(s, n).notified| == 32 && Release(s, n).sem.count == s.count + n - 32
  {
    hide Release, Uniform, Covered, LiveOrder;
    ReleaseUnits(s, n);
  }

  lemma {:induction false} UnitSum(es: seq<Entry>)
    requires forall e | e in es :: e.needs == 1
    ensures Needs(es) == |es|
  {
    if es != [] { UnitSum(es[1..]); }
  }

  /** One batch serves as many as two: together they fit one wake list, one of them is empty, or few enough wait. */
  predicate OneBatchIsEnough(live: nat, a: nat, b: nat) {
    a + b <= NUM_WAKERS || a == 0 || b == 0 || live <= NUM_WAKERS
  }

  /**
   With unit demands, releasing `a + b` permits at once or one part after the other is the same, in order of
   notification, waiters left, and count, if and only if one batch is enough; it is for `a + b` up to 32.
   */
  lemma ReleaseSplits(s: Sem, a: nat, b: nat)
    requires !s.closed && Uniform(s.queues, 1) && Covered(s.queues, s.heap)
    ensures var whole, first := Release(s, a + b), Release(s, a);
      var second := Release(first.sem, b);
      (whole.notified == first.notified + second.notified
       && LiveOrder(whole.sem.queues) == LiveOrder(second.sem.queues)
       && whole.sem.count == second.sem.count) <==> OneBatchIsEnough(|LiveOrder(s.queues)|, a, b)
  {
    hide Release, Uniform, Covered, LiveOrder, Cut;
    var first := Release(s, a);
    ReleaseUnits(s, a + b);
    ReleaseUnits(s, a);
    ReleaseUnits(first.sem, b);
    CutInTwo(LiveOrder(s.queues), a, b, Release(s, a + b).notified, LiveOrder(Release(s, a + b).sem.queues),
             first.notified, LiveOrder(first.sem.queues),
             Release(first.sem, b).notified, LiveOrder(Release(first.sem, b).sem.queues));
  }

  lemma CutInTwo<T>(order: seq<T>, a: nat, b: nat, taken: seq<T>, left: seq<T>,
                    taken1: seq<T>, mid: seq<T>, taken2: seq<T>, left2: seq<T>)
    requires Cut(order, Quota(|order|, a + b, NUM_WAKERS), taken, left)
    requires Cut(order, Quota(|order|, a, NUM_WAKERS), taken1, mid)
    requires Cut(mid, Quota(|mid|, b, NUM_WAKERS), taken2, left2)
    ensures OneBatchIsEnough(|order|, a, b) ==>
      taken == taken1 + taken2 && left == left2
      && Quota(|order|, a + b, NUM_WAKERS) == Quota(|order|, a, NUM_WAKERS) + Quota(|mid|, b, NUM_WAKERS)
    ensures taken == taken1 + taken2 ==> OneBatchIsEnough(|order|, a, b)
  {
    var m, k := Quota(|order|, a, NUM_WAKERS), Quota(|mid|, b, NUM_WAKERS);
    assert order[..m] + order[m..][..k] == order[..m + k];
    assert order[m..][k..] == order[m + k..];
    assert |taken1 + taken2| == m + k;
    assert OneBatchIsEnough(|order|, a, b) <==> Quota(|order|, a + b, NUM_WAKERS) == m + k;
  }

  // Work conservation.

  /** An open semaphore never has both a free permit and a live waiter. */
  ghost predicate Busy(s: Sem) {
    s.closed || s.count == 0 || LiveOrder(s.queues) == []
  }

  /**
   An open release of unit demands keeps the semaphore busy if and only if one batch is enough: it releases at
   most 32 permits, or at most 32 live waiters are queued.
   */
  lemma ReleaseKeepsBusy(s: Sem, n: nat)
    requires !s.closed && Uniform(s.queues, 1) && Covered(s.queues, s.heap) && Busy(s)
    ensures Busy(Release(s, n).sem) <==> n <= NUM_WAKERS || |LiveOrder(s.queues)| <= NUM_WAKERS
  {
    hide Release, Uniform, Covered, LiveOrder;
    ReleaseUnits(s, n);
  }

  datatype Op =
    | Poll(entry: Entry)                    // first poll of a future, wakers stored in the same step
    | Repoll(id: nat, task: Task)           // later poll of a future that still waits
    | Drop(id: nat)                         // drop of a waiting future
    | TryAcquire(n: nat)
    | Forget(n: nat)
    | Give(n: nat)                          // added permits, or a dropped permit guard
    | Close

  ghost function Edit(queues: Queues, id: nat, to: Entry -> Entry): Queues {
    map p | p in queues :: seq(|queues[p]|, i requires 0 <= i < |queues[p]| =>
      if queues[p][i].id == id then to(queues[p][i]) else queues[p][i])
  }

  /** What a later poll does to a waiter's entry. */
  function Rearm(task: Task): Entry -> Entry {
    (e: Entry) => if e.status == Waiting then e.(waker := Some(task)) else e
  }

  function Cancel(): Entry -> Entry {
    (e: Entry) => e.(status := Cancelled)
  }

  ghost function Insert(s: Sem, e: Entry, strategy: QueueStrategy): Sem {
    var q := At(s.queues, e.priority);
    s.(queues := s.queues[e.priority := if strategy == Fifo then q + [e] else [e] + q],
       heap := if q == [] then s.heap + multiset{e.priority} else s.heap)
  }

  ghost function Apply(s: Sem, op: Op, strategy: int -> QueueStrategy): Sem {
    match op
    case Poll(e) =>
      if s.closed then s
      else if s.count >= e.needs then s.(count := s.count - e.needs)
      else Insert(s, e, strategy(e.priority))
    case Repoll(id, task) => s.(queues := Edit(s.queues, id, Rearm(task)))
    case Drop(id) => s.(queues := Edit(s.queues, id, Cancel()))
    case TryAcquire(n) => if s.closed || s.count < n then s else s.(count := s.count - n)
    case Forget(n) => s.(count := s.count - Min(s.count, n))
    case Give(n) => Release(s, n).sem
    case Close => Sem(s.count, true, map[], multiset{})
  }

  /** Futures ask for one permit, and no release exceeds the wake list. */
  predicate Small(op: Op) {
    && (op.Poll? ==> op.entry.needs == 1 && Wakes(op.entry))
    && (op.Give? ==> op.n <= NUM_WAKERS)
  }

  ghost predicate Sound(s: Sem) {
    s.closed || (Uniform(s.queues, 1) && Covered(s.queues, s.heap) && Busy(s))
  }

  lemma LiveOrderMembers(queues: Queues)
    ensures LiveOrder(queues) == [] <==> forall p, e | e in At(queues, p) :: e.status == Cancelled
  {
    LiveOrDead(Flatten(queues));
    if LiveOrder(queues) == [] {
      forall p, e | e in At(queues, p) ensures e.status == Cancelled {
        FlattenMembers(queues, e);
        assert e in LiveOrder(queues) <==> e.status != Cancelled;
      }
    } else {
      var e := LiveOrder(queues)[0];
      assert e in Flatten(queues) && e.status != Cancelled;
      FlattenMembers(queues, e);
    }
  }

  /**
   An edit that keeps demands, and leaves each entry as it is, cancelled, or waiting with a waker if it waited
   before.
   */
  ghost predicate Harmless(to: Entry -> Entry) {
    forall e: Entry :: to(e).needs == e.needs
      && (to(e).status == Cancelled || to(e) == e || (Wakes(to(e)) && e.status == Waiting))
  }

  lemma EditedFrom(queues: Queues, id: nat, to: Entry -> Entry, p: int, e: Entry) returns (was: Entry)
    requires e in At(Edit(queues, id, to), p)
    ensures was in At(queues, p) && (e == was || e == to(was))
  {
    var i :| 0 <= i < |At(Edit(queues, id, to), p)| && At(Edit(queues, id, to), p)[i] == e;
    was := At(queues, p)[i];
  }

  lemma EditKeepsUniform(queues: Queues, id: nat, to: Entry -> Entry)
    requires Uniform(queues, 1) && Harmless(to)
    ensures Uniform(Edit(queues, id, to), 1)
  {
    hide Edit, Harmless;
    forall p, e | e in At(Edit(queues, id, to), p)
      ensures e.needs == 1 && e.status != Notified && (e.status == Waiting ==> e.waker.Some?)
    {
      var was := EditedFrom(queues, id, to, p, e);
      assert UniformQueue(At(queues, p), 1);
      HarmlessAt(to, was);
    }
  }

  lemma HarmlessAt(to: Entry -> Entry, e: Entry)
    requires Harmless(to)
    ensures to(e).needs == e.needs
    ensures to(e).status == Cancelled || to(e) == e || (Wakes(to(e)) && e.status == Waiting)
  {
  }

  lemma EditKeepsIdle(queues: Queues, id: nat, to: Entry -> Entry)
    requires Harmless(to) && LiveOrder(queues) == []
    ensures LiveOrder(Edit(queues, id, to)) == []
  {
    hide Edit, Harmless, LiveOrder;
    LiveOrderMembers(queues);
    LiveOrderMembers(Edit(queues, id, to));
    forall p, e | e in At(Edit(queues, id, to), p) ensures e.status == Cancelled {
      var was := EditedFrom(queues, id, to, p, e);
      HarmlessAt(to, was);
    }
  }

  lemma EditKeepsSound(s: Sem, id: nat, to: Entry -> Entry)
    requires Sound(s) && Harmless(to)
    ensures Sound(s.(queues := Edit(s.queues, id, to)))
  {
    hide Uniform, LiveOrder, Harmless;
    if !s.closed {
      EditKeepsUniform(s.queues, id, to);
      if LiveOrder(s.queues) == [] { EditKeepsIdle(s.queues, id, to); }
    }
  }

  lemma OpKeepsSound(s: Sem, op: Op, strategy: int -> QueueStrategy)
    requires Sound(s) && Small(op)
    ensures Sound(Apply(s, op, strategy))
  {
    match op
    case Poll(e) =>
      if !s.closed && s.count < e.needs {
        var s' := Insert(s, e, strategy(e.priority));
        forall p ensures UniformQueue(At(s'.queues, p), 1) && (At(s'.queues, p) != [] ==> p in s'.heap) {
          assert UniformQueue(At(s.queues, p), 1);
        }
      }
    case Repoll(id, task) => EditKeepsSound(s, id, Rearm(task));
    case Drop(id) => EditKeepsSound(s, id, Cancel());
    case TryAcquire(n) =>
    case Forget(n) =>
    case Give(n) =>
      if !s.closed {
        ReleaseUnits(s, n);
        ReleaseKeepsBusy(s, n);
      }
    case Close =>
  }

  ghost function Run(s: Sem, ops: seq<Op>, strategy: int -> QueueStrategy): Sem
    decreases |ops|
  {
    if ops == [] then s else Run(Apply(s, ops[0], strategy), ops[1..], strategy)
  }

  /**
   In every run of atomic operations with unit demands and releases of at most 32, no permit is free while a
   live waiter is queued.
   */
  lemma {:induction false} RunStaysBusy(s: Sem, ops: seq<Op>, strategy: int -> QueueStrategy)
    requires Sound(s) && forall op | op in ops :: Small(op)
    ensures Sound(Run(s, ops, strategy)) && Busy(Run(s, ops, strategy))
    decreases |ops|
  {
    if ops != [] {
      OpKeepsSound(s, ops[0], strategy);
      RunStaysBusy(Apply(s, ops[0], strategy), ops[1..], strategy);
    }
  }

  /** A fresh semaphore is sound, whatever its permits. */
  lemma FreshIsSound(permits: nat)
    ensures Sound(Sem(permits, false, map[], multiset{}))
  {
    LiveOrderMembers(map[]);
    assert forall p :: At<Entry>(map[], p) == [];
  }

  /** So no run that starts from a new semaphore keeps a permit free beside a live waiter. */
  lemma FreshRunStaysBusy(permits: nat, ops: seq<Op>, strategy: int -> QueueStrategy)
    requires forall op | op in ops :: Small(op)
    ensures Busy(Run(Sem(permits, false, map[], multiset{}), ops, strategy))
  {
    FreshIsSound(permits);
    RunStaysBusy(Sem(permits, false, map[], multiset{}), ops, strategy);
  }

  // Who is woken in runs with any demands.

  /** Every live waiter has stored its waker and needs at least one permit. */
  ghost predicate Expectant(queues: Queues) {
    Ready(queues) && forall p, e | e in At(queues, p) && e.status != Cancelled :: e.needs > 0
  }

  /** Futures store their waker and ask for at least one permit. */
  predicate Sensible(op: Op) {
    op.Poll? ==> Wakes(op.entry) && op.entry.needs > 0
  }

  lemma EditKeepsExpectant(queues: Queues, id: nat, to: Entry -> Entry)
    requires Expectant(queues) && Harmless(to)
    ensures Expectant(Edit(queues, id, to))
  {
    hide Edit, Harmless;
    forall p, e | e in At(Edit(queues, id, to), p) && e.status != Cancelled ensures Wakes(e) && e.needs > 0 {
      var was := EditedFrom(queues, id, to, p, e);
      HarmlessAt(to, was);
    }
  }

  lemma ReleaseKeepsExpectant(s: Sem, n: nat)
    requires Expectant(s.queues)
    ensures Expectant(Release(s, n).sem.queues)
  {
    hide Select, Flatten, Needs, Tasks;
    if n > 0 && Flatten(s.queues) != [] {
      forall p, e | e in At(Select(s.queues, s.heap, n).queues, p) && e.status != Cancelled ensures Wakes(e) && e.needs > 0 {
        SelectedCameFrom(s.queues, s.heap, n, e);
      }
    }
  }

  lemma OpKeepsExpectant(s: Sem, op: Op, strategy: int -> QueueStrategy)
    requires Expectant(s.queues) && Sensible(op)
    ensures Expectant(Apply(s, op, strategy).queues)
  {
    hide Release, Edit;
    match op
    case Poll(e) => InsertKeepsExpectant(s, e, strategy(e.priority));
    case Repoll(id, task) => EditKeepsExpectant(s.queues, id, Rearm(task));
    case Drop(id) => EditKeepsExpectant(s.queues, id, Cancel());
    case Give(n) => ReleaseKeepsExpectant(s, n);
    case _ =>
  }

  lemma InsertKeepsExpectant(s: Sem, e: Entry, strategy: QueueStrategy)
    requires Expectant(s.queues) && Wakes(e) && e.needs > 0
    ensures Expectant(Insert(s, e, strategy).queues)
  {
    forall p, d | d in At(Insert(s, e, strategy).queues, p) && d.status != Cancelled ensures Wakes(d) && d.needs > 0 {
      assert d != e ==> d in At(s.queues, p);
    }
  }

  lemma {:induction false} RunStaysExpectant(s: Sem, ops: seq<Op>, strategy: int -> QueueStrategy)
    requires Expectant(s.queues) && forall op | op in ops :: Sensible(op)
    ensures Expectant(Run(s, ops, strategy).queues)
    decreases |ops|
  {
    if ops != [] {
      OpKeepsExpectant(s, ops[0], strategy);
      RunStaysExpectant(Apply(s, ops[0], strategy), ops[1..], strategy);
    }
  }

  /** After any run of atomic operations with any positive demands, a release on the open semaphore wakes all it notifies. */
  lemma RunWakesAll(s: Sem, ops: seq<Op>, strategy: int -> QueueStrategy, n: nat)
    requires Expectant(s.queues) && (forall op | op in ops :: Sensible(op)) && !Run(s, ops, strategy).closed
    ensures WakesAll(Release(Run(s, ops, strategy), n))
  {
    hide Release, Run, Select;
    var now := Run(s, ops, strategy);
    RunStaysExpectant(s, ops, strategy);
    ReleaseWakesNotified(now, n);
    forall e | e in Release(now, n).notified ensures e.needs > 0 {
      NotifiedCameFrom(now, n, e);
    }
  }

  lemma NotifiedCameFrom(s: Sem, n: nat, e: Entry)
    requires e in Release(s, n).notified
    ensures e.status != Cancelled && exists p :: e in At(s.queues, p)
  {
    hide Select, Flatten, Needs, Tasks;
    SelectedCameFrom(s.queues, s.heap, n, e);
  }
}
