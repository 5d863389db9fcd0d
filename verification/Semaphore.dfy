/**
 The semaphore object: the packed word and the wait queue it owns. Each method is one operation seen as atomic;
 the methods are shown to do what the functions of `AtomicSemaphore` say.
 */
module SemaphoreObjects {
  import opened Basics
  import opened Config
  import opened Selection
  import opened SelectionLaws
  import opened Waiters
  import opened WaitQueues
  import opened PermitWord
  import A = AtomicSemaphore

  /** The count as 63 bits hold it. */
  ghost function Wrapped(s: A.Sem): A.Sem {
    s.(count := s.count % COUNT_LIMIT)
  }

  /** A release that reaches its final addition looks whether the count passed the limit, and panics if so. */
  ghost predicate Panics(s: A.Sem, n: nat) {
    var r := A.Release(s, n);
    r.refunded == 0 && r.sem.count > s.count && r.sem.count > MAX_PERMITS
  }

  class Semaphore {
    var bits: Word
    const waiters: WaitQueue

    constructor (permits: nat, config: PriorityConfig)
      requires permits <= MAX_PERMITS
      ensures Valid() && fresh(waiters) && Abstract() == A.Sem(permits, false, map[], multiset{}) && waiters.config == config
    {
      var w := Pack(Shared(permits, false));
      PackIsExact(Shared(permits, false), w);
      bits := w;
      waiters := new WaitQueue(config);
    }

    ghost predicate Valid()
      reads waiters
    {
      waiters.Valid()
    }

    ghost function Abstract(): A.Sem
      reads this, waiters, waiters.Members()
    {
      A.Sem(Unpack(bits).count, Unpack(bits).closed, waiters.View(), waiters.heap)
    }

    predicate IsClosed()
      reads this
    {
      bits % 2 == 1
    }

    /** The last part of a release: what is left goes to the word, and an overflow is noticed afterwards. */
    method AddRemainder(rem: nat) returns (panicked: bool)
      modifies this
      ensures Unpack(bits) == Shared((Unpack(old(bits)).count + rem) % COUNT_LIMIT, Unpack(old(bits)).closed)
      ensures panicked == (rem > 0 && Unpack(old(bits)).count + rem > MAX_PERMITS)
    {
      panicked := false;
      AddedMeans(bits, rem);
      if rem > 0 {
        var prev := bits;
        bits := Added(bits, rem);
        panicked := prev / 2 + rem > MAX_PERMITS;
      }
    }

    /**
     One pass of the release loop. `again` says whether the wake list reads as full after the wake-up; emptying
     the list makes that impossible. `refunded` stands for the early return on a closed semaphore.
     */
    method ServeBatch(n: nat) returns (rem: nat, woken: seq<Task>, again: bool, refunded: bool, ghost picked: seq<Waiter>)
      requires Valid() && n > 0
      modifies this, waiters`queues, waiters`heap, waiters`total, waiters.Members()
      ensures Valid() && waiters.Members() <= old(waiters.Members()) && !again && rem <= n
      ensures Knows(old(waiters.Snap()), picked) && Reflects(old(waiters.Snap()), picked)
      ensures refunded ==> woken == [] && Outcome(old(Abstract()), n, Abstract(), [], false, Look(old(waiters.Snap()), picked))
      ensures !refunded ==> bits == old(bits)
      ensures !refunded ==> Adds(old(Abstract()), n, rem, waiters.View(), waiters.heap, woken, Look(old(waiters.Snap()), picked))
    {
      hide Select, Needs, Tasks, FlattenKeys, Flatten, Shaped, Covered, LookAll, KnowsAll, Knows, Look,
        Reflects, A.Release, Outcome, Adds;
      ghost var before, snap := Abstract(), waiters.Snap();
      waiters.ViewFacts();
      waiters.SnapKnowsAll();
      LookAtNobody(snap);
      rem, woken, again, refunded, picked := n, [], false, false, [];
      if waiters.IsEmpty() {
        AddsAll(before, n);
        return;
      }
      var wakeList, granted;
      wakeList, granted, picked := waiters.SelectWaitersToNotify(n);
      SelectWithinLimits(before.queues, before.heap, n);
      if !Refunds(before, n) { AddsRest(before, n); }
      rem := rem - granted;
      if granted == 0 || wakeList.IsEmpty() {
        return;
      }
      if IsClosed() {
        AddedMeans(bits, granted);
        bits := Added(bits, granted);
        refunded := true;
        Refunded(before, n, Abstract());
        return;
      }
      woken := wakeList.WakeAll();
      again := wakeList.WasFull();
    }

    /**
     The release loop: one pass is all there is, and the outcome is the one that `AtomicSemaphore.Release` gives,
     with the count wrapped at 63 bits.
     */
    method AddPermitsLocked(n: nat) returns (woken: seq<Task>, panicked: bool, ghost picked: seq<Waiter>)
      requires Valid()
      modifies this, waiters`queues, waiters`heap, waiters`total, waiters.Members()
      ensures Valid() && waiters.Members() <= old(waiters.Members())
      ensures Knows(old(waiters.Snap()), picked) && Reflects(old(waiters.Snap()), picked)
      ensures Outcome(old(Abstract()), n, Abstract(), woken, panicked, Look(old(waiters.Snap()), picked))
    {
      hide Select, Needs, Tasks, FlattenKeys, Flatten, Shaped, Covered, LookAll, KnowsAll, Knows, Look,
        Reflects, A.Release, Outcome, Adds;
      ghost var before, snap := Abstract(), waiters.Snap();
      waiters.SnapKnowsAll();
      LookAtNobody(snap);
      AddsNone(before, n);
      woken, panicked, picked := [], false, [];
      var rem, again := n, true;
      while rem > 0 && again
        invariant 0 <= rem <= n && Knows(snap, picked) && Reflects(snap, picked)
        invariant again ==> rem == n && woken == [] && picked == [] && Abstract() == before && waiters.Snap() == snap
        invariant !again || n == 0 ==> Adds(before, n, rem, waiters.View(), waiters.heap, woken, Look(snap, picked))
        invariant waiters.Valid() && bits == old(bits) && waiters.Members() <= old(waiters.Members())
        decreases again
      {
        var refunded;
        rem, woken, again, refunded, picked := ServeBatch(rem);
        if refunded {
          return;
        }
      }
      ghost var queues, heap := waiters.View(), waiters.heap;
      panicked := AddRemainder(rem);
      AddsMeans(before, n, rem, queues, heap, woken, Look(snap, picked), panicked);
    }

    /** `add_permits`. */
    method AddPermits(n: nat) returns (woken: seq<Task>, panicked: bool, ghost picked: seq<Waiter>)
      requires Valid()
      modifies this, waiters`queues, waiters`heap, waiters`total, waiters.Members()
      ensures Valid() && waiters.Members() <= old(waiters.Members())
      ensures Knows(old(waiters.Snap()), picked) && Reflects(old(waiters.Snap()), picked)
      ensures Outcome(old(Abstract()), n, Abstract(), woken, panicked, Look(old(waiters.Snap()), picked))
      ensures !old(Abstract()).closed && old(Abstract()).count + n <= MAX_PERMITS ==>
        !panicked && Abstract().count + Needs(Look(old(waiters.Snap()), picked)) == old(Abstract()).count + n
    {
      hide Select, Needs, Tasks, FlattenKeys, Flatten, Shaped, Covered, LookAll, KnowsAll, Knows, Look, Reflects,
        A.Release, Outcome, Adds, Panics;
      ghost var before, snap := Abstract(), waiters.Snap();
      if n == 0 {
        woken, panicked, picked := [], false, [];
        waiters.SnapKnowsAll();
        LookAtNobody(snap);
        AddsNone(before, 0);
        AddsMeans(before, 0, 0, before.queues, before.heap, [], [], false);
      } else {
        woken, panicked, picked := AddPermitsLocked(n);
      }
      OutcomeConserves(before, n, Abstract(), woken, panicked, Look(snap, picked));
    }

    /** Closing: the flag, then the queue; the tasks of the waiters cancelled here are woken. */
    method Close() returns (woken: set<Task>)
      requires Valid()
      modifies this, waiters`queues, waiters`heap, waiters`total, waiters`closed, waiters.Members()
      ensures Valid() && Abstract() == A.Sem(old(Abstract()).count, true, map[], multiset{})
      ensures forall w | w in old(waiters.Members()) :: w.status == Cancelled && w.waker == old(w.waker)
      ensures woken
        == set w | w in old(waiters.Members()) && old(w.status) != Cancelled && old(w.waker).Some? :: old(w.waker).value
    {
      FlaggedMeans(bits);
      bits := Flagged(bits);
      woken := waiters.Close();
      waiters.ViewAt();
      assert waiters.View() == map[];
    }
  }

  /** `new_with_config`; `None` is the panic of a semaphore asked to hold too many permits. */
  method NewWithConfig(permits: nat, config: PriorityConfig) returns (r: Option<Semaphore>)
    ensures r.Some? <==> permits <= MAX_PERMITS
    ensures r.Some? <==> permits <= 0x1FFF_FFFF_FFFF_FFFF
    ensures r.Some? ==> fresh(r.value) && fresh(r.value.waiters) && r.value.Valid()
    ensures r.Some? ==> r.value.Abstract() == A.Sem(permits, false, map[], multiset{}) && r.value.waiters.config == config
  {
    if permits > MAX_PERMITS {
      return None;
    }
    var semaphore := new Semaphore(permits, config);
    r := Some(semaphore);
  }

  datatype PollResult = Pending | Granted(permits: nat) | Refused

  /** A future acquiring permits; the borrowed and the owned one are alike. */
  class Acquire {
    const semaphore: Semaphore
    const needs: nat
    const priority: Isize
    var handle: Option<Waiter>

    constructor (semaphore: Semaphore, needs: nat, priority: Isize)
      requires needs < U32_LIMIT
      ensures this.semaphore == semaphore && this.needs == needs && this.priority == priority && handle == None
      ensures needs < U32_LIMIT
    {
      this.semaphore, this.needs, this.priority, handle := semaphore, needs, priority, None;
    }

    ghost function Waiters(): set<Waiter>
      reads this
    {
      if handle.Some? then {handle.value} else {}
    }

    /** No queued waiter but the future's own has its arrival number. */
    ghost predicate OwnId(w: Waiter)
      reads semaphore.waiters
    {
      forall v | v in semaphore.waiters.Members() && v.id == w.id :: v == w
    }

    /**
     The first poll: at once refused, granted, or queued with the waker stored. A weak exchange may fail for no
     reason, and then a future queues itself although the permits are there.
     */
    method FirstPoll(task: Task, spurious: bool, ghost id: nat) returns (r: PollResult)
      requires semaphore.Valid() && handle == None && needs < U32_LIMIT
      modifies this, semaphore, semaphore.waiters`queues, semaphore.waiters`heap, semaphore.waiters`total
      ensures semaphore.Valid()
      ensures var s, s' := old(semaphore.Abstract()), semaphore.Abstract();
        match r
        case Refused => s.closed && s' == s && handle == None
        case Granted(n) => !s.closed && s.count >= needs == n && !spurious && s' == s.(count := s.count - n) && handle == None
        case Pending =>
          && !s.closed && (spurious || s.count < needs) && handle.Some? && fresh(handle.value)
          && handle.value.View() == Entry(id, priority, needs, Waiting, Some(task))
          && s' == A.Insert(s, handle.value.View(), Resolve(semaphore.waiters.config.rules, priority))
    {
      var shifted := needs * 2;
      var curr := semaphore.bits;
      if curr % 2 == 1 {
        return Refused;
      }
      if curr >= shifted {
        if !spurious {
          semaphore.bits := curr - shifted;
          return Granted(needs % U32_LIMIT);
        }
      }
      Enqueue(task, id);
      r := Pending;
    }

    // The slow path of the first poll, on an open semaphore.
    method Enqueue(task: Task, ghost id: nat)
      requires semaphore.Valid() && handle == None
      modifies this, semaphore.waiters`queues, semaphore.waiters`heap, semaphore.waiters`total
      ensures semaphore.Valid() && handle.Some? && fresh(handle.value)
      ensures handle.value.View() == Entry(id, priority, needs, Waiting, Some(task))
      ensures semaphore.Abstract()
        == A.Insert(old(semaphore.Abstract()), handle.value.View(), Resolve(semaphore.waiters.config.rules, priority))
    {
      hide Shaped, Covered, Flatten, LookAll, KnowsAll, Knows, Look, Reflects, WaitQueue.View, WaitQueue.Snap, Resolve;
      ghost var before, queues := semaphore.Abstract(), semaphore.waiters.queues;
      semaphore.waiters.ViewAt();
      var waiter := semaphore.waiters.PushWaiter(needs, priority, id);
      handle := Some(waiter);
      if waiter.status == Waiting {
        waiter.SetWaker(task);
      }
      semaphore.waiters.ViewAt();
      InsertIs(before, waiter.View(), Resolve(semaphore.waiters.config.rules, priority),
               semaphore.waiters.View(), semaphore.waiters.heap);
    }

    /**
     A later poll: refused if the waiter was cancelled or the semaphore closed after the notification, granted if it
     was notified, and otherwise the newest waker replaces the old one.
     */
    method Repoll(task: Task) returns (r: PollResult)
      requires semaphore.Valid() && handle.Some? && needs < U32_LIMIT && OwnId(handle.value)
      modifies handle.value
      ensures semaphore.Valid() && handle.value.status == old(handle.value.status)
      ensures match r
        case Granted(n) => n == needs && old(handle.value.status) == Notified && !old(semaphore.Abstract()).closed
        case Refused =>
          || old(handle.value.status) == Cancelled
          || (old(handle.value.status) == Notified && old(semaphore.Abstract()).closed)
        case Pending => old(handle.value.status) == Waiting
      ensures old(handle.value.status) == Waiting ==> handle.value.waker == Some(task)
      ensures old(handle.value.status) != Waiting ==> handle.value.waker == old(handle.value.waker)
      ensures semaphore.Abstract() == A.Apply(old(semaphore.Abstract()), A.Repoll(handle.value.id, task), _ => Fifo)
    {
      hide Shaped, Covered, Flatten, LookAll, KnowsAll, Knows, Look, Reflects, WaitQueue.View, WaitQueue.Snap;
      ghost var before := semaphore.Abstract();
      semaphore.waiters.ViewAt();
      semaphore.waiters.MembersShape();
      var waiter := handle.value;
      if waiter.status == Cancelled {
        r := Refused;
      } else if waiter.status == Notified {
        r := if semaphore.IsClosed() then Refused else Granted(needs % U32_LIMIT);
      } else {
        waiter.SetWaker(task);
        r := Pending;
      }
      semaphore.waiters.ViewAt();
      EditIs(before.queues, waiter.id, A.Rearm(task), semaphore.waiters.View());
    }

    /** Polling: the first time and later. */
    method Poll(task: Task, spurious: bool, ghost id: nat) returns (r: PollResult)
      requires semaphore.Valid() && needs < U32_LIMIT && (handle.Some? ==> OwnId(handle.value))
      modifies this, semaphore, semaphore.waiters`queues, semaphore.waiters`heap, semaphore.waiters`total, Waiters()
      ensures semaphore.Valid()
      ensures old(handle).None? ==>
        match r
        case Granted(n) => n == needs <= old(semaphore.Abstract()).count && !old(semaphore.Abstract()).closed && handle == None
        case Refused => old(semaphore.Abstract()).closed && handle == None
        case Pending => !old(semaphore.Abstract()).closed && (spurious || old(semaphore.Abstract()).count < needs) && handle.Some?
      ensures old(handle).Some? ==> handle == old(handle)
      ensures old(handle).Some? ==>
        match r
        case Granted(n) => n == needs && old(handle.value.status) == Notified && !old(semaphore.Abstract()).closed
        case Refused =>
          || old(handle.value.status) == Cancelled
          || (old(handle.value.status) == Notified && old(semaphore.Abstract()).closed)
        case Pending => old(handle.value.status) == Waiting
      ensures old(handle).None? && !spurious ==> (
          var strategy := Resolve(semaphore.waiters.config.rules, priority);
          var poll := A.Poll(Entry(id, priority, needs, Waiting, Some(task)));
          semaphore.Abstract() == A.Apply(old(semaphore.Abstract()), poll, _ => strategy))
      ensures old(handle).Some? ==>
        semaphore.Abstract() == A.Apply(old(semaphore.Abstract()), A.Repoll(old(handle).value.id, task), _ => Fifo)
    {
      if handle.None? {
        r := FirstPoll(task, spurious, id);
      } else {
        r := Repoll(task);
      }
    }

    /**
     Dropping the future cancels its waiter; it never takes the waiter out of the queue, because it is no longer
     waiting then.
     */
    method Drop() returns (woken: Option<Task>)
      requires semaphore.Valid() && (handle.Some? ==> OwnId(handle.value))
      modifies this, semaphore.waiters`queues, semaphore.waiters`total, Waiters()
      ensures semaphore.Valid() && handle == None
      ensures old(handle).Some? ==>
        && old(handle).value.status == Cancelled
        && semaphore.Abstract() == A.Apply(old(semaphore.Abstract()), A.Drop(old(handle).value.id), _ => Fifo)
      ensures old(handle).Some? ==>
        woken == if old(handle.value.status) == Cancelled then None else old(handle.value.waker)
      ensures old(handle).None? ==> woken == None && semaphore.Abstract() == old(semaphore.Abstract())
    {
      hide Shaped, Covered, Flatten, LookAll, KnowsAll, Knows, Look, Reflects, WaitQueue.View, WaitQueue.Snap;
      woken := None;
      if handle.Some? {
        ghost var before := semaphore.Abstract();
        semaphore.waiters.ViewAt();
        semaphore.waiters.MembersShape();
        var waiter := handle.value;
        handle := None;
        woken := waiter.Cancel();
        if waiter.status == Waiting {
          assert false;
        }
        semaphore.waiters.ViewAt();
        EditIs(before.queues, waiter.id, A.Cancel(), semaphore.waiters.View());
      }
    }
  }

  lemma InsertIs(s: A.Sem, e: Entry, strategy: QueueStrategy, queues: Queues, heap: multiset<int>)
    requires queues.Keys == s.queues.Keys + {e.priority}
    requires forall p | p in s.queues && p != e.priority :: queues[p] == s.queues[p]
    requires queues[e.priority] == if strategy == Fifo then At(s.queues, e.priority) + [e] else [e] + At(s.queues, e.priority)
    requires heap == if At(s.queues, e.priority) == [] then s.heap + multiset{e.priority} else s.heap
    ensures s.(queues := queues, heap := heap) == A.Insert(s, e, strategy)
  {
    var expected := A.Insert(s, e, strategy).queues;
    assert queues.Keys == expected.Keys;
    assert forall p | p in queues :: queues[p] == expected[p];
  }

  lemma EditIs(before: Queues, id: nat, to: Entry -> Entry, after: Queues)
    requires after.Keys == before.Keys && forall p | p in before :: |after[p]| == |before[p]|
    requires forall p, i | p in before && 0 <= i < |before[p]| ::
      after[p][i] == if before[p][i].id == id then to(before[p][i]) else before[p][i]
    ensures after == A.Edit(before, id, to)
  {
    assert forall p | p in before :: after[p] == A.Edit(before, id, to)[p];
  }

  /** What a release of `n` permits must have done to turn `before` into `after`. */
  ghost predicate Outcome(before: A.Sem, n: nat, after: A.Sem, woken: seq<Task>, panicked: bool, notified: seq<Entry>) {
    var r := A.Release(before, n);
    after == Wrapped(r.sem) && woken == r.woken && notified == r.notified && (panicked <==> Panics(before, n))
  }

  /** On an open semaphore and within the limit, nothing is lost and nobody panics. */
  lemma OutcomeConserves(before: A.Sem, n: nat, after: A.Sem, woken: seq<Task>, panicked: bool, notified: seq<Entry>)
    requires Outcome(before, n, after, woken, panicked, notified)
    ensures !before.closed && before.count + n <= MAX_PERMITS ==>
      !panicked && after.count + Needs(notified) == before.count + n
  {
    hide A.Release, Needs;
    A.ReleaseConserves(before, n);
  }

  /** A release that has placed all but `rem` of its permits, and will add these to the word. */
  ghost predicate Adds(s: A.Sem, n: nat, rem: nat, queues: Queues, heap: multiset<int>, woken: seq<Task>,
                       notified: seq<Entry>) {
    A.Release(s, n) == A.Released(A.Sem(s.count + rem, s.closed, queues, heap), notified, woken, 0, 0)
  }

  lemma AddsMeans(s: A.Sem, n: nat, rem: nat, queues: Queues, heap: multiset<int>, woken: seq<Task>,
                  notified: seq<Entry>, panicked: bool)
    requires Adds(s, n, rem, queues, heap, woken, notified)
    requires panicked == (rem > 0 && s.count + rem > MAX_PERMITS)
    ensures Outcome(s, n, A.Sem((s.count + rem) % COUNT_LIMIT, s.closed, queues, heap), woken, panicked, notified)
  {
    hide A.Release;
  }

  lemma AddsNone(s: A.Sem, n: nat)
    ensures n == 0 ==> Adds(s, n, 0, s.queues, s.heap, [], [])
  {
  }

  lemma AddsAll(s: A.Sem, n: nat)
    requires Flatten(s.queues) == []
    ensures Adds(s, n, n, s.queues, s.heap, [], [])
  {
  }

  ghost predicate Refunds(s: A.Sem, n: nat) {
    n > 0 && Flatten(s.queues) != [] && s.closed
    && var sel := Select(s.queues, s.heap, n); 0 < Needs(sel.notified) <= n && Tasks(sel.notified) != []
  }

  lemma Refunded(s: A.Sem, n: nat, after: A.Sem)
    requires Refunds(s, n)
    requires var sel := Select(s.queues, s.heap, n);
      after == A.Sem((s.count + Needs(sel.notified)) % COUNT_LIMIT, true, sel.queues, sel.heap)
    ensures Outcome(s, n, after, [], false, Select(s.queues, s.heap, n).notified)
  {
  }

  lemma AddsRest(s: A.Sem, n: nat)
    requires n > 0 && Flatten(s.queues) != [] && Needs(Select(s.queues, s.heap, n).notified) <= n && !Refunds(s, n)
    ensures var sel := Select(s.queues, s.heap, n); var granted, tasks := Needs(sel.notified), Tasks(sel.notified);
      Adds(s, n, n - granted, sel.queues, sel.heap, if granted == 0 then [] else tasks, sel.notified)
  {
  }

  lemma LookAtNobody(snap: Snapshot)
    ensures Knows(snap, []) && Look(snap, []) == []
  {
  }
}
