/** The shape that the wait queue, the waiters' states and the futures keep in every interleaving. */
module ProtocolStructure {
  import opened Basics
  import opened Config
  import opened Selection
  import opened Protocol

  /** Later arrivals rank higher in a FIFO priority and lower in a LIFO one. */
  function Rank(futs: seq<Future>, strategy: int -> QueueStrategy, i: int): int {
    if !(0 <= i < |futs|) then 0
    else if strategy(futs[i].priority) == Fifo then futs[i].arrival
    else 0 - futs[i].arrival
  }

  /** A queue in the order its strategy promises; nobody sits in it twice. */
  ghost predicate Sorted(futs: seq<Future>, q: seq<int>, strategy: int -> QueueStrategy) {
    forall j, k | 0 <= j < k < |q| :: Rank(futs, strategy, q[j]) < Rank(futs, strategy, q[k])
  }

  ghost predicate AllSorted(s: State, strategy: int -> QueueStrategy) {
    forall p :: Sorted(s.futs, At(s.queues, p), strategy)
  }

  /** `i` may sit in the queue of priority `p`. */
  ghost predicate Slot(s: State, p: int, i: int) {
    && 0 <= i < |s.futs| && s.futs[i].priority == p && s.futs[i].arrival < s.next
    && s.futs[i].handle.Some? && s.futs[i].handle != Some(Notified)
  }

  ghost predicate Slots(s: State) {
    forall p, i | i in At(s.queues, p) :: Slot(s, p, i)
  }

  predicate BeforeQueue(pc: Pc) {
    pc == Fresh || pc.Prepared? || pc == Slow || pc == Locked
  }

  predicate InQueueStage(pc: Pc) {
    pc == Queued || pc == Uncancelled || pc == Arming || pc == Parked
  }

  /** How a future's program point, its handle and the queue fit together. */
  ghost predicate Stage(s: State, i: int)
    requires 0 <= i < |s.futs|
  {
    var f := s.futs[i];
    && (BeforeQueue(f.pc) ==> f.handle == None)
    && (InQueueStage(f.pc) ==> f.handle.Some?)
    && (f.pc == Claiming ==> f.handle == Some(Notified))
    && (f.handle == Some(Waiting) ==> InQueueStage(f.pc) && i in At(s.queues, f.priority))
    && (f.pc == Locked <==> s.lock == Some(i))
  }

  ghost predicate Stages(s: State) {
    (forall i | 0 <= i < |s.futs| :: Stage(s, i)) && (s.lock.Some? ==> 0 <= s.lock.value < |s.futs|)
  }

  ghost predicate Closing(s: State) {
    && (s.closers > 0 || s.drained ==> s.closed)
    && (s.drained ==> s.lock == None && forall p :: At(s.queues, p) == [])
  }

  ghost predicate Structure(s: State, strategy: int -> QueueStrategy) {
    Slots(s) && Stages(s) && AllSorted(s, strategy) && HeapExact(s.queues, s.heap) && Closing(s)
  }

  /** Only future `i` changed, in a way its queue does not notice. */
  ghost predicate Moves(s: State, s': State, i: nat) {
    && i < |s.futs| && |s'.futs| == |s.futs| && s'.futs == s.futs[i := s'.futs[i]]
    && s'.queues == s.queues && s'.heap == s.heap && s'.next == s.next
    && s'.closed == s.closed && s'.closers == s.closers && s'.drained == s.drained
    && s'.futs[i].priority == s.futs[i].priority && s'.futs[i].arrival == s.futs[i].arrival
    && (s.futs[i].handle.Some? && s.futs[i].handle != Some(Notified) ==>
          s'.futs[i].handle.Some? && s'.futs[i].handle != Some(Notified))
    && (s'.lock == s.lock || (s.lock == None && s'.lock == Some(i) && !s.closed))
  }

  lemma MoveKeepsStructure(s: State, s': State, i: nat, strategy: int -> QueueStrategy)
    requires Structure(s, strategy) && Moves(s, s', i) && Stage(s', i)
    ensures Structure(s', strategy)
  {
    forall j | 0 <= j < |s'.futs| ensures Stage(s', j) {
      assert Stage(s, j);
    }
    forall p ensures Sorted(s'.futs, At(s'.queues, p), strategy) {
      assert Sorted(s.futs, At(s.queues, p), strategy);
      SortedFrame(s.futs, s'.futs, At(s.queues, p), strategy);
    }
    forall p, j | j in At(s'.queues, p) ensures Slot(s', p, j) {
      assert Slot(s, p, j);
    }
  }

  lemma FrameKeepsStructure(s: State, s': State, strategy: int -> QueueStrategy)
    requires Structure(s, strategy)
    requires s'.futs == s.futs && s'.queues == s.queues && s'.heap == s.heap && s'.next == s.next && s'.lock == s.lock
    requires s'.closers == s.closers && s'.drained == s.drained && s'.closed == s.closed
    ensures Structure(s', strategy)
  {
    forall j | 0 <= j < |s'.futs| ensures Stage(s', j) {
      assert Stage(s, j);
    }
    forall p, j | j in At(s'.queues, p) ensures Slot(s', p, j) {
      assert Slot(s, p, j);
    }
    forall p ensures Sorted(s'.futs, At(s'.queues, p), strategy) {
      assert Sorted(s.futs, At(s.queues, p), strategy);
    }
  }

  lemma SortedFrame(before: seq<Future>, after: seq<Future>, q: seq<int>, strategy: int -> QueueStrategy)
    requires Sorted(before, q, strategy)
    requires |before| == |after|
    requires forall i | 0 <= i < |before| :: after[i].priority == before[i].priority && after[i].arrival == before[i].arrival
    ensures Sorted(after, q, strategy)
  {
    forall i ensures Rank(after, strategy, i) == Rank(before, strategy, i) {}
  }

  lemma NewFutureKeepsStructure(s: State, f: Future, strategy: int -> QueueStrategy)
    requires Structure(s, strategy) && f.pc == Fresh && f.handle == None
    ensures Structure(s.(futs := s.futs + [f]), strategy)
  {
    var s' := s.(futs := s.futs + [f]);
    forall j | 0 <= j < |s'.futs| ensures Stage(s', j) {
      if j < |s.futs| { assert Stage(s, j); }
    }
    forall p, j | j in At(s'.queues, p) ensures Slot(s', p, j) {
      assert Slot(s, p, j);
    }
    forall p ensures Sorted(s'.futs, At(s'.queues, p), strategy) {
      assert Sorted(s.futs, At(s.queues, p), strategy);
      forall j | j in At(s.queues, p) ensures Rank(s'.futs, strategy, j) == Rank(s.futs, strategy, j) {
        assert Slot(s, p, j);
      }
    }
  }

  lemma LockedIsOutside(s: State, i: nat)
    requires Slots(s) && Stages(s) && i < |s.futs| && s.futs[i].pc == Locked
    ensures s.lock == Some(i) && s.futs[i].handle == None
    ensures forall p :: i !in At(s.queues, p)
  {
    assert Stage(s, i);
    forall p ensures i !in At(s.queues, p) {
      assert i in At(s.queues, p) ==> Slot(s, p, i);
    }
  }

  lemma PushKeepsSorted(s: State, i: nat, strategy: int -> QueueStrategy, p: int)
    requires Slots(s) && Sorted(s.futs, At(s.queues, p), strategy)
    requires i < |s.futs| && i !in At(s.queues, p)
    ensures Sorted(PushStep(s, i, strategy).futs, At(PushStep(s, i, strategy).queues, p), strategy)
  {
    var s' := PushStep(s, i, strategy);
    forall j | j in At(s.queues, p) ensures Rank(s'.futs, strategy, j) == Rank(s.futs, strategy, j) {
      assert Slot(s, p, j);
    }
    if p == s.futs[i].priority {
      forall j | j in At(s.queues, p)
        ensures if strategy(p) == Fifo then Rank(s'.futs, strategy, j) < Rank(s'.futs, strategy, i)
          else Rank(s'.futs, strategy, i) < Rank(s'.futs, strategy, j)
      {
        assert Slot(s, p, j);
      }
    }
  }

  lemma PushKeepsPlaces(s: State, i: nat, strategy: int -> QueueStrategy)
    requires Slots(s) && Stages(s) && i < |s.futs| && s.futs[i].pc == Locked
    ensures Slots(PushStep(s, i, strategy)) && Stages(PushStep(s, i, strategy))
  {
    var s' := PushStep(s, i, strategy);
    LockedIsOutside(s, i);
    forall p, j | j in At(s'.queues, p) ensures Slot(s', p, j) {
      assert j != i ==> j in At(s.queues, p) && Slot(s, p, j);
    }
    forall j | 0 <= j < |s'.futs| ensures Stage(s', j) {
      assert Stage(s, j);
      assert j in At(s.queues, s.futs[j].priority) ==> j in At(s'.queues, s.futs[j].priority);
    }
  }

  lemma PushKeepsStructure(s: State, i: nat, strategy: int -> QueueStrategy)
    requires Structure(s, strategy) && i < |s.futs| && s.futs[i].pc == Locked
    ensures Structure(PushStep(s, i, strategy), strategy)
  {
    hide Sorted, Slots, Stages;
    var s' := PushStep(s, i, strategy);
    LockedIsOutside(s, i);
    PushKeepsPlaces(s, i, strategy);
    forall p ensures Sorted(s'.futs, At(s'.queues, p), strategy) {
      PushKeepsSorted(s, i, strategy, p);
    }
  }

  lemma DrainKeepsStructure(s: State, strategy: int -> QueueStrategy)
    requires Structure(s, strategy) && CanClose(s, Drain)
    ensures Structure(Close(s, Drain), strategy)
    ensures forall i | 0 <= i < |s.futs| :: Close(s, Drain).futs[i].handle != Some(Waiting)
  {
    var s' := Close(s, Drain);
    forall i | 0 <= i < |s.futs| ensures Stage(s', i) && s'.futs[i].handle != Some(Waiting) {
      assert Stage(s, i);
    }
  }

  // Every step except the selection.

  lemma PollKeepsStructure(s: State, a: PollAction, strategy: int -> QueueStrategy)
    requires Structure(s, strategy) && CanPoll(s, a)
    ensures Structure(Poll(s, a, strategy), strategy)
  {
    hide Structure;
    match a
    case NewFuture(needs, priority) => NewFutureKeepsStructure(s, Future(needs, priority, Fresh, None, None, 0), strategy);
    case PollPush(i) => PushKeepsStructure(s, i, strategy);
    case _ => FuturePollKeepsStructure(s, a, a.i, strategy);
  }

  lemma StructureStage(s: State, i: nat, strategy: int -> QueueStrategy)
    requires Structure(s, strategy) && i < |s.futs|
    ensures Stage(s, i)
  {
  }

  lemma FuturePollKeepsStructure(s: State, a: PollAction, i: nat, strategy: int -> QueueStrategy)
    requires Structure(s, strategy) && CanPoll(s, a) && !a.NewFuture? && !a.PollPush? && i == a.i
    ensures Structure(Poll(s, a, strategy), strategy)
  {
    hide Structure;
    StructureStage(s, i, strategy);
    MoveKeepsStructure(s, Poll(s, a, strategy), i, strategy);
  }
}
