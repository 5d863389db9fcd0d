/**
 Non-blocking attempts, guards and added permits in the interleaved semaphore, tied to the word, to the runs of
 guards and to the atomic operations.
 */
module ProtocolHolders {
  import opened Basics
  import opened Config
  import opened Selection
  import opened Protocol
  import opened ProtocolStructure
  import opened ProtocolSelection
  import opened ProtocolAtomic
  import PermitWord
  import PermitRuns
  import A = AtomicSemaphore

  ghost function Word(s: State): PermitWord.Shared {
    PermitWord.Shared(s.count, s.closed)
  }

  ghost function PoolOf(s: State): PermitRuns.Pool {
    PermitRuns.Pool(s.count, s.guards, s.ledger.forgotten)
  }

  /** A non-blocking attempt from its load on, with no step of anybody else in between. */
  ghost function AttemptAlone(s: State, n: nat): State
    requires CanHold(s, TryLoad(n))
  {
    var s' := Hold(s, TryLoad(n));
    if |s'.attempts| == |s.attempts| then s' else Hold(s', TryExchange(|s.attempts|, false))
  }

  /** An uninterrupted attempt is the one attempt on the word, and what it acquires is in a new guard. */
  lemma AttemptIsAtomic(s: State, n: nat, strategy: int -> QueueStrategy)
    requires CanHold(s, TryLoad(n)) && AllReadable(s.futs, s.queues)
    ensures var s', o := AttemptAlone(s, n), PermitWord.Attempt(Word(s), n);
      && Word(s') == o.0
      && s'.guards == s.guards + (if o.1 == PermitWord.Acquired(n) then [Guard(n)] else [])
      && s'.futs == s.futs && s'.queues == s.queues && s'.ledger == s.ledger
      && AllReadable(s'.futs, s'.queues) && Abstract(s') == A.Apply(Abstract(s), A.TryAcquire(n), strategy)
  {
  }

  /** Forgetting permits is one removal from the word. */
  lemma ForgetIsAtomic(s: State, n: nat, strategy: int -> QueueStrategy)
    requires AllReadable(s.futs, s.queues)
    ensures var s', o := Hold(s, ForgetPermits(n)), PermitWord.Removal(Word(s), n);
      && Word(s') == o.0 && s'.ledger == s.ledger.(forgotten := s.ledger.forgotten + o.1)
      && s'.guards == s.guards && s'.futs == s.futs && s'.queues == s.queues
      && AllReadable(s'.futs, s'.queues) && Abstract(s') == A.Apply(Abstract(s), A.Forget(n), strategy)
  {
  }

  /** The atomic operations do to count and flag what the attempt and the removal do to the word. */
  lemma OperationsOnTheWord(s: A.Sem, n: nat, strategy: int -> QueueStrategy)
    ensures var w := PermitWord.Shared(s.count, s.closed);
      var taken, forgotten := A.Apply(s, A.TryAcquire(n), strategy), A.Apply(s, A.Forget(n), strategy);
      && PermitWord.Shared(taken.count, taken.closed) == PermitWord.Attempt(w, n).0
      && PermitWord.Shared(forgotten.count, forgotten.closed) == PermitWord.Removal(w, n).0
      && taken.queues == forgotten.queues == s.queues && taken.heap == forgotten.heap == s.heap
  {
  }

  /** Asking for nothing gives an empty guard and leaves everything else alone. */
  lemma NothingIsFree(s: State)
    ensures Hold(s, TryNothing) == s.(guards := s.guards + [Guard(0)])
  {
  }

  /** Splitting, merging and forgetting a guard are the steps of runs of guards; only the guards and the books change. */
  lemma GuardsMove(s: State, a: HolderAction)
    requires CanHold(s, a) && (a.SplitGuard? || a.MergeGuards? || a.ForgetGuard?)
    ensures var s' := Hold(s, a);
      && PoolOf(s') == PermitRuns.Step(PoolOf(s),
           match a
           case SplitGuard(g, n) => PermitRuns.Split(g, n)
           case MergeGuards(g, h) => PermitRuns.Merge(g, h)
           case _ => PermitRuns.Forget(a.g))
      && s' == s.(guards := s'.guards, ledger := s'.ledger)
  {
  }

  /** Added permits that nobody interrupts are the atomic release. */
  lemma AddIsGive(s: State, n: nat, strategy: int -> QueueStrategy)
    requires Structure(s, strategy) && n > 0 && s.lock == None && AllReadable(s.futs, s.queues)
    ensures var s1 := ReleaseBy(s, AddPermits(n));
      && CanRelease(s1, ReleaseSelect(|s.releases|, {}))
      && var s' := ReleaseAlone(s1, |s.releases|);
      && AllReadable(s'.futs, s'.queues) && Abstract(s') == A.Apply(Abstract(s), A.Give(n), strategy)
  {
    hide Structure, ReleaseAlone, Select;
    var s1 := ReleaseBy(s, AddPermits(n));
    FrameKeepsStructure(s, s1, strategy);
    ReleaseIsAtomic(s1, |s.releases|, strategy);
  }

  /**
   Dropping a guard without interruption empties it and gives its permits to the atomic release; with nobody queued they
   are free again, as in runs of guards.
   */
  lemma DropIsGive(s: State, g: nat, strategy: int -> QueueStrategy)
    requires Structure(s, strategy) && CanRelease(s, DropGuard(g)) && s.lock == None && AllReadable(s.futs, s.queues)
    ensures var s1 := ReleaseBy(s, DropGuard(g));
      && CanRelease(s1, ReleaseSelect(|s.releases|, {}))
      && var s' := ReleaseAlone(s1, |s.releases|);
      && AllReadable(s'.futs, s'.queues)
      && Abstract(s') == A.Apply(Abstract(s), A.Give(s.guards[g].permits), strategy)
      && s'.guards == s.guards[g := Guard(0)]
      && (Flatten(s.queues) == [] ==> PoolOf(s') == PermitRuns.Step(PoolOf(s), PermitRuns.Drop(g)))
  {
    hide Structure, Select, Flatten, View;
    var s1 := ReleaseBy(s, DropGuard(g));
    FrameKeepsStructure(s, s1, strategy);
    ReleaseIsAtomic(s1, |s.releases|, strategy);
    KeepsGuards(s1, |s.releases|);
    ViewIsOrderly(s, {}, strategy);
  }

  lemma KeepsGuards(s: State, r: nat)
    requires CanRelease(s, ReleaseSelect(r, {}))
    ensures ReleaseAlone(s, r).guards == s.guards && ReleaseAlone(s, r).ledger.forgotten == s.ledger.forgotten
  {
    hide SelectStep, FinishAlone;
    SelectKeepsGuards(s, r);
    FinishKeepsGuards(ReleaseBy(s, ReleaseSelect(r, {})), r);
  }

  lemma SelectKeepsGuards(s: State, r: nat)
    requires CanRelease(s, ReleaseSelect(r, {}))
    ensures var s' := SelectStep(s, r, {});
      s'.guards == s.guards && s'.ledger.forgotten == s.ledger.forgotten && r < |s'.releases|
  {
    hide Select, Flatten, View, NotifyAll, RacedNeeds, Needs, Tasks;
  }

  lemma FinishKeepsGuards(s: State, r: nat)
    requires r < |s.releases|
    ensures FinishAlone(s, r).guards == s.guards && FinishAlone(s, r).ledger.forgotten == s.ledger.forgotten
  {
    hide Readable;
  }
}
