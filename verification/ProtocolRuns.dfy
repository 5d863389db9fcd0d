/** What holds in every run of the interleaved semaphore. */
module ProtocolRuns {
  import opened Basics
  import opened Config
  import opened Selection
  import opened SelectionLaws
  import opened SelectionOrder
  import opened Protocol
  import opened ProtocolStructure
  import opened ProtocolSelection
  import opened ProtocolAccounting
  import opened DeadWaiters
  import PermitWord

  ghost predicate Sound(s: State, strategy: int -> QueueStrategy) {
    Structure(s, strategy) && Accounted(s)
  }

  lemma StepBalances(s: State, a: Action, strategy: int -> QueueStrategy)
    requires Structure(s, strategy) && Enabled(s, a)
    ensures Balanced(s, Apply(s, a, strategy))
  {
    hide Structure, Balanced, Poll, Hold, ReleaseBy, Close;
    match a
    case Acquirer(poll) => PollBalances(s, poll, strategy);
    case Holder(hold) => HoldBalances(s, hold);
    case Releaser(release) => ReleaseBalances(s, release, strategy);
    case Closer(close) => CloseBalances(s, close, strategy);
  }

  lemma StepKeepsStructure(s: State, a: Action, strategy: int -> QueueStrategy)
    requires Structure(s, strategy) && Enabled(s, a)
    ensures Structure(Apply(s, a, strategy), strategy)
  {
    hide Structure, Poll, SelectStep;
    match a
    case Acquirer(poll) => PollKeepsStructure(s, poll, strategy);
    case Holder(hold) => FrameKeepsStructure(s, Hold(s, hold), strategy);
    case Releaser(release) =>
      match release {
        case ReleaseSelect(r, raced) => SelectKeepsStructure(s, r, raced, strategy);
        case _ => FrameKeepsStructure(s, ReleaseBy(s, release), strategy);
      }
    case Closer(close) =>
      if close.Drain? { DrainKeepsStructure(s, strategy); } else { FlagKeepsStructure(s, strategy); }
  }

  lemma FlagKeepsStructure(s: State, strategy: int -> QueueStrategy)
    requires Structure(s, strategy)
    ensures Structure(Close(s, SetClosed), strategy)
  {
    FrameKeepsStructure(s, s, strategy);
    var s' := Close(s, SetClosed);
    forall i | 0 <= i < |s'.futs| ensures Stage(s', i) {
      assert Stage(s, i);
    }
    forall p, i | i in At(s'.queues, p) ensures Slot(s', p, i) {
      assert Slot(s, p, i);
    }
    forall p ensures Sorted(s'.futs, At(s'.queues, p), strategy) {
      assert Sorted(s.futs, At(s.queues, p), strategy);
    }
  }

  /** Every state of every run keeps the queue's structure and the books. */
  lemma {:induction false} RunIsSound(run: seq<State>, actions: seq<Action>, permits: nat,
                                      strategy: int -> QueueStrategy, k: nat)
    requires IsRun(run, actions, permits, strategy) && k < |run|
    ensures Sound(run[k], strategy)
  {
    hide Structure, Apply, Enabled, Balanced, Accounted;
    if k == 0 {
      InitIsSound(permits, strategy);
    } else {
      RunIsSound(run, actions, permits, strategy, k - 1);
      StepKeepsStructure(run[k - 1], actions[k - 1], strategy);
      StepBalances(run[k - 1], actions[k - 1], strategy);
      BalancedKeepsAccounted(run[k - 1], run[k]);
    }
  }

  lemma InitIsSound(permits: nat, strategy: int -> QueueStrategy)
    ensures Sound(Init(permits), strategy)
  {
  }

  /** Permits added from outside. */
  function Added(actions: seq<Action>): nat {
    if actions == [] then 0
    else Added(actions[..|actions| - 1]) + AddedBy(actions[|actions| - 1])
  }

  function AddedBy(a: Action): nat {
    if a.Releaser? && a.release.AddPermits? then a.release.n else 0
  }

  lemma ReleaseSupplies(s: State, a: ReleaseAction)
    requires CanRelease(s, a)
    ensures ReleaseBy(s, a).ledger.supply == s.ledger.supply + AddedBy(Releaser(a))
  {
    hide Select, NotifyAll, Flatten, Needs, Tasks, RacedNeeds, AllReadable, Enabled;
  }

  lemma StepSupplies(s: State, a: Action, strategy: int -> QueueStrategy)
    requires Enabled(s, a)
    ensures Apply(s, a, strategy).ledger.supply == s.ledger.supply + AddedBy(a)
  {
    hide ReleaseBy, At, CancelQueued, AllReadable;
    if a.Releaser? { ReleaseSupplies(s, a.release); }
  }

  lemma {:induction false} RunSupply(run: seq<State>, actions: seq<Action>, permits: nat,
                                     strategy: int -> QueueStrategy, k: nat)
    requires IsRun(run, actions, permits, strategy) && k < |run|
    ensures run[k].ledger.supply == permits + Added(actions[..k])
  {
    hide Apply, Enabled;
    if k > 0 {
      RunSupply(run, actions, permits, strategy, k - 1);
      StepSupplies(run[k - 1], actions[k - 1], strategy);
      assert actions[..k][..k - 1] == actions[..k - 1];
    }
  }

  /** Permits that a step puts back on the word although their waiters were notified. */
  ghost function RefundedBy(s: State, a: Action): nat {
    if a.Releaser? && a.release.ReleaseChecked? && CanRelease(s, a.release) && s.closed then s.releases[a.release.r].granted
    else 0
  }

  /** Permits put back so by the first `k` steps. */
  ghost function Refunded(run: seq<State>, actions: seq<Action>, k: nat): nat
    requires k <= |run| && k <= |actions|
  {
    if k == 0 then 0 else Refunded(run, actions, k - 1) + RefundedBy(run[k - 1], actions[k - 1])
  }

  lemma StepRefunds(s: State, a: Action, strategy: int -> QueueStrategy)
    requires Enabled(s, a)
    ensures Apply(s, a, strategy).ledger.phantom == s.ledger.phantom + RefundedBy(s, a)
  {
    hide ReleaseBy, At, CancelQueued, AllReadable;
    if a.Releaser? { ReleaseRefunds(s, a.release); }
  }

  lemma ReleaseRefunds(s: State, a: ReleaseAction)
    requires CanRelease(s, a)
    ensures ReleaseBy(s, a).ledger.phantom == s.ledger.phantom + RefundedBy(s, Releaser(a))
  {
    hide Select, NotifyAll, Flatten, Needs, Tasks, RacedNeeds, AllReadable, Enabled;
  }

  lemma {:induction false} RunRefunds(run: seq<State>, actions: seq<Action>, permits: nat,
                                      strategy: int -> QueueStrategy, k: nat)
    requires IsRun(run, actions, permits, strategy) && k < |run|
    ensures run[k].ledger.phantom == Refunded(run, actions, k)
  {
    hide Apply, Enabled, RefundedBy;
    if k > 0 {
      RunRefunds(run, actions, permits, strategy, k - 1);
      StepRefunds(run[k - 1], actions[k - 1], strategy);
    }
  }

  /** The free, held, reserved, in-flight, stranded and forgotten permits. */
  ghost function AllPermits(s: State): nat {
    s.count + Held(s) + Reserved(s) + InFlight(s) + s.ledger.stranded + s.ledger.forgotten
  }

  /**
   Conservation: in every state of every run all permits add up to the initial, the added and the refunded ones, and
   nothing is refunded while the semaphore is open; those outside the word never exceed the initial and the added ones.
   */
  lemma RunConserves(run: seq<State>, actions: seq<Action>, permits: nat, strategy: int -> QueueStrategy, k: nat)
    requires IsRun(run, actions, permits, strategy) && k < |run|
    ensures var s := run[k];
      && AllPermits(s) == permits + Added(actions[..k]) + Refunded(run, actions, k)
      && (!s.closed ==> Refunded(run, actions, k) == 0)
      && Held(s) + Reserved(s) + InFlight(s) + s.ledger.stranded <= permits + Added(actions[..k])
  {
    RunIsSound(run, actions, permits, strategy, k);
    RunSupply(run, actions, permits, strategy, k);
    RunRefunds(run, actions, permits, strategy, k);
  }

  /** A release looks at the closed flag only if it granted something. */
  ghost predicate GrantsSome(s: State) {
    forall r | 0 <= r < |s.releases| && s.releases[r].Granting? :: s.releases[r].granted > 0
  }

  lemma StepGrantsSome(s: State, a: Action, strategy: int -> QueueStrategy)
    requires Enabled(s, a) && GrantsSome(s)
    ensures GrantsSome(Apply(s, a, strategy))
  {
    hide ReleaseBy, At, CancelQueued, AllReadable;
    if a.Releaser? { ReleaseGrantsSome(s, a.release); }
  }

  lemma ReleaseGrantsSome(s: State, a: ReleaseAction)
    requires CanRelease(s, a) && GrantsSome(s)
    ensures GrantsSome(ReleaseBy(s, a))
  {
    hide Select, NotifyAll, Flatten, Needs, Tasks, RacedNeeds, AllReadable, Enabled;
  }

  lemma {:induction false} RunGrantsSome(run: seq<State>, actions: seq<Action>, permits: nat,
                                         strategy: int -> QueueStrategy, k: nat)
    requires IsRun(run, actions, permits, strategy) && k < |run|
    ensures GrantsSome(run[k])
  {
    hide Apply, Enabled, GrantsSome;
    if k > 0 {
      RunGrantsSome(run, actions, permits, strategy, k - 1);
      StepGrantsSome(run[k - 1], actions[k - 1], strategy);
    } else {
      InitGrantsSome(permits);
    }
  }

  lemma InitGrantsSome(permits: nat)
    ensures GrantsSome(Init(permits))
  {
  }

  /** A release about to wake finds the semaphore closed. */
  ghost predicate Refunds(s: State, a: Action) {
    a.Releaser? && a.release.ReleaseChecked? && s.closed
  }

  lemma {:induction false} RefundedIff(run: seq<State>, actions: seq<Action>, permits: nat,
                                       strategy: int -> QueueStrategy, k: nat)
    requires IsRun(run, actions, permits, strategy) && k < |run|
    ensures Refunded(run, actions, k) == 0 <==> forall j | 0 <= j < k :: !Refunds(run[j], actions[j])
  {
    hide Apply, RefundedBy, Refunds;
    if k > 0 {
      RefundedIff(run, actions, permits, strategy, k - 1);
      RunGrantsSome(run, actions, permits, strategy, k - 1);
      RefundIff(run[k - 1], actions[k - 1]);
    }
  }

  lemma RefundIff(s: State, a: Action)
    requires Enabled(s, a) && GrantsSome(s)
    ensures RefundedBy(s, a) > 0 <==> Refunds(s, a)
  {
  }

  /**
   A run conserves the initial and the added permits if and only if no release that was about to wake found the
   semaphore closed.
   */
  lemma RunConservesIff(run: seq<State>, actions: seq<Action>, permits: nat, strategy: int -> QueueStrategy, k: nat)
    requires IsRun(run, actions, permits, strategy) && k < |run|
    ensures AllPermits(run[k]) == permits + Added(actions[..k]) <==> forall j | 0 <= j < k :: !Refunds(run[j], actions[j])
  {
    hide Apply, Enabled, AllPermits, Refunds;
    RunConserves(run, actions, permits, strategy, k);
    RefundedIff(run, actions, permits, strategy, k);
  }

  /**
   Before a close, a supply within the limit means that no addition overflows, and the packed word represents the sum
   exactly.
   */
  lemma RunNeverOverflows(run: seq<State>, actions: seq<Action>, permits: nat, strategy: int -> QueueStrategy,
                          k: nat, r: nat)
    requires IsRun(run, actions, permits, strategy) && k < |run|
    requires permits + Added(actions[..k]) <= PermitWord.MAX_PERMITS && !run[k].closed
    requires r < |run[k].releases| && run[k].releases[r].Adding?
    ensures run[k].count + run[k].releases[r].rem <= PermitWord.MAX_PERMITS
    ensures var word, rem := PermitWord.Pack(PermitWord.Shared(run[k].count, false)), run[k].releases[r].rem;
      PermitWord.Unpack(PermitWord.Added(word, rem)) == PermitWord.Shared(run[k].count + rem, false)
  {
    hide Total;
    var s := run[k];
    RunConserves(run, actions, permits, strategy, k);
    TotalUpdate(s.releases, r, Finished, Carried);
    var word := PermitWord.Pack(PermitWord.Shared(s.count, false));
    PermitWord.WithinLimitNoWrap(word, s.releases[r].rem, permits + Added(actions[..k]));
  }

  /** Once the flag is set it stays set, and nothing is acquired any more, not even by an exchange prepared before. */
  lemma {:induction false} NothingAcquiredAfterClose(run: seq<State>, actions: seq<Action>, permits: nat,
                                                     strategy: int -> QueueStrategy, j: nat, k: nat)
    requires IsRun(run, actions, permits, strategy) && j <= k < |run| && run[j].closed
    ensures run[k].closed && Held(run[k]) <= Held(run[j])
    decreases k
  {
    hide Structure, Apply, Enabled;
    if j < k {
      NothingAcquiredAfterClose(run, actions, permits, strategy, j, k - 1);
      RunIsSound(run, actions, permits, strategy, k - 1);
      StepBalances(run[k - 1], actions[k - 1], strategy);
    }
  }

  lemma {:induction false} DrainedStays(run: seq<State>, actions: seq<Action>, permits: nat,
                                        strategy: int -> QueueStrategy, j: nat, k: nat)
    requires IsRun(run, actions, permits, strategy) && j <= k < |run| && run[j].drained
    ensures run[k].drained
    decreases k
  {
    if j < k { DrainedStays(run, actions, permits, strategy, j, k - 1); }
  }

  /** After some close has returned the queue is empty for good, and no future is left waiting. */
  lemma EmptyAfterClose(run: seq<State>, actions: seq<Action>, permits: nat, strategy: int -> QueueStrategy,
                        j: nat, k: nat)
    requires IsRun(run, actions, permits, strategy) && j <= k < |run| && run[j].drained
    ensures Flatten(run[k].queues) == []
    ensures forall i | 0 <= i < |run[k].futs| :: run[k].futs[i].handle != Some(Waiting)
  {
    hide Flatten;
    DrainedStays(run, actions, permits, strategy, j, k);
    RunIsSound(run, actions, permits, strategy, k);
    FlattenEmpty(run[k].queues);
    forall i | 0 <= i < |run[k].futs| ensures run[k].futs[i].handle != Some(Waiting) {
      assert Stage(run[k], i);
    }
  }

  /** Future `i` sits in slot `m` of the queue of `p`, not cancelled. */
  ghost predicate Occupies(s: State, i: int, p: int, m: int) {
    0 <= i < |s.futs| && 0 <= m < |At(s.queues, p)| && At(s.queues, p)[m] == i && s.futs[i].handle != Some(Cancelled)
  }

  lemma WaitingOccupies(s: State, strategy: int -> QueueStrategy, i: int)
    requires Structure(s, strategy) && 0 <= i < |s.futs|
    ensures s.futs[i].handle == Some(Waiting) <==> exists p, m :: Occupies(s, i, p, m)
  {
    hide Structure;
    StructureStage(s, i, strategy);
    if s.futs[i].handle == Some(Waiting) {
      var p: int := s.futs[i].priority;
      var m :| 0 <= m < |At(s.queues, p)| && At(s.queues, p)[m] == i;
      assert Occupies(s, i, p, m);
    }
    if exists p, m :: Occupies(s, i, p, m) {
      var p, m :| Occupies(s, i, p, m);
      QueuedIsNotNotified(s, strategy, p, i);
      assert s.futs[i].handle.value.Waiting?;
    }
  }

  lemma OccupiesOnce(s: State, strategy: int -> QueueStrategy, i: int, p: int, m: int, p': int, m': int)
    requires Structure(s, strategy) && Occupies(s, i, p, m) && Occupies(s, i, p', m')
    ensures p == p' == s.futs[i].priority && m == m'
  {
    assert Slot(s, p, i) && Slot(s, p', i);
    assert Sorted(s.futs, At(s.queues, p), strategy);
  }

  lemma QueuedIsNotNotified(s: State, strategy: int -> QueueStrategy, p: int, i: int)
    requires Structure(s, strategy) && i in At(s.queues, p)
    ensures 0 <= i < |s.futs| && s.futs[i].handle.Some? && s.futs[i].handle != Some(Notified)
  {
    assert Slot(s, p, i);
  }

  /**
   In every reachable state: a future is waiting if and only if it sits uncancelled in a slot; such a slot is
   unique and in the future's own priority; no queued future is notified; the heap is exact; and a selection can
   read the whole queue.
   */
  lemma RunKeepsQueue(run: seq<State>, actions: seq<Action>, permits: nat, strategy: int -> QueueStrategy, k: nat)
    requires IsRun(run, actions, permits, strategy) && k < |run|
    ensures var s := run[k];
      && HeapExact(s.queues, s.heap) && AllReadable(s.futs, s.queues)
      && (forall i | 0 <= i < |s.futs| :: s.futs[i].handle == Some(Waiting) <==> exists p, m :: Occupies(s, i, p, m))
      && (forall i, p, m, p', m' | Occupies(s, i, p, m) && Occupies(s, i, p', m') ::
            p == p' == s.futs[i].priority && m == m')
      && (forall p, i | i in At(s.queues, p) :: 0 <= i < |s.futs| && s.futs[i].handle != Some(Notified))
  {
    hide Slots, Stages, AllSorted, IsRun;
    var s := run[k];
    RunIsSound(run, actions, permits, strategy, k);
    SlotsAreReadable(s);
    forall i | 0 <= i < |s.futs| ensures s.futs[i].handle == Some(Waiting) <==> exists p, m :: Occupies(s, i, p, m) {
      WaitingOccupies(s, strategy, i);
    }
    forall i, p, m, p', m' | Occupies(s, i, p, m) && Occupies(s, i, p', m')
      ensures p == p' == s.futs[i].priority && m == m'
    {
      OccupiesOnce(s, strategy, i, p, m, p', m');
    }
    forall p, i | i in At(s.queues, p) ensures 0 <= i < |s.futs| && s.futs[i].handle != Some(Notified) {
      QueuedIsNotNotified(s, strategy, p, i);
    }
  }

  /** In every reachable state each FIFO queue is in ascending and each LIFO queue in descending order of arrival. */
  lemma RunKeepsSorted(run: seq<State>, actions: seq<Action>, permits: nat, strategy: int -> QueueStrategy,
                       k: nat, p: int, a: nat, b: nat)
    requires IsRun(run, actions, permits, strategy) && k < |run| && a < b < |At(run[k].queues, p)|
    ensures var s, q := run[k], At(run[k].queues, p);
      && 0 <= q[a] < |s.futs| && 0 <= q[b] < |s.futs|
      && if strategy(p) == Fifo then s.futs[q[a]].arrival < s.futs[q[b]].arrival
         else s.futs[q[a]].arrival > s.futs[q[b]].arrival
  {
    var s, q := run[k], At(run[k].queues, p);
    RunIsSound(run, actions, permits, strategy, k);
    assert Slot(s, p, q[a]) && Slot(s, p, q[b]);
    assert Sorted(s.futs, q, strategy);
  }

  // Overtaking.

  lemma {:induction false} AtPriorityMember(es: seq<Entry>, e: Entry)
    requires e in es
    ensures e in AtPriority(es, e.priority)
  {
    if es[0] != e { AtPriorityMember(es[1..], e); }
  }

  lemma {:induction false} AtPriorityKeepsOrder(es: seq<Entry>, rank: Entry -> int, a: nat, b: nat)
    requires a < b < |es| && es[a].priority == es[b].priority && Increasing(AtPriority(es, es[a].priority), rank)
    ensures rank(es[a]) < rank(es[b])
  {
    var p := es[a].priority;
    var rest := AtPriority(es[1..], p);
    if a == 0 {
      AtPriorityMember(es[1..], es[b]);
      var k :| 0 <= k < |rest| && rest[k] == es[b];
      assert AtPriority(es, p) == [es[0]] + rest && AtPriority(es, p)[0] == es[0];
      assert AtPriority(es, p)[k + 1] == es[b];
    } else {
      assert AtPriority(es, p) == If(es[0].priority == p, es[0]) + rest;
      forall i, j | 0 <= i < j < |rest| ensures rank(rest[i]) < rank(rest[j]) {
        var shift := |If(es[0].priority == p, es[0])|;
        assert AtPriority(es, p)[i + shift] == rest[i] && AtPriority(es, p)[j + shift] == rest[j];
      }
      AtPriorityKeepsOrder(es[1..], rank, a - 1, b - 1);
    }
  }

  lemma JoinedOrder(a: seq<Entry>, b: seq<Entry>, whole: seq<Entry>, rank: Entry -> int)
    requires whole == a + b && Increasing(whole, rank)
    ensures Increasing(a, rank)
    ensures forall d, e | d in a && e in b :: rank(d) < rank(e)
  {
    forall d, e | d in a && e in b ensures rank(d) < rank(e) {
      var i :| 0 <= i < |a| && a[i] == d;
      var j :| 0 <= j < |b| && b[j] == e;
      assert whole[i] == d && whole[|a| + j] == e;
    }
    forall i, j | 0 <= i < j < |a| ensures rank(a[i]) < rank(a[j]) {
      assert whole[i] == a[i] && whole[j] == a[j];
    }
  }

  lemma ChosenOrder(s: State, r: nat, raced: set<int>, strategy: int -> QueueStrategy, p: int)
    requires Selects(s, r, raced, strategy)
    ensures var sel := Chosen(s, r, raced);
      && Increasing(AtPriority(sel.notified, p), ByRank(s.futs, strategy))
      && forall d, e | d in AtPriority(sel.notified, p) && e in Live(At(sel.queues, p)) ::
           ByRank(s.futs, strategy)(d) < ByRank(s.futs, strategy)(e)
  {
    hide Select, Flatten, Structure;
    var v, sel := View(s.futs, s.queues, raced), Chosen(s, r, raced);
    ViewIsOrderly(s, raced, strategy);
    SelectTakesPrefix(v, s.heap, s.releases[r].rem, p);
    LiveIncreasing(At(v, p), ByRank(s.futs, strategy));
    JoinedOrder(AtPriority(sel.notified, p), Live(At(sel.queues, p)), Live(At(v, p)), ByRank(s.futs, strategy));
  }

  /** `i` comes before `j` in the order that their priority promises. */
  ghost predicate Before(s: State, strategy: int -> QueueStrategy, i: int, j: int) {
    && 0 <= i < |s.futs| && 0 <= j < |s.futs|
    && if strategy(s.futs[i].priority) == Fifo then s.futs[i].arrival < s.futs[j].arrival
       else s.futs[i].arrival > s.futs[j].arrival
  }

  /** A selection that serves `i` and leaves `j` of the same priority waiting serves the one that comes first. */
  lemma ServedComesFirst(s: State, r: nat, raced: set<int>, strategy: int -> QueueStrategy, i: int, j: int)
    requires Selects(s, r, raced, strategy)
    requires 0 <= i < |s.futs| && 0 <= j < |s.futs| && s.futs[i].priority == s.futs[j].priority
    requires Served(s, r, raced, i) && s.futs[j].handle == Some(Waiting) && !Served(s, r, raced, j)
    ensures Before(s, strategy, i, j)
  {
    hide Select, Flatten;
    var sel := Chosen(s, r, raced);
    var d := NamedEntry(sel.notified, i);
    ChosenFates(s, r, raced, strategy, d);
    AtPriorityMember(sel.notified, d);
    assert Slot(s, d.priority, i) && Stage(s, j);
    var e := EntryOf(s.futs, j, raced);
    ChosenFates(s, r, raced, strategy, e);
    EntryNames(sel.notified, e);
    LiveOrDead(At(sel.queues, e.priority));
    ChosenOrder(s, r, raced, strategy, d.priority);
    assert ByRank(s.futs, strategy)(d) < ByRank(s.futs, strategy)(e);
  }

  /** The step turns `i` from waiting into notified. */
  ghost predicate Notifies(s: State, s': State, i: int) {
    0 <= i < |s.futs| == |s'.futs| && s.futs[i].handle == Some(Waiting) && s'.futs[i].handle == Some(Notified)
  }

  /** The step leaves `j` waiting. */
  ghost predicate Passes(s: State, s': State, j: int) {
    0 <= j < |s.futs| == |s'.futs| && s.futs[j].handle == Some(Waiting) && s'.futs[j].handle == Some(Waiting)
  }

  lemma PollsNotifyNobody(s: State, a: PollAction, strategy: int -> QueueStrategy, i: int)
    requires CanPoll(s, a)
    ensures !Notifies(s, Poll(s, a, strategy), i)
  {
    hide At;
  }

  lemma OnlySelectionsNotify(s: State, a: Action, strategy: int -> QueueStrategy, i: int)
    requires Enabled(s, a) && Notifies(s, Apply(s, a, strategy), i)
    ensures a.Releaser? && a.release.ReleaseSelect? && Flatten(s.queues) != []
  {
    hide Flatten, NotifyAll, Select, Poll;
    if a.Acquirer? { PollsNotifyNobody(s, a.poll, strategy, i); }
  }

  /**
   Whatever step of whatever run notifies `i` and leaves `j` of the same priority waiting, `i` comes first: a FIFO
   waiter is never overtaken, and a LIFO waiter is served only when no younger one waits.
   */
  lemma NobodyOvertaken(run: seq<State>, actions: seq<Action>, permits: nat, strategy: int -> QueueStrategy,
                        k: nat, i: int, j: int)
    requires IsRun(run, actions, permits, strategy) && k < |actions|
    requires Notifies(run[k], run[k + 1], i) && Passes(run[k], run[k + 1], j)
    requires run[k].futs[i].priority == run[k].futs[j].priority
    ensures Before(run[k], strategy, i, j)
  {
    hide Structure, Flatten, Select, NotifyAll, Names;
    var s, a := run[k], actions[k];
    RunIsSound(run, actions, permits, strategy, k);
    OnlySelectionsNotify(s, a, strategy, i);
    var r, raced := a.release.r, a.release.raced;
    SelectFate(s, r, raced, strategy, i);
    SelectFate(s, r, raced, strategy, j);
    ServedComesFirst(s, r, raced, strategy, i, j);
  }

  /** Those notified of one priority by one selection are notified in the promised order. */
  lemma NotifiedInOrder(s: State, r: nat, raced: set<int>, strategy: int -> QueueStrategy, a: nat, b: nat)
    requires Selects(s, r, raced, strategy) && a < b < |Chosen(s, r, raced).notified|
    requires Chosen(s, r, raced).notified[a].priority == Chosen(s, r, raced).notified[b].priority
    ensures var notified := Chosen(s, r, raced).notified; Before(s, strategy, notified[a].id, notified[b].id)
  {
    hide Select, Flatten;
    var notified := Chosen(s, r, raced).notified;
    ChosenFates(s, r, raced, strategy, notified[a]);
    ChosenFates(s, r, raced, strategy, notified[b]);
    assert Slot(s, notified[a].priority, notified[a].id) && Slot(s, notified[b].priority, notified[b].id);
    ChosenOrder(s, r, raced, strategy, notified[a].priority);
    AtPriorityKeepsOrder(notified, ByRank(s.futs, strategy), a, b);
  }

  // Across priorities.

  /** Every queued future needs `k` permits. */
  ghost predicate EqualDemands(s: State, k: nat) {
    forall p, i | i in At(s.queues, p) && 0 <= i < |s.futs| :: s.futs[i].needs == k
  }

  lemma EqualIsModest(q: seq<Entry>, k: nat)
    requires forall e | e in q :: e.needs == k
    ensures Modest(q)
  {
    forall i | 0 <= i < |q| && q[i].status == Cancelled && Live(q[i..]) != [] ensures q[i].needs <= Live(q[i..])[0].needs {
      LiveOrDead(q[i..]);
      assert Live(q[i..])[0] in q[i..];
    }
  }

  lemma {:induction false} NeedsBefore(es: seq<Entry>, m: nat)
    requires m < |es|
    ensures Needs(es[..m]) + es[m].needs <= Needs(es)
  {
    if m > 0 {
      NeedsBefore(es[1..], m - 1);
      assert es[..m][1..] == es[1..][..m - 1];
    }
  }

  lemma ChosenNeverBypasses(s: State, r: nat, raced: set<int>, strategy: int -> QueueStrategy, k: nat)
    requires Selects(s, r, raced, strategy) && EqualDemands(s, k)
    ensures NoBypass(Chosen(s, r, raced), s.releases[r].rem)
  {
    hide Select, Flatten, Structure, NoBypass, Modest;
    var v := View(s.futs, s.queues, raced);
    ViewIsOrderly(s, raced, strategy);
    forall p ensures Modest(At(v, p)) {
      ViewAt(s, raced, p);
      forall e: Entry | e in At(v, p) ensures e.needs == k {
        var m :| 0 <= m < |At(v, p)| && At(v, p)[m] == e;
        assert At(s.queues, p)[m] in At(s.queues, p);
      }
      EqualIsModest(At(v, p), k);
    }
    SelectNeverBypasses(v, s.heap, s.releases[r].rem);
  }

  /** With equal demands, a selection that serves `i` leaves nobody waiting above it. */
  lemma ServedFromTheTop(s: State, r: nat, raced: set<int>, strategy: int -> QueueStrategy, k: nat, m: nat, x: int)
    requires Selects(s, r, raced, strategy) && EqualDemands(s, k)
    requires m < |Chosen(s, r, raced).notified| && x > Chosen(s, r, raced).notified[m].priority
    ensures At(Chosen(s, r, raced).queues, x) == []
  {
    hide Select, Flatten, Structure;
    var sel := Chosen(s, r, raced);
    ChosenNeverBypasses(s, r, raced, strategy, k);
    assert BlockedAbove(sel, s.releases[r].rem, m, x);
    SelectWithinLimits(View(s.futs, s.queues, raced), s.heap, s.releases[r].rem);
    NeedsBefore(sel.notified, m);
    ChosenFates(s, r, raced, strategy, sel.notified[m]);
    if At(sel.queues, x) != [] {
      ChosenQueues(s, r, raced, strategy, x);
      ChosenFates(s, r, raced, strategy, At(sel.queues, x)[0]);
    }
  }

  /** While all that queue need the same, no step of any run notifies somebody and passes one who waits at a higher priority. */
  lemma HigherComesFirst(run: seq<State>, actions: seq<Action>, permits: nat, strategy: int -> QueueStrategy,
                         k: nat, i: int, j: int, demand: nat)
    requires IsRun(run, actions, permits, strategy) && k < |actions| && EqualDemands(run[k], demand)
    requires Notifies(run[k], run[k + 1], i) && Passes(run[k], run[k + 1], j)
    ensures run[k].futs[j].priority <= run[k].futs[i].priority
  {
    hide Structure, Flatten, Select, NotifyAll, Names, EqualDemands;
    var s, a := run[k], actions[k];
    RunIsSound(run, actions, permits, strategy, k);
    OnlySelectionsNotify(s, a, strategy, i);
    var r, raced := a.release.r, a.release.raced;
    var sel := Chosen(s, r, raced);
    SelectFate(s, r, raced, strategy, i);
    SelectFate(s, r, raced, strategy, j);
    StructureStage(s, j, strategy);
    var e := NamedEntry(sel.notified, i);
    ChosenFates(s, r, raced, strategy, e);
    var m :| 0 <= m < |sel.notified| && sel.notified[m] == e;
    if s.futs[j].priority > e.priority {
      ServedFromTheTop(s, r, raced, strategy, demand, m, s.futs[j].priority);
    }
  }
}
