/** Which steps lose permits for good, and how many. */
module ProtocolLosses {
  import opened Basics
  import opened Config
  import opened Selection
  import opened Protocol
  import opened ProtocolStructure
  import opened ProtocolSelection
  import opened ProtocolRuns

  /** Permits that a step puts out of everybody's reach. */
  ghost function StrandedBy(s: State, a: Action): nat
    requires Enabled(s, a)
  {
    match a
    case Acquirer(PollClaim(i)) => if s.closed then s.futs[i].needs else 0
    case Acquirer(DropFuture(i)) => if s.futs[i].handle == Some(Notified) && s.futs[i].pc == Parked then s.futs[i].needs else 0
    case Holder(MergeGuards(g, h)) =>
      s.guards[g].permits + s.guards[h].permits - Merged(s.guards[g], s.guards[h]).permits
    case Releaser(ReleaseSelect(r, raced)) =>
      if Flatten(s.queues) == [] then 0 else RacedNeeds(Chosen(s, r, raced).notified, raced)
    case Releaser(ReleaseChecked(r)) => if s.closed then s.releases[r].rem else 0
    case _ => 0
  }

  /** Permits lost by the first `k` steps. */
  ghost function Stranded(run: seq<State>, actions: seq<Action>, k: nat): nat
    requires k <= |run| && k <= |actions| && forall j | 0 <= j < k :: Enabled(run[j], actions[j])
  {
    if k == 0 then 0 else Stranded(run, actions, k - 1) + StrandedBy(run[k - 1], actions[k - 1])
  }

  lemma ReleaseStrands(s: State, a: ReleaseAction)
    requires CanRelease(s, a)
    ensures ReleaseBy(s, a).ledger.stranded == s.ledger.stranded + StrandedBy(s, Releaser(a))
  {
    hide Select, NotifyAll, Flatten, Needs, Tasks, RacedNeeds, AllReadable;
  }

  lemma PollStrands(s: State, a: PollAction, strategy: int -> QueueStrategy)
    requires CanPoll(s, a)
    ensures Poll(s, a, strategy).ledger.stranded == s.ledger.stranded + StrandedBy(s, Acquirer(a))
  {
    hide At;
  }

  lemma StepStrands(s: State, a: Action, strategy: int -> QueueStrategy)
    requires Enabled(s, a)
    ensures Apply(s, a, strategy).ledger.stranded == s.ledger.stranded + StrandedBy(s, a)
  {
    hide Poll, ReleaseBy, CancelQueued, Sleepers, StrandedBy;
    match a
    case Acquirer(poll) => PollStrands(s, poll, strategy);
    case Holder(hold) => HoldStrands(s, hold);
    case Releaser(release) => ReleaseStrands(s, release);
    case Closer(close) => CloseStrands(s, close);
  }

  lemma HoldStrands(s: State, a: HolderAction)
    requires CanHold(s, a)
    ensures Hold(s, a).ledger.stranded == s.ledger.stranded + StrandedBy(s, Holder(a))
  {
  }

  lemma CloseStrands(s: State, a: CloseAction)
    requires CanClose(s, a)
    ensures Close(s, a).ledger.stranded == s.ledger.stranded + StrandedBy(s, Closer(a))
  {
  }

  /** In every run the permits lost are those that its steps strand. */
  lemma {:induction false} RunStrands(run: seq<State>, actions: seq<Action>, permits: nat,
                                      strategy: int -> QueueStrategy, k: nat)
    requires IsRun(run, actions, permits, strategy) && k < |run|
    ensures run[k].ledger.stranded == Stranded(run, actions, k)
  {
    hide Apply, Enabled, StrandedBy;
    if k > 0 {
      RunStrands(run, actions, permits, strategy, k - 1);
      StepStrands(run[k - 1], actions[k - 1], strategy);
    }
  }

  /** Permits that a step forgets. */
  ghost function ForgottenBy(s: State, a: Action): nat
    requires Enabled(s, a)
  {
    match a
    case Holder(ForgetGuard(g)) => s.guards[g].permits
    case Holder(ForgetPermits(n)) => if s.count <= n then s.count else n
    case _ => 0
  }

  /** Permits forgotten by the first `k` steps. */
  ghost function Forgotten(run: seq<State>, actions: seq<Action>, k: nat): nat
    requires k <= |run| && k <= |actions| && forall j | 0 <= j < k :: Enabled(run[j], actions[j])
  {
    if k == 0 then 0 else Forgotten(run, actions, k - 1) + ForgottenBy(run[k - 1], actions[k - 1])
  }

  lemma StepForgets(s: State, a: Action, strategy: int -> QueueStrategy)
    requires Enabled(s, a)
    ensures Apply(s, a, strategy).ledger.forgotten == s.ledger.forgotten + ForgottenBy(s, a)
  {
    hide Poll, ReleaseBy, CancelQueued, Sleepers;
    match a
    case Acquirer(poll) => PollForgetsNothing(s, poll, strategy);
    case Releaser(release) => ReleaseForgetsNothing(s, release);
    case _ =>
  }

  lemma PollForgetsNothing(s: State, a: PollAction, strategy: int -> QueueStrategy)
    requires CanPoll(s, a)
    ensures Poll(s, a, strategy).ledger.forgotten == s.ledger.forgotten
  {
    hide At;
  }

  lemma ReleaseForgetsNothing(s: State, a: ReleaseAction)
    requires CanRelease(s, a)
    ensures ReleaseBy(s, a).ledger.forgotten == s.ledger.forgotten
  {
    hide Select, NotifyAll, Flatten, Needs, Tasks, RacedNeeds, AllReadable;
  }

  /** In every run the permits forgotten are those that its steps forget. */
  lemma {:induction false} RunForgets(run: seq<State>, actions: seq<Action>, permits: nat,
                                      strategy: int -> QueueStrategy, k: nat)
    requires IsRun(run, actions, permits, strategy) && k < |run|
    ensures run[k].ledger.forgotten == Forgotten(run, actions, k)
  {
    hide Apply, Enabled, ForgottenBy;
    if k > 0 {
      RunForgets(run, actions, permits, strategy, k - 1);
      StepForgets(run[k - 1], actions[k - 1], strategy);
    }
  }

  // On an open semaphore.

  /**
   The three steps that lose permits on an open semaphore: the drop of a notified future, a selection that serves a
   future whose drop races with it, and a merge of guards that does not fit 32 bits.
   */
  ghost predicate LosesOpen(s: State, a: Action) {
    match a
    case Acquirer(DropFuture(i)) =>
      i < |s.futs| && s.futs[i].handle == Some(Notified) && s.futs[i].pc == Parked && s.futs[i].needs > 0
    case Holder(MergeGuards(g, h)) =>
      g < |s.guards| && h < |s.guards| && s.guards[g].permits + s.guards[h].permits >= U32_LIMIT
    case Releaser(ReleaseSelect(r, raced)) =>
      CanRelease(s, ReleaseSelect(r, raced)) && Flatten(s.queues) != []
      && exists i :: i in raced && 0 <= i < |s.futs| && Served(s, r, raced, i) && s.futs[i].needs > 0
    case _ => false
  }

  lemma {:induction false} RacedNeedsIff(es: seq<Entry>, raced: set<int>)
    ensures RacedNeeds(es, raced) > 0 <==> exists k :: 0 <= k < |es| && es[k].id in raced && es[k].needs > 0
  {
    if es != [] {
      RacedNeedsIff(es[1..], raced);
      if k :| 0 <= k < |es[1..]| && es[1..][k].id in raced && es[1..][k].needs > 0 {
        assert es[k + 1].id in raced && es[k + 1].needs > 0;
      }
      if k :| 0 <= k < |es| && es[k].id in raced && es[k].needs > 0 {
        if k > 0 { assert es[1..][k - 1].id in raced && es[1..][k - 1].needs > 0; }
      }
    }
  }

  lemma SelectLosesIff(s: State, r: nat, raced: set<int>, strategy: int -> QueueStrategy)
    requires Structure(s, strategy) && CanRelease(s, ReleaseSelect(r, raced))
    ensures StrandedBy(s, Releaser(ReleaseSelect(r, raced))) > 0 <==> LosesOpen(s, Releaser(ReleaseSelect(r, raced)))
  {
    hide Select, Flatten, RacedNeeds, Structure;
    if Flatten(s.queues) != [] {
      var es := Chosen(s, r, raced).notified;
      RacedNeedsIff(es, raced);
      forall e | e in es ensures e.id < |s.futs| && s.futs[e.id].needs == e.needs {
        ChosenFates(s, r, raced, strategy, e);
      }
      if k :| 0 <= k < |es| && es[k].id in raced && es[k].needs > 0 {
        assert es[k] in es;
        EntryNames(es, es[k]);
      }
      if i :| i in raced && 0 <= i < |s.futs| && Served(s, r, raced, i) && s.futs[i].needs > 0 {
        var e := NamedEntry(es, i);
        var k :| 0 <= k < |es| && es[k] == e;
        assert es[k].id in raced && es[k].needs > 0;
      }
    }
  }

  /** A step on an open semaphore loses permits if and only if it is one of the three. */
  lemma StepLosesIff(s: State, a: Action, strategy: int -> QueueStrategy)
    requires Structure(s, strategy) && Enabled(s, a) && !s.closed
    ensures StrandedBy(s, a) > 0 <==> LosesOpen(s, a)
  {
    if a.Releaser? && a.release.ReleaseSelect? {
      SelectLosesIff(s, a.release.r, a.release.raced, strategy);
    } else {
      hide Structure, Select, Flatten, At;
    }
  }

  lemma StaysOpenBefore(run: seq<State>, actions: seq<Action>, permits: nat, strategy: int -> QueueStrategy, j: nat, k: nat)
    requires IsRun(run, actions, permits, strategy) && j <= k < |run| && !run[k].closed
    ensures !run[j].closed
  {
    hide IsRun;
    if run[j].closed { NothingAcquiredAfterClose(run, actions, permits, strategy, j, k); }
  }

  lemma {:induction false} OpenStrandedIff(run: seq<State>, actions: seq<Action>, permits: nat,
                                           strategy: int -> QueueStrategy, k: nat)
    requires IsRun(run, actions, permits, strategy) && k < |run| && !run[k].closed
    ensures Stranded(run, actions, k) == 0 <==> forall j | 0 <= j < k :: !LosesOpen(run[j], actions[j])
  {
    hide Apply, Enabled, StrandedBy, LosesOpen, Structure;
    if k > 0 {
      StaysOpenBefore(run, actions, permits, strategy, k - 1, k);
      OpenStrandedIff(run, actions, permits, strategy, k - 1);
      RunIsSound(run, actions, permits, strategy, k - 1);
      StepLosesIff(run[k - 1], actions[k - 1], strategy);
    }
  }

  /**
   While the semaphore is open, the permits that are free, held, reserved, in flight or forgotten are all there ever
   were if and only if no step of the run was one of the three.
   */
  lemma OpenRunLosesIff(run: seq<State>, actions: seq<Action>, permits: nat, strategy: int -> QueueStrategy, k: nat)
    requires IsRun(run, actions, permits, strategy) && k < |run| && !run[k].closed
    ensures AllPermits(run[k]) - run[k].ledger.stranded == permits + Added(actions[..k])
      <==> forall j | 0 <= j < k :: !LosesOpen(run[j], actions[j])
  {
    hide Apply, Enabled, LosesOpen, AllPermits, Stranded;
    RunConserves(run, actions, permits, strategy, k);
    RunStrands(run, actions, permits, strategy, k);
    OpenStrandedIff(run, actions, permits, strategy, k);
  }
}
