/** Which notified futures are woken in the interleaved semaphore. */
module ProtocolWaking {
  import opened Basics
  import opened Config
  import opened Selection
  import opened Protocol
  import opened ProtocolStructure
  import opened ProtocolSelection
  import opened ProtocolRuns

  ghost predicate Carries(r: Release, task: Task) {
    (r.Granting? || r.Waking?) && task in r.tasks
  }

  /** Some running release will wake `task`. */
  ghost predicate OnList(s: State, task: Task) {
    exists r :: 0 <= r < |s.releases| && Carries(s.releases[r], task)
  }

  /**
   A parked future has a waker stored while it waits; once it was notified and its waker taken, it is or will
   be woken.
   */
  ghost predicate Minded(s: State, i: int)
    requires 0 <= i < |s.futs|
  {
    var f := s.futs[i];
    && (f.waker.Some? ==> f.waker.value == i)
    && (f.pc == Parked && f.handle == Some(Waiting) ==> f.waker.Some?)
    && (f.pc == Parked && f.handle == Some(Notified) && f.waker.None? && f.needs > 0 && !s.closed ==>
          i in s.woken || OnList(s, i))
  }

  ghost predicate AllMinded(s: State) {
    forall i | 0 <= i < |s.futs| :: Minded(s, i)
  }

  lemma ListFrame(s: State, s': State, task: Task)
    requires s'.releases == s.releases
    ensures OnList(s', task) == OnList(s, task)
  {
  }

  lemma PolledIsMinded(s: State, a: PollAction, strategy: int -> QueueStrategy)
    requires CanPoll(s, a) && !a.NewFuture? && Minded(s, a.i) && Stage(s, a.i)
    ensures Minded(Poll(s, a, strategy), a.i)
  {
    hide OnList, At;
    ListFrame(s, Poll(s, a, strategy), a.i);
  }

  lemma OthersAreMinded(s: State, a: PollAction, strategy: int -> QueueStrategy, i: nat)
    requires CanPoll(s, a) && i < |Poll(s, a, strategy).futs|
    requires if i < |s.futs| then Minded(s, i) && !(!a.NewFuture? && a.i == i) else a.NewFuture?
    ensures Minded(Poll(s, a, strategy), i)
  {
    hide OnList, At;
    ListFrame(s, Poll(s, a, strategy), i);
  }

  lemma PollKeepsMinded(s: State, a: PollAction, strategy: int -> QueueStrategy)
    requires Structure(s, strategy) && CanPoll(s, a) && AllMinded(s)
    ensures AllMinded(Poll(s, a, strategy))
  {
    hide Minded, Structure;
    var s' := Poll(s, a, strategy);
    forall i | 0 <= i < |s'.futs| ensures Minded(s', i) {
      if !a.NewFuture? && a.i == i {
        StructureStage(s, i, strategy);
        PolledIsMinded(s, a, strategy);
      } else {
        OthersAreMinded(s, a, strategy, i);
      }
    }
  }

  /**
   Changing one release keeps every task somebody carries, if the changed release still carries its own or they
   were woken.
   */
  lemma ListUpdate(s: State, s': State, r: nat, task: Task)
    requires r < |s.releases| <= |s'.releases|
    requires forall x | 0 <= x < |s.releases| && x != r :: s'.releases[x] == s.releases[x]
    requires Carries(s.releases[r], task) ==> Carries(s'.releases[r], task) || task in s'.woken
    requires s.woken <= s'.woken
    ensures task in s.woken || OnList(s, task) ==> task in s'.woken || OnList(s', task)
  {
    if OnList(s, task) {
      var x :| 0 <= x < |s.releases| && Carries(s.releases[x], task);
      assert x != r ==> Carries(s'.releases[x], task);
    }
  }

  lemma {:induction false} TasksMember(es: seq<Entry>, e: Entry)
    requires e in es && Wakes(e)
    ensures e.waker.value in Tasks(es)
  {
    if es[0] != e { TasksMember(es[1..], e); }
  }

  lemma {:induction false} NeedsMember(es: seq<Entry>, e: Entry)
    requires e in es
    ensures Needs(es) >= e.needs
  {
    if es[0] != e { NeedsMember(es[1..], e); }
  }

  /** A parked future that a selection serves has its task collected, unless the selection grants no permits at all. */
  lemma ServedIsCollected(s: State, r: nat, raced: set<int>, strategy: int -> QueueStrategy, i: int)
    requires Selects(s, r, raced, strategy) && 0 <= i < |s.futs| && Minded(s, i)
    requires Served(s, r, raced, i) && i !in raced && s.futs[i].pc == Parked
    requires Needs(Chosen(s, r, raced).notified) > 0
    ensures OnList(SelectStep(s, r, raced), i)
  {
    hide Select, Flatten, NotifyAll, Structure, Needs, Tasks;
    var notified := Chosen(s, r, raced).notified;
    var e := NamedEntry(notified, i);
    ChosenFates(s, r, raced, strategy, e);
    TasksMember(notified, e);
    assert Carries(SelectStep(s, r, raced).releases[r], i);
  }

  lemma ServedNeeds(s: State, r: nat, raced: set<int>, strategy: int -> QueueStrategy, i: int)
    requires Selects(s, r, raced, strategy) && 0 <= i < |s.futs| && Served(s, r, raced, i)
    ensures Needs(Chosen(s, r, raced).notified) >= s.futs[i].needs
  {
    hide Select, Flatten, Structure, Needs;
    var notified := Chosen(s, r, raced).notified;
    var e := NamedEntry(notified, i);
    ChosenFates(s, r, raced, strategy, e);
    NeedsMember(notified, e);
  }

  lemma SelectKeepsMinded(s: State, r: nat, raced: set<int>, strategy: int -> QueueStrategy)
    requires Structure(s, strategy) && CanRelease(s, ReleaseSelect(r, raced)) && AllMinded(s)
    ensures AllMinded(SelectStep(s, r, raced))
  {
    hide Select, Flatten, NotifyAll, Structure, OnList, Needs, Tasks, Names;
    var s' := SelectStep(s, r, raced);
    forall i | 0 <= i < |s'.futs| ensures Minded(s', i) {
      assert Minded(s, i);
      ListUpdate(s, s', r, i);
      if Flatten(s.queues) != [] {
        SelectFate(s, r, raced, strategy, i);
        if Served(s, r, raced, i) && i !in raced && s.futs[i].pc == Parked && s.futs[i].needs > 0 {
          ServedNeeds(s, r, raced, strategy, i);
          ServedIsCollected(s, r, raced, strategy, i);
        }
      }
    }
  }

  lemma ReleaseKeepsMinded(s: State, a: ReleaseAction, strategy: int -> QueueStrategy)
    requires Structure(s, strategy) && CanRelease(s, a) && AllMinded(s)
    ensures AllMinded(ReleaseBy(s, a))
  {
    hide Structure, OnList, SelectStep;
    var s' := ReleaseBy(s, a);
    match a
    case ReleaseSelect(r, raced) => SelectKeepsMinded(s, r, raced, strategy);
    case AddPermits(_) => AppendKeepsMinded(s, s');
    case DropGuard(_) => AppendKeepsMinded(s, s');
    case _ =>
      forall i | 0 <= i < |s'.futs| ensures Minded(s', i) {
        assert Minded(s, i);
        if !s'.closed { ListUpdate(s, s', a.r, i); }
      }
  }

  lemma AppendKeepsMinded(s: State, s': State)
    requires AllMinded(s) && s'.futs == s.futs && s'.woken == s.woken && s'.closed == s.closed
    requires |s'.releases| == |s.releases| + 1 && forall x | 0 <= x < |s.releases| :: s'.releases[x] == s.releases[x]
    ensures AllMinded(s')
  {
    forall i | 0 <= i < |s'.futs| ensures Minded(s', i) {
      assert Minded(s, i);
      if OnList(s, i) {
        var x :| 0 <= x < |s.releases| && Carries(s.releases[x], i);
        assert Carries(s'.releases[x], i);
      }
    }
  }

  lemma HoldKeepsMinded(s: State, a: HolderAction)
    requires CanHold(s, a) && AllMinded(s)
    ensures AllMinded(Hold(s, a))
  {
    hide OnList;
    var s' := Hold(s, a);
    forall i | 0 <= i < |s'.futs| ensures Minded(s', i) {
      assert Minded(s, i);
      ListFrame(s, s', i);
    }
  }

  lemma CloseKeepsMinded(s: State, a: CloseAction, strategy: int -> QueueStrategy)
    requires Structure(s, strategy) && CanClose(s, a) && AllMinded(s)
    ensures AllMinded(Close(s, a))
  {
    hide OnList;
    var s' := Close(s, a);
    forall i | 0 <= i < |s'.futs| ensures Minded(s', i) {
      assert Minded(s, i);
    }
  }

  lemma StepKeepsMinded(s: State, a: Action, strategy: int -> QueueStrategy)
    requires Structure(s, strategy) && Enabled(s, a) && AllMinded(s)
    ensures AllMinded(Apply(s, a, strategy))
  {
    hide Structure, AllMinded, Poll, Hold, ReleaseBy, Close;
    match a
    case Acquirer(poll) => PollKeepsMinded(s, poll, strategy);
    case Holder(hold) => HoldKeepsMinded(s, hold);
    case Releaser(release) => ReleaseKeepsMinded(s, release, strategy);
    case Closer(close) => CloseKeepsMinded(s, close, strategy);
  }

  lemma {:induction false} RunIsMinded(run: seq<State>, actions: seq<Action>, permits: nat,
                                       strategy: int -> QueueStrategy, k: nat)
    requires IsRun(run, actions, permits, strategy) && k < |run|
    ensures AllMinded(run[k])
  {
    hide Structure, Apply, Enabled, AllMinded;
    if k == 0 {
      InitIsMinded(permits);
    } else {
      RunIsMinded(run, actions, permits, strategy, k - 1);
      RunIsSound(run, actions, permits, strategy, k - 1);
      StepKeepsMinded(run[k - 1], actions[k - 1], strategy);
    }
  }

  lemma InitIsMinded(permits: nat)
    ensures AllMinded(Init(permits))
  {
  }

  // Sleeping for good.

  /**
   Future `i` is parked, has been notified or cancelled, has not been woken since it was last polled, and no
   release will wake it.
   */
  ghost predicate Asleep(s: State, i: int) {
    && 0 <= i < |s.futs| && s.futs[i].pc == Parked && s.futs[i].handle != Some(Waiting)
    && i !in s.woken && !OnList(s, i)
  }

  /** Release `r` carries `task`, and no other release does. */
  ghost predicate OnlyCarrier(s: State, r: nat, task: Task) {
    r < |s.releases| && Carries(s.releases[r], task)
    && forall x | 0 <= x < |s.releases| && x != r :: !Carries(s.releases[x], task)
  }

  /**
   The three steps that lose a wake-up for `i`: storing the waker after the notification or the cancellation, the
   early return of the release that was about to wake it, and a selection that serves it but grants nobody a permit.
   */
  ghost predicate Loses(s: State, a: Action, i: int) {
    && 0 <= i < |s.futs| && i !in s.woken
    && match a
       case Acquirer(PollArm(j)) => j == i && s.futs[i].handle != Some(Waiting) && !OnList(s, i)
       case Releaser(ReleaseChecked(r)) =>
         s.closed && s.futs[i].pc == Parked && s.futs[i].handle != Some(Waiting) && OnlyCarrier(s, r, i)
       case Releaser(ReleaseSelect(r, raced)) => ServesForNothing(s, r, raced, i)
       case _ => false
  }

  ghost predicate ServesForNothing(s: State, r: nat, raced: set<int>, i: int)
    requires 0 <= i < |s.futs|
  {
    && CanRelease(s, ReleaseSelect(r, raced)) && Flatten(s.queues) != []
    && s.futs[i].pc == Parked && i !in raced && !OnList(s, i)
    && Served(s, r, raced, i) && Needs(Chosen(s, r, raced).notified) == 0
  }

  /** Only a poll of its own accord, or its drop, ends the sleep of `i`. */
  predicate Rouses(a: Action, i: int) {
    a.Acquirer? && ((a.poll.PollAgain? && a.poll.i == i) || (a.poll.DropFuture? && a.poll.i == i))
  }

  lemma PollSleeps(s: State, a: PollAction, strategy: int -> QueueStrategy, i: int)
    requires Structure(s, strategy) && CanPoll(s, a) && 0 <= i < |s.futs|
    ensures Asleep(Poll(s, a, strategy), i) <==>
      Loses(s, Acquirer(a), i) || (Asleep(s, i) && !Rouses(Acquirer(a), i))
  {
    hide OnList, Structure, At;
    StructureStage(s, i, strategy);
    ListFrame(s, Poll(s, a, strategy), i);
  }

  lemma CheckSleeps(s: State, r: nat, i: int)
    requires CanRelease(s, ReleaseChecked(r)) && 0 <= i < |s.futs|
    ensures Asleep(CheckStep(s, r), i) <==> Loses(s, Releaser(ReleaseChecked(r)), i) || Asleep(s, i)
  {
    var s' := CheckStep(s, r);
    forall x | 0 <= x < |s.releases|
      ensures Carries(s'.releases[x], i) <==> Carries(s.releases[x], i) && !(s.closed && x == r)
    {
    }
  }

  lemma ReleaseSleeps(s: State, a: ReleaseAction, i: int)
    requires CanRelease(s, a) && !a.ReleaseSelect? && !a.ReleaseChecked? && 0 <= i < |s.futs|
    ensures Asleep(ReleaseBy(s, a), i) <==> Asleep(s, i)
  {
    var s' := ReleaseBy(s, a);
    forall x | 0 <= x < |s.releases|
      ensures Carries(s'.releases[x], i) <==> Carries(s.releases[x], i) && !(a.ReleaseWake? && a.r == x)
    {
    }
    if OnList(s, i) {
      var x :| 0 <= x < |s.releases| && Carries(s.releases[x], i);
      assert Carries(s'.releases[x], i) || i in s'.woken;
    }
  }

  lemma {:induction false} TaskOwner(es: seq<Entry>, task: Task) returns (e: Entry)
    requires task in Tasks(es)
    ensures e in es && Wakes(e) && e.waker.value == task
  {
    if task in TaskOf(es[0]) {
      e := es[0];
    } else {
      e := TaskOwner(es[1..], task);
    }
  }

  /** A selection collects the task of nobody who was not waiting. */
  lemma CollectsOnlyWaiting(s: State, r: nat, raced: set<int>, strategy: int -> QueueStrategy, i: int)
    requires Selects(s, r, raced, strategy) && AllMinded(s)
    requires 0 <= i < |s.futs| && s.futs[i].handle != Some(Waiting)
    ensures i !in Tasks(Chosen(s, r, raced).notified)
  {
    hide Select, Flatten, Structure, Tasks, AllMinded;
    var notified := Chosen(s, r, raced).notified;
    if i in Tasks(notified) {
      var e := TaskOwner(notified, i);
      ChosenFates(s, r, raced, strategy, e);
      MindedAt(s, e.id);
    }
  }

  lemma MindedAt(s: State, i: int)
    requires AllMinded(s) && 0 <= i < |s.futs|
    ensures Minded(s, i)
  {
  }

  /** A selection leaves the lists alone as far as somebody who does not wait is concerned. */
  lemma SelectCarries(s: State, r: nat, raced: set<int>, strategy: int -> QueueStrategy, i: int)
    requires Structure(s, strategy) && CanRelease(s, ReleaseSelect(r, raced)) && AllMinded(s)
    requires 0 <= i < |s.futs| && s.futs[i].handle != Some(Waiting)
    ensures OnList(SelectStep(s, r, raced), i) <==> OnList(s, i)
  {
    hide Select, Flatten, NotifyAll, Structure, Needs, Tasks, AllMinded, View;
    var s' := SelectStep(s, r, raced);
    if Flatten(s.queues) != [] { CollectsOnlyWaiting(s, r, raced, strategy, i); }
    assert !Carries(s'.releases[r], i) && !Carries(s.releases[r], i);
    if OnList(s, i) {
      var x :| 0 <= x < |s.releases| && Carries(s.releases[x], i);
      assert Carries(s'.releases[x], i);
    }
    if OnList(s', i) {
      var x :| 0 <= x < |s'.releases| && Carries(s'.releases[x], i);
      assert Carries(s.releases[x], i);
    }
  }

  lemma NothingCollected(s: State, r: nat, raced: set<int>, i: int)
    requires CanRelease(s, ReleaseSelect(r, raced)) && Flatten(s.queues) != []
    requires Needs(Chosen(s, r, raced).notified) == 0
    ensures OnList(SelectStep(s, r, raced), i) <==> OnList(s, i)
  {
    hide Select, Flatten, NotifyAll, Tasks, View;
    var s' := SelectStep(s, r, raced);
    forall x | 0 <= x < |s.releases| ensures Carries(s'.releases[x], i) <==> Carries(s.releases[x], i) {}
  }

  lemma SelectSleeps(s: State, r: nat, raced: set<int>, strategy: int -> QueueStrategy, i: int)
    requires Structure(s, strategy) && CanRelease(s, ReleaseSelect(r, raced)) && AllMinded(s)
    requires 0 <= i < |s.futs|
    ensures Asleep(SelectStep(s, r, raced), i) <==> Loses(s, Releaser(ReleaseSelect(r, raced)), i) || Asleep(s, i)
  {
    hide Select, Flatten, NotifyAll, Structure, Needs, Tasks, Names, AllMinded, OnList;
    var s' := SelectStep(s, r, raced);
    MindedAt(s, i);
    if Flatten(s.queues) != [] {
      SelectFate(s, r, raced, strategy, i);
      if Served(s, r, raced, i) && i !in raced && s.futs[i].pc == Parked {
        if Needs(Chosen(s, r, raced).notified) > 0 {
          ServedIsCollected(s, r, raced, strategy, i);
        } else {
          NothingCollected(s, r, raced, i);
        }
      }
    }
    if s.futs[i].handle != Some(Waiting) { SelectCarries(s, r, raced, strategy, i); }
  }

  lemma CloseSleeps(s: State, a: CloseAction, strategy: int -> QueueStrategy, i: int)
    requires Structure(s, strategy) && CanClose(s, a) && AllMinded(s) && 0 <= i < |s.futs|
    ensures Asleep(Close(s, a), i) <==> Asleep(s, i)
  {
    hide OnList, AllMinded, Structure;
    ListFrame(s, Close(s, a), i);
    MindedAt(s, i);
    StructureStage(s, i, strategy);
    if a.Drain? { DrainWakes(s, i); }
  }

  /** A drain wakes those it cancels that have stored a waker, and nobody else. */
  lemma DrainWakes(s: State, i: int)
    requires 0 <= i < |s.futs| && CanClose(s, Drain)
    ensures i in Close(s, Drain).woken <==> (
        || i in s.woken
        || (s.futs[i].handle == Some(Waiting) && i in At(s.queues, s.futs[i].priority) && s.futs[i].waker.Some?))
  {
  }

  /**
   Who sleeps for good after a step: those that the step loses, and those that slept before and are neither polled
   nor dropped by it.
   */
  lemma StepSleeps(s: State, a: Action, strategy: int -> QueueStrategy, i: int)
    requires Structure(s, strategy) && AllMinded(s) && Enabled(s, a)
    requires 0 <= i < |s.futs|
    ensures Asleep(Apply(s, a, strategy), i) <==> Loses(s, a, i) || (Asleep(s, i) && !Rouses(a, i))
  {
    hide Asleep, Structure, AllMinded, Poll, ReleaseBy, Close, SelectStep, CheckStep;
    match a
    case Acquirer(poll) => PollSleeps(s, poll, strategy, i);
    case Holder(hold) => HoldSleeps(s, hold, i);
    case Releaser(release) =>
      match release {
        case ReleaseSelect(r, raced) => SelectIs(s, r, raced); SelectSleeps(s, r, raced, strategy, i);
        case ReleaseChecked(r) => CheckIs(s, r); CheckSleeps(s, r, i);
        case _ => ReleaseSleeps(s, release, i);
      }
    case Closer(close) => CloseSleeps(s, close, strategy, i);
  }

  lemma SelectIs(s: State, r: nat, raced: set<int>)
    requires CanRelease(s, ReleaseSelect(r, raced))
    ensures ReleaseBy(s, ReleaseSelect(r, raced)) == SelectStep(s, r, raced)
  {
  }

  lemma CheckIs(s: State, r: nat)
    requires CanRelease(s, ReleaseChecked(r))
    ensures ReleaseBy(s, ReleaseChecked(r)) == CheckStep(s, r)
  {
  }

  lemma HoldSleeps(s: State, a: HolderAction, i: int)
    requires CanHold(s, a) && 0 <= i < |s.futs|
    ensures Asleep(Hold(s, a), i) <==> Asleep(s, i)
  {
    hide OnList;
    ListFrame(s, Hold(s, a), i);
  }

  // Runs.

  /** Futures are only ever added, new ones fresh, and the demands of the others stay. */
  ghost predicate Grows(s: State, s': State) {
    && |s.futs| <= |s'.futs|
    && (forall i | 0 <= i < |s.futs| :: s'.futs[i].needs == s.futs[i].needs)
    && (forall i | |s.futs| <= i < |s'.futs| :: s'.futs[i].pc == Fresh)
  }

  lemma PollGrows(s: State, a: PollAction, strategy: int -> QueueStrategy)
    requires CanPoll(s, a)
    ensures Grows(s, Poll(s, a, strategy))
  {
    hide At;
  }

  lemma SelectGrows(s: State, r: nat, raced: set<int>)
    requires CanRelease(s, ReleaseSelect(r, raced))
    ensures Grows(s, SelectStep(s, r, raced))
  {
    hide Select, Flatten, NotifyAll, Names;
    if Flatten(s.queues) != [] {
      forall i | 0 <= i < |s.futs| ensures SelectStep(s, r, raced).futs[i].needs == s.futs[i].needs {
        NotifyAllAt(s.futs, Chosen(s, r, raced).notified, raced, i);
      }
    }
  }

  lemma StepGrows(s: State, a: Action, strategy: int -> QueueStrategy)
    requires Enabled(s, a)
    ensures Grows(s, Apply(s, a, strategy))
  {
    hide Poll, SelectStep, At;
    match a
    case Acquirer(poll) => PollGrows(s, poll, strategy);
    case Releaser(ReleaseSelect(r, raced)) => SelectGrows(s, r, raced);
    case _ =>
  }

  lemma {:induction false} RunGrows(run: seq<State>, actions: seq<Action>, permits: nat, strategy: int -> QueueStrategy,
                                    j: nat, k: nat)
    requires IsRun(run, actions, permits, strategy) && j <= k < |run|
    ensures |run[j].futs| <= |run[k].futs|
    decreases k
  {
    hide Apply, Enabled;
    if j < k {
      RunGrows(run, actions, permits, strategy, j, k - 1);
      StepGrows(run[k - 1], actions[k - 1], strategy);
    }
  }

  /** Step `j` lost the wake-up of `i`, and up to state `k` the future was neither polled nor dropped again. */
  ghost predicate LostAt(run: seq<State>, actions: seq<Action>, i: int, j: nat, k: nat)
    requires j < k < |run| && k <= |actions|
  {
    Loses(run[j], actions[j], i) && forall m | j < m < k :: !Rouses(actions[m], i)
  }

  ghost predicate WasLost(run: seq<State>, actions: seq<Action>, i: int, k: nat)
    requires k < |run| && k <= |actions|
  {
    exists j :: 0 <= j < k && LostAt(run, actions, i, j, k)
  }

  lemma LostLonger(run: seq<State>, actions: seq<Action>, i: int, k: nat)
    requires k + 1 < |run| && k + 1 <= |actions|
    ensures WasLost(run, actions, i, k + 1) <==>
      Loses(run[k], actions[k], i) || (WasLost(run, actions, i, k) && !Rouses(actions[k], i))
  {
    hide Loses, Rouses;
    if Loses(run[k], actions[k], i) { assert LostAt(run, actions, i, k, k + 1); }
    if WasLost(run, actions, i, k) && !Rouses(actions[k], i) {
      var j :| 0 <= j < k && LostAt(run, actions, i, j, k);
      assert LostAt(run, actions, i, j, k + 1);
    }
    if WasLost(run, actions, i, k + 1) {
      var j :| 0 <= j < k + 1 && LostAt(run, actions, i, j, k + 1);
      if j < k { assert LostAt(run, actions, i, j, k); }
    }
  }

  /**
   In every run, closed or not, a future sleeps for good if and only if some step lost its wake-up and nothing
   roused it since.
   */
  lemma {:induction false} RunSleepsIff(run: seq<State>, actions: seq<Action>, permits: nat,
                                        strategy: int -> QueueStrategy, k: nat, i: int)
    requires IsRun(run, actions, permits, strategy) && k < |run|
    requires 0 <= i < |run[k].futs|
    ensures Asleep(run[k], i) <==> WasLost(run, actions, i, k)
    decreases k
  {
    hide Apply, Enabled, Asleep, WasLost, Structure, AllMinded;
    if k > 0 {
      RunIsSound(run, actions, permits, strategy, k - 1);
      RunIsMinded(run, actions, permits, strategy, k - 1);
      StepGrows(run[k - 1], actions[k - 1], strategy);
      LostLonger(run, actions, i, k - 1);
      if i < |run[k - 1].futs| {
        RunSleepsIff(run, actions, permits, strategy, k - 1, i);
        StepSleeps(run[k - 1], actions[k - 1], strategy, i);
      } else {
        NewIsAwake(run[k - 1], actions[k - 1], strategy, i);
        NewWasNotLost(run, actions, permits, strategy, k - 1, i);
      }
    }
  }

  lemma NewIsAwake(s: State, a: Action, strategy: int -> QueueStrategy, i: int)
    requires Enabled(s, a) && |s.futs| <= i < |Apply(s, a, strategy).futs|
    ensures !Asleep(Apply(s, a, strategy), i) && !Loses(s, a, i)
  {
    hide Apply;
    StepGrows(s, a, strategy);
  }

  lemma NewWasNotLost(run: seq<State>, actions: seq<Action>, permits: nat, strategy: int -> QueueStrategy, k: nat, i: int)
    requires IsRun(run, actions, permits, strategy) && k < |run| && i >= |run[k].futs|
    ensures !WasLost(run, actions, i, k)
  {
    hide Apply, Enabled, Rouses;
    forall j | 0 <= j < k ensures !LostAt(run, actions, i, j, k) {
      RunGrows(run, actions, permits, strategy, j, k);
    }
  }

  /**
   In every state of every run in which no release is between its selection and its wake-up, a parked future that was
   notified or cancelled has been woken since it was last polled if and only if no step lost its wake-up. Before a
   close a lost wake-up of a notified future that needs permits shows in its waker, stored after the notification.
   */
  lemma RunWakesNotified(run: seq<State>, actions: seq<Action>, permits: nat, strategy: int -> QueueStrategy,
                         k: nat, i: nat)
    requires IsRun(run, actions, permits, strategy) && k < |run| && i < |run[k].futs|
    requires forall r | 0 <= r < |run[k].releases| :: !run[k].releases[r].Granting? && !run[k].releases[r].Waking?
    requires run[k].futs[i].pc == Parked && run[k].futs[i].handle != Some(Waiting)
    ensures i in run[k].woken <==> !WasLost(run, actions, i, k)
    ensures !run[k].closed && run[k].futs[i].handle == Some(Notified) && run[k].futs[i].needs > 0 ==>
      i in run[k].woken || run[k].futs[i].waker == Some(i)
  {
    hide WasLost, IsRun;
    RunIsMinded(run, actions, permits, strategy, k);
    RunIsSound(run, actions, permits, strategy, k);
    RunSleepsIff(run, actions, permits, strategy, k, i);
    assert Minded(run[k], i);
  }
}
