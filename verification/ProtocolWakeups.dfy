/** When the interleaved semaphore keeps a free permit although somebody waits. */
module ProtocolWakeups {
  import opened Basics
  import opened Config
  import opened Selection
  import opened Protocol
  import opened ProtocolSelection
  import opened ProtocolAccounting

  ghost predicate SomeoneWaits(s: State) {
    exists i :: 0 <= i < |s.futs| && s.futs[i].handle == Some(Waiting)
  }

  /** Open, with a free permit and a waiting future. */
  ghost predicate Starves(s: State) {
    !s.closed && s.count > 0 && SomeoneWaits(s)
  }

  /** The two steps that bring a free permit and a waiting future together. */
  ghost predicate Strands(s: State, a: Action) {
    && !s.closed
    && match a
       case Acquirer(PollPush(i)) => s.count > 0
       case Releaser(ReleaseAdd(r)) => r < |s.releases| && s.releases[r].Adding? && s.releases[r].rem > 0 && SomeoneWaits(s)
       case _ => false
  }

  lemma PollStarves(s: State, a: PollAction, strategy: int -> QueueStrategy)
    requires CanPoll(s, a) && !Starves(s)
    ensures Starves(Poll(s, a, strategy)) <==> Strands(s, Acquirer(a))
  {
    var s' := Poll(s, a, strategy);
    if a.PollPush? {
      assert s'.futs[a.i].handle == Some(Waiting);
    } else if SomeoneWaits(s') {
      var i :| 0 <= i < |s'.futs| && s'.futs[i].handle == Some(Waiting);
      assert i < |s.futs| && s.futs[i].handle == Some(Waiting);
    }
  }

  lemma SelectStarves(s: State, r: nat, raced: set<int>)
    requires CanRelease(s, ReleaseSelect(r, raced)) && !Starves(s)
    ensures !Starves(SelectStep(s, r, raced))
  {
    hide Select, Flatten, NotifyAll, Names;
    var s' := SelectStep(s, r, raced);
    if SomeoneWaits(s') && Flatten(s.queues) != [] {
      var i :| 0 <= i < |s'.futs| && s'.futs[i].handle == Some(Waiting);
      NotifyAllAt(s.futs, Chosen(s, r, raced).notified, raced, i);
      assert s.futs[i].handle == Some(Waiting);
    }
  }

  lemma ReleaseStarves(s: State, a: ReleaseAction)
    requires CanRelease(s, a) && !Starves(s)
    ensures Starves(ReleaseBy(s, a)) <==> Strands(s, Releaser(a))
  {
    hide SelectStep, SomeoneWaits;
    if a.ReleaseSelect? {
      SelectStarves(s, a.r, a.raced);
    } else {
      WaitingFrame(s, ReleaseBy(s, a));
    }
  }

  lemma WaitingFrame(s: State, s': State)
    requires s'.futs == s.futs
    ensures SomeoneWaits(s') == SomeoneWaits(s)
  {
  }

  lemma CloseStarves(s: State, a: CloseAction)
    requires CanClose(s, a) && !Starves(s)
    ensures !Starves(Close(s, a))
  {
    var s' := Close(s, a);
    if SomeoneWaits(s') {
      var i :| 0 <= i < |s'.futs| && s'.futs[i].handle == Some(Waiting);
      assert s.futs[i].handle == Some(Waiting);
    }
  }

  /**
   A free permit and a waiting future come together exactly when a future pushes itself without looking at the
   count again, or a release adds its leftover to the word after it let go of the lock.
   */
  lemma StepStarves(s: State, a: Action, strategy: int -> QueueStrategy)
    requires Enabled(s, a) && !Starves(s)
    ensures Starves(Apply(s, a, strategy)) <==> Strands(s, a)
  {
    hide SomeoneWaits, Poll, ReleaseBy, Close;
    match a
    case Acquirer(poll) => PollStarves(s, poll, strategy);
    case Holder(hold) => WaitingFrame(s, Hold(s, hold));
    case Releaser(release) => ReleaseStarves(s, release);
    case Closer(close) => CloseStarves(s, close);
  }

  /** Some state up to `k` starves. */
  ghost predicate EverStarves(run: seq<State>, k: nat)
    requires k < |run|
  {
    Starves(run[k]) || (k > 0 && EverStarves(run, k - 1))
  }

  /** Some step before `k` is one of the two. */
  ghost predicate EverStrands(run: seq<State>, actions: seq<Action>, k: nat)
    requires k <= |run| && k <= |actions|
  {
    exists j :: 0 <= j < k && Strands(run[j], actions[j])
  }

  lemma EverStrandsMore(run: seq<State>, actions: seq<Action>, k: nat)
    requires k < |run| && k < |actions|
    ensures EverStrands(run, actions, k + 1) <==> EverStrands(run, actions, k) || Strands(run[k], actions[k])
  {
    hide Strands;
  }

  /** A run comes to a state that starves if and only if it takes one of the two steps before. */
  lemma {:induction false} RunStarvesIff(run: seq<State>, actions: seq<Action>, permits: nat,
                                         strategy: int -> QueueStrategy, k: nat)
    requires IsRun(run, actions, permits, strategy) && k < |run|
    ensures EverStarves(run, k) <==> EverStrands(run, actions, k)
  {
    hide Apply, Enabled, Starves, Strands, EverStrands;
    if k == 0 {
      InitIsIdle(permits);
      NoStepYet(run, actions);
    } else {
      RunStarvesIff(run, actions, permits, strategy, k - 1);
      EverStrandsMore(run, actions, k - 1);
      StarvesNext(run, k - 1);
      if !Starves(run[k - 1]) { StepStarves(run[k - 1], actions[k - 1], strategy); }
    }
  }

  lemma NoStepYet(run: seq<State>, actions: seq<Action>)
    ensures !EverStrands(run, actions, 0)
  {
  }

  lemma StarvesNext(run: seq<State>, k: nat)
    requires k + 1 < |run|
    ensures EverStarves(run, k + 1) <==> Starves(run[k + 1]) || EverStarves(run, k)
    ensures Starves(run[k]) ==> EverStarves(run, k)
  {
  }

  lemma InitIsIdle(permits: nat)
    ensures !Starves(Init(permits))
  {
  }

  ghost predicate Reaches(permits: nat, strategy: int -> QueueStrategy, s: State) {
    exists run, actions :: IsRun(run, actions, permits, strategy) && run[|actions|] == s
  }

  lemma ReachesInit(permits: nat, strategy: int -> QueueStrategy)
    ensures Reaches(permits, strategy, Init(permits))
  {
    assert IsRun([Init(permits)], [], permits, strategy);
  }

  lemma ReachesNext(permits: nat, strategy: int -> QueueStrategy, s: State, a: Action)
    requires Reaches(permits, strategy, s) && Enabled(s, a)
    ensures Reaches(permits, strategy, Apply(s, a, strategy))
  {
    var run, actions :| IsRun(run, actions, permits, strategy) && run[|actions|] == s;
    Extend(run, actions, permits, strategy, a);
  }

  lemma Extend(run: seq<State>, actions: seq<Action>, permits: nat, strategy: int -> QueueStrategy, a: Action)
    requires IsRun(run, actions, permits, strategy) && Enabled(run[|actions|], a)
    ensures IsRun(run + [Apply(run[|actions|], a, strategy)], actions + [a], permits, strategy)
  {
  }

  lemma ReachesBy(permits: nat, strategy: int -> QueueStrategy, s: State, a: Action, s': State)
    requires Reaches(permits, strategy, s) && Enabled(s, a) && Apply(s, a, strategy) == s'
    ensures Reaches(permits, strategy, s')
  {
    ReachesNext(permits, strategy, s, a);
  }

  /** The semaphore of the runs below before the future queues itself, with the given releases. */
  ghost function Early(releases: seq<Release>, supply: nat, futs: seq<Future>, lock: Option<int>): State {
    Init(0).(releases := releases, futs := futs, lock := lock, ledger := Ledger(supply, 0, 0, 0))
  }

  /** The same after the future has queued itself. */
  ghost function Late(count: nat, releases: seq<Release>, supply: nat, pc: Pc, waker: Option<Task>): State {
    State(count, false, None, map[0 := [0]], multiset{0}, 1, [Future(1, 0, pc, Some(Waiting), waker, 0)],
          [], releases, [], 0, false, {}, Ledger(supply, 0, 0, 0))
  }

  lemma FirstPush(releases: seq<Release>, supply: nat, strategy: int -> QueueStrategy)
    ensures PushStep(Early(releases, supply, [Future(1, 0, Locked, None, None, 0)], Some(0)), 0, strategy)
         == Late(0, releases, supply, Queued, None)
  {
    var s := Early(releases, supply, [Future(1, 0, Locked, None, None, 0)], Some(0));
    var s', q := PushStep(s, 0, strategy), At(s.queues, 0);
    assert s'.queues == map[0 := [0]] by { assert q + [0] == [0] == [0] + q; }
    assert s'.heap == multiset{0};
  }

  lemma FutureLocks(releases: seq<Release>, supply: nat, strategy: int -> QueueStrategy)
    requires Reaches(0, strategy, Early(releases, supply, [], None))
    ensures Reaches(0, strategy, Early(releases, supply, [Future(1, 0, Locked, None, None, 0)], Some(0)))
  {
    hide Reaches;
    var early := (pc: Pc) => Early(releases, supply, [Future(1, 0, pc, None, None, 0)], None);
    ReachesBy(0, strategy, Early(releases, supply, [], None), Acquirer(NewFuture(1, 0)), early(Fresh));
    ReachesBy(0, strategy, early(Fresh), Acquirer(PollLoad(0)), early(Slow));
    ReachesBy(0, strategy, early(Slow), Acquirer(PollLock(0)), early(Locked).(lock := Some(0)));
  }

  /** A future that finds no permit queues itself, and finds itself neither cancelled nor notified. */
  lemma FutureArms(releases: seq<Release>, supply: nat, strategy: int -> QueueStrategy)
    requires Reaches(0, strategy, Early(releases, supply, [], None))
    ensures Reaches(0, strategy, Late(0, releases, supply, Arming, None))
  {
    hide Reaches;
    FutureLocks(releases, supply, strategy);
    FirstPush(releases, supply, strategy);
    var late := (pc: Pc) => Late(0, releases, supply, pc, None);
    ReachesBy(0, strategy, Early(releases, supply, [Future(1, 0, Locked, None, None, 0)], Some(0)),
              Acquirer(PollPush(0)), late(Queued));
    ReachesBy(0, strategy, late(Queued), Acquirer(PollCancelled(0)), late(Uncancelled));
    ReachesBy(0, strategy, late(Uncancelled), Acquirer(PollNotified(0)), late(Arming));
  }

  lemma FutureParks(releases: seq<Release>, supply: nat, strategy: int -> QueueStrategy)
    requires Reaches(0, strategy, Early(releases, supply, [], None))
    ensures Reaches(0, strategy, Late(0, releases, supply, Parked, Some(0)))
  {
    hide Reaches;
    FutureArms(releases, supply, strategy);
    ReachesBy(0, strategy, Late(0, releases, supply, Arming, None), Acquirer(PollArm(0)),
              Late(0, releases, supply, Parked, Some(0)));
  }

  /**
   Keeping one permit free while a future that needs one waits is reachable with a single release of one permit:
   the release finds the queue empty, the future queues itself, and only then does the permit reach the word.
   At the end no release runs and the future is parked.
   */
  lemma StarvationIsReachable(strategy: int -> QueueStrategy)
    ensures exists s: State :: (
        && Reaches(0, strategy, s) && Starves(s)
        && |s.futs| == 1 && s.futs[0].needs == 1 && s.futs[0].pc == Parked && s.releases == [Finished])
  {
    hide Reaches;
    var early := (r: Release) => Early([r], 1, [], None);
    ReachesInit(0, strategy);
    ReachesBy(0, strategy, Init(0), Releaser(AddPermits(1)), early(Starting(1)));
    ReachesBy(0, strategy, early(Starting(1)), Releaser(ReleaseSelect(0, {})), early(Adding(1)));
    FutureParks([Adding(1)], 1, strategy);
    var end := Late(1, [Finished], 1, Parked, Some(0));
    ReachesBy(0, strategy, Late(0, [Adding(1)], 1, Parked, Some(0)), Releaser(ReleaseAdd(0)), end);
    assert end.futs[0].handle == Some(Waiting);
  }

  // A close between the notification and the wake-up.

  /** The future has been notified, and the release is at `r`. */
  ghost function Popped(count: nat, closed: bool, closers: nat, drained: bool, r: Release, phantom: nat): State {
    State(count, closed, None, map[], multiset{}, 1, [Future(1, 0, Parked, Some(Notified), None, 0)],
          [], [r], [], closers, drained, {}, Ledger(1, 0, 0, phantom))
  }

  lemma SelectsTheOnlyOne(e: Entry)
    requires e == Entry(0, 0, 1, Waiting, e.waker)
    ensures Select(map[0 := [e]], multiset{0}, 1) == Selected(map[], multiset{}, [e], [])
  {
    var queues: Queues := map[0 := [e]];
    FlattenEmpty(queues);
    assert At(queues, 0) != [];
    assert 0 in multiset{0};
    assert [e][1..] == [];
    assert Scan([e], 1, NUM_WAKERS, false) == Scanned([], [e], []);
    assert queues - {0} == map[];
  }

  lemma SelectPops(strategy: int -> QueueStrategy)
    ensures var s := Late(0, [Starting(1)], 1, Parked, Some(0));
      && CanRelease(s, ReleaseSelect(0, {}))
      && SelectStep(s, 0, {}) == Popped(0, false, 0, false, Granting(1, 0, [0]), 0)
  {
    hide Select, Flatten;
    var s, e := Late(0, [Starting(1)], 1, Parked, Some(0)), Entry(0, 0, 1, Waiting, Some(0));
    assert View(s.futs, s.queues, {}) == map[0 := [e]] by {
      assert Entries(s.futs, [0], {}) == [e];
    }
    SelectsTheOnlyOne(e);
    FlattenEmpty(s.queues);
    assert At(s.queues, 0) != [];
    assert [e][1..] == [];
    assert Needs([e]) == 1 && Tasks([e]) == [0] && RacedNeeds([e], {}) == 0;
    assert IdQueues(map[]) == map[];
    assert NotifyAll(s.futs, [e], {}) == [Future(1, 0, Parked, Some(Notified), None, 0)];
  }

  /**
   A waiter that a release has popped when the semaphore closes is woken by nobody: neither by that release,
   which returns early, nor by the close, which finds an empty queue. The permit it may no longer claim is put
   back on the word, so after a close the free and the reserved permits can exceed the supply.
   */
  lemma CloseMissesPopped(strategy: int -> QueueStrategy)
    ensures exists s: State :: (
        && Reaches(0, strategy, s) && s.drained && s.releases == [Finished]
        && |s.futs| == 1 && s.futs[0].pc == Parked && s.futs[0].handle == Some(Notified) && 0 !in s.woken
        && s.count + Reserved(s) > s.ledger.supply)
  {
    hide Reaches, SelectStep;
    ReachesInit(0, strategy);
    assert Init(0) == Early([], 0, [], None);
    FutureParks([], 0, strategy);
    var waiting := Late(0, [Starting(1)], 1, Parked, Some(0));
    ReachesBy(0, strategy, Late(0, [], 0, Parked, Some(0)), Releaser(AddPermits(1)), waiting);
    SelectPops(strategy);
    ReachesBy(0, strategy, waiting, Releaser(ReleaseSelect(0, {})), Popped(0, false, 0, false, Granting(1, 0, [0]), 0));
    ClosePopped(strategy);
  }

  lemma ClosePopped(strategy: int -> QueueStrategy)
    requires Reaches(0, strategy, Popped(0, false, 0, false, Granting(1, 0, [0]), 0))
    ensures exists s: State :: (
        && Reaches(0, strategy, s) && s.drained && s.releases == [Finished]
        && |s.futs| == 1 && s.futs[0].pc == Parked && s.futs[0].handle == Some(Notified) && 0 !in s.woken
        && s.count + Reserved(s) > s.ledger.supply)
  {
    hide Reaches;
    var end := Popped(1, true, 0, true, Finished, 1);
    ReachesBy(0, strategy, Popped(0, false, 0, false, Granting(1, 0, [0]), 0), Closer(SetClosed),
              Popped(0, true, 1, false, Granting(1, 0, [0]), 0));
    ReachesBy(0, strategy, Popped(0, true, 1, false, Granting(1, 0, [0]), 0), Releaser(ReleaseChecked(0)),
              Popped(1, true, 1, false, Finished, 1));
    ReachesBy(0, strategy, Popped(1, true, 1, false, Finished, 1), Closer(Drain), end);
    assert Reserved(end) == 1 by { assert end.futs[1..] == []; }
  }

  // Notification or cancellation between the last look at the handle and storing the waker.

  /** The future has no slot any more; it is at `pc` with the given handle. */
  ghost function Slotless(closed: bool, r: seq<Release>, pc: Pc, handle: Status, waker: Option<Task>): State {
    State(0, closed, None, map[], multiset{}, 1, [Future(1, 0, pc, Some(handle), waker, 0)],
          [], r, [], 0, closed, {}, Ledger(|r|, 0, 0, 0))
  }

  lemma SelectPopsUnarmed(strategy: int -> QueueStrategy)
    ensures var s := Late(0, [Starting(1)], 1, Arming, None);
      && CanRelease(s, ReleaseSelect(0, {}))
      && SelectStep(s, 0, {}) == Slotless(false, [Adding(0)], Arming, Notified, None)
  {
    hide Select, Flatten;
    var s, e := Late(0, [Starting(1)], 1, Arming, None), Entry(0, 0, 1, Waiting, None);
    assert View(s.futs, s.queues, {}) == map[0 := [e]] by {
      assert Entries(s.futs, [0], {}) == [e];
    }
    SelectsTheOnlyOne(e);
    FlattenEmpty(s.queues);
    assert At(s.queues, 0) != [];
    assert [e][1..] == [];
    assert Needs([e]) == 1 && Tasks([e]) == [] && RacedNeeds([e], {}) == 0;
    assert IdQueues(map[]) == map[];
    assert NotifyAll(s.futs, [e], {}) == [Future(1, 0, Arming, Some(Notified), None, 0)];
  }

  /**
   A future notified between its last look and storing its waker parks for good: its permit is reserved and
   nobody wakes it.
   */
  lemma WakeupCanBeLost(strategy: int -> QueueStrategy)
    ensures exists s: State :: (
        && Reaches(0, strategy, s) && !s.closed && s.releases == [Finished]
        && |s.futs| == 1 && s.futs[0].pc == Parked && s.futs[0].handle == Some(Notified) && 0 !in s.woken)
  {
    hide Reaches, SelectStep;
    ReachesInit(0, strategy);
    assert Init(0) == Early([], 0, [], None);
    FutureArms([], 0, strategy);
    var arming := Late(0, [Starting(1)], 1, Arming, None);
    ReachesBy(0, strategy, Late(0, [], 0, Arming, None), Releaser(AddPermits(1)), arming);
    SelectPopsUnarmed(strategy);
    ReachesBy(0, strategy, arming, Releaser(ReleaseSelect(0, {})), Slotless(false, [Adding(0)], Arming, Notified, None));
    LostAfterPop(strategy);
  }

  lemma LostAfterPop(strategy: int -> QueueStrategy)
    requires Reaches(0, strategy, Slotless(false, [Adding(0)], Arming, Notified, None))
    ensures exists s: State :: (
        && Reaches(0, strategy, s) && !s.closed && s.releases == [Finished]
        && |s.futs| == 1 && s.futs[0].pc == Parked && s.futs[0].handle == Some(Notified) && 0 !in s.woken)
  {
    hide Reaches;
    var end := Slotless(false, [Finished], Parked, Notified, Some(0));
    ReachesBy(0, strategy, Slotless(false, [Adding(0)], Arming, Notified, None), Releaser(ReleaseAdd(0)),
              Slotless(false, [Finished], Arming, Notified, None));
    ReachesBy(0, strategy, Slotless(false, [Finished], Arming, Notified, None), Acquirer(PollArm(0)), end);
  }

  /** The same with a close: a future cancelled before it stored its waker parks for good, and no close wakes it. */
  lemma CloseMissesUnarmed(strategy: int -> QueueStrategy)
    ensures exists s: State :: (
        && Reaches(0, strategy, s) && s.drained && s.releases == []
        && |s.futs| == 1 && s.futs[0].pc == Parked && s.futs[0].handle == Some(Cancelled) && 0 !in s.woken)
  {
    hide Reaches;
    ReachesInit(0, strategy);
    assert Init(0) == Early([], 0, [], None);
    FutureArms([], 0, strategy);
    var arming := Late(0, [], 0, Arming, None);
    var closing := arming.(closed := true, closers := 1);
    ReachesBy(0, strategy, arming, Closer(SetClosed), closing);
    assert Close(closing, Drain) == Slotless(true, [], Arming, Cancelled, None) by {
      assert At(closing.queues, 0) == [0] && 0 in [0];
      assert CancelQueued(closing.futs, closing.queues) == [Future(1, 0, Arming, Some(Cancelled), None, 0)];
      assert Sleepers(closing.futs, closing.queues) == {};
    }
    var end := Slotless(true, [], Parked, Cancelled, Some(0));
    ReachesBy(0, strategy, closing, Closer(Drain), Slotless(true, [], Arming, Cancelled, None));
    ReachesBy(0, strategy, Slotless(true, [], Arming, Cancelled, None), Acquirer(PollArm(0)), end);
  }
}
