/** What the polls of the interleaved semaphore answer, whatever interrupts them. */
module ProtocolAnswers {
  import opened Basics
  import opened Config
  import opened Selection
  import opened Protocol
  import opened ProtocolStructure
  import opened ProtocolSelection
  import opened ProtocolRuns
  import opened ProtocolLosses
  import opened ProtocolWaking

  // Exchanges.

  /** Whoever is about to exchange has seen enough permits. */
  ghost predicate SawEnough(s: State) {
    && (forall i | 0 <= i < |s.futs| && s.futs[i].pc.Prepared? :: s.futs[i].pc.seen >= s.futs[i].needs)
    && (forall a | 0 <= a < |s.attempts| && s.attempts[a].Loaded? :: s.attempts[a].seen >= s.attempts[a].n)
  }

  lemma PollSawEnough(s: State, a: PollAction, strategy: int -> QueueStrategy)
    requires CanPoll(s, a) && SawEnough(s)
    ensures SawEnough(Poll(s, a, strategy))
  {
    hide At;
  }

  lemma SelectSawEnough(s: State, r: nat, raced: set<int>)
    requires CanRelease(s, ReleaseSelect(r, raced)) && SawEnough(s)
    ensures SawEnough(SelectStep(s, r, raced))
  {
    hide Select, Flatten, NotifyAll, Names;
    if Flatten(s.queues) != [] {
      forall i | 0 <= i < |s.futs|
        ensures SelectStep(s, r, raced).futs[i].needs == s.futs[i].needs
        ensures SelectStep(s, r, raced).futs[i].pc == s.futs[i].pc || SelectStep(s, r, raced).futs[i].pc == Dropped
      {
        NotifyAllAt(s.futs, Chosen(s, r, raced).notified, raced, i);
      }
    }
  }

  lemma StepSawEnough(s: State, a: Action, strategy: int -> QueueStrategy)
    requires Enabled(s, a) && SawEnough(s)
    ensures SawEnough(Apply(s, a, strategy))
  {
    hide Poll, SelectStep, At;
    match a
    case Acquirer(poll) => PollSawEnough(s, poll, strategy);
    case Releaser(ReleaseSelect(r, raced)) => SelectSawEnough(s, r, raced);
    case _ =>
  }

  lemma {:induction false} RunSawEnough(run: seq<State>, actions: seq<Action>, permits: nat,
                                        strategy: int -> QueueStrategy, k: nat)
    requires IsRun(run, actions, permits, strategy) && k < |run|
    ensures SawEnough(run[k])
  {
    hide Apply, Enabled, SawEnough;
    if k > 0 {
      RunSawEnough(run, actions, permits, strategy, k - 1);
      StepSawEnough(run[k - 1], actions[k - 1], strategy);
    } else {
      InitSawEnough(permits);
    }
  }

  lemma InitSawEnough(permits: nat)
    ensures SawEnough(Init(permits))
  {
  }

  /**
   In every run the exchange of a first poll takes effect exactly when the word is still as loaded and the exchange
   does not fail for no reason: the demand moves from the word to a new guard. Otherwise the future goes on to the
   queue, and nothing else changes.
   */
  lemma ExchangeTakesAll(run: seq<State>, actions: seq<Action>, permits: nat, strategy: int -> QueueStrategy,
                         k: nat, i: nat, spurious: bool)
    requires IsRun(run, actions, permits, strategy) && k < |actions|
    requires actions[k] == Acquirer(PollExchange(i, spurious))
    ensures var s, s', n := run[k], run[k + 1], run[k].futs[i].needs;
      if !s.closed && s.count == s.futs[i].pc.seen && !spurious then
        && s'.count + n == s.count
        && s' == s.(count := s'.count, guards := s.guards + [Guard(n)], futs := s.futs[i := s.futs[i].(pc := Done)])
      else s' == s.(futs := s.futs[i := s.futs[i].(pc := Slow)])
  {
    RunSawEnough(run, actions, permits, strategy, k);
  }

  /** The same for a non-blocking attempt, which starts over with the word it found, or gives up as that word demands. */
  lemma AttemptTakesAll(run: seq<State>, actions: seq<Action>, permits: nat, strategy: int -> QueueStrategy,
                        k: nat, a: nat, spurious: bool)
    requires IsRun(run, actions, permits, strategy) && k < |actions|
    requires actions[k] == Holder(TryExchange(a, spurious))
    ensures var s, s', n := run[k], run[k + 1], run[k].attempts[a].n;
      if !s.closed && s.count == s.attempts[a].seen && !spurious then
        && s'.count + n == s.count
        && s' == s.(count := s'.count, guards := s.guards + [Guard(n)], attempts := s.attempts[a := Ended])
      else if s.closed || s.count < n then s' == s.(attempts := s.attempts[a := Ended])
      else s' == s.(attempts := s.attempts[a := Loaded(n, s.count)])
  {
    RunSawEnough(run, actions, permits, strategy, k);
  }

  // Answers.

  /** The step ends future `i` with an error and takes no permits. */
  ghost predicate EndsEmpty(s: State, s': State, i: int)
    requires 0 <= i < |s.futs|
  {
    s'.guards == s.guards && s'.count == s.count && (s.closed || s.futs[i].handle == Some(Cancelled))
  }

  /** The step ends future `i` with its permits in a new guard: off the word, or those reserved for it. */
  ghost predicate EndsServed(s: State, s': State, i: int)
    requires 0 <= i < |s.futs|
  {
    var n := s.futs[i].needs;
    && !s.closed && s'.guards == s.guards + [Guard(n)]
    && if s.futs[i].handle == None then s'.count + n == s.count
       else s.futs[i].handle == Some(Notified) && s'.count == s.count
  }

  /** A poll ends with an error only for a close or a cancellation, and otherwise with the permits asked for. */
  lemma PollAnswers(s: State, a: PollAction, strategy: int -> QueueStrategy, i: nat)
    requires Structure(s, strategy) && CanPoll(s, a) && i < |s.futs| && s.futs[i].pc != Done
    requires Poll(s, a, strategy).futs[i].pc == Done
    ensures EndsEmpty(s, Poll(s, a, strategy), i) || EndsServed(s, Poll(s, a, strategy), i)
  {
    hide Structure, At;
    StructureStage(s, i, strategy);
  }

  /** Wherever a poll looks at the flag and finds it set, it ends and takes nothing. */
  lemma ClosedEndsPolls(s: State, a: PollAction, strategy: int -> QueueStrategy)
    requires CanPoll(s, a) && s.closed && (a.PollLoad? || a.PollLock? || a.PollClaim?)
    ensures var s' := Poll(s, a, strategy);
      s'.futs[a.i].pc == Done && s'.guards == s.guards && s'.count == s.count && s'.lock == s.lock && s'.queues == s.queues
  {
  }

  /** Nobody but a poll ends a future. */
  lemma OnlyPollsEnd(s: State, a: Action, strategy: int -> QueueStrategy, i: nat)
    requires Enabled(s, a) && i < |s.futs| && s.futs[i].pc != Done && !a.Acquirer?
    ensures i < |Apply(s, a, strategy).futs| && Apply(s, a, strategy).futs[i].pc != Done
  {
    hide Select, Flatten, NotifyAll, Names, At, SelectStep;
    if a.Releaser? && a.release.ReleaseSelect? { SelectEndsNobody(s, a.release.r, a.release.raced, i); }
  }

  lemma SelectEndsNobody(s: State, r: nat, raced: set<int>, i: nat)
    requires CanRelease(s, ReleaseSelect(r, raced)) && i < |s.futs| && s.futs[i].pc != Done
    ensures i < |SelectStep(s, r, raced).futs| && SelectStep(s, r, raced).futs[i].pc != Done
  {
    hide Select, Flatten, NotifyAll, Names;
    if Flatten(s.queues) != [] { NotifyAllAt(s.futs, Chosen(s, r, raced).notified, raced, i); }
  }

  // Runs.

  /** While the semaphore is open only dropped futures are cancelled. */
  ghost predicate OnlyDroppedCancelled(s: State) {
    !s.closed ==> forall i | 0 <= i < |s.futs| && s.futs[i].handle == Some(Cancelled) :: s.futs[i].pc == Dropped
  }

  lemma PollKeepsUncancelled(s: State, a: PollAction, strategy: int -> QueueStrategy)
    requires CanPoll(s, a) && OnlyDroppedCancelled(s)
    ensures OnlyDroppedCancelled(Poll(s, a, strategy))
  {
    hide At;
  }

  lemma SelectKeepsUncancelled(s: State, r: nat, raced: set<int>)
    requires CanRelease(s, ReleaseSelect(r, raced)) && OnlyDroppedCancelled(s)
    ensures OnlyDroppedCancelled(SelectStep(s, r, raced))
  {
    hide Select, Flatten, NotifyAll, Names;
    var s' := SelectStep(s, r, raced);
    if Flatten(s.queues) != [] && !s.closed {
      forall i | 0 <= i < |s.futs| && s'.futs[i].handle == Some(Cancelled) ensures s'.futs[i].pc == Dropped {
        NotifyAllAt(s.futs, Chosen(s, r, raced).notified, raced, i);
      }
    }
  }

  lemma StepKeepsUncancelled(s: State, a: Action, strategy: int -> QueueStrategy)
    requires Structure(s, strategy) && Enabled(s, a) && OnlyDroppedCancelled(s)
    ensures OnlyDroppedCancelled(Apply(s, a, strategy))
  {
    hide Poll, SelectStep, At, Slots, Stages, AllSorted, HeapExact;
    match a
    case Acquirer(poll) => PollKeepsUncancelled(s, poll, strategy);
    case Releaser(ReleaseSelect(r, raced)) => SelectKeepsUncancelled(s, r, raced);
    case _ =>
  }

  lemma {:induction false} RunKeepsUncancelled(run: seq<State>, actions: seq<Action>, permits: nat,
                                               strategy: int -> QueueStrategy, k: nat)
    requires IsRun(run, actions, permits, strategy) && k < |run|
    ensures OnlyDroppedCancelled(run[k])
  {
    hide Apply, Enabled, OnlyDroppedCancelled, Structure;
    if k > 0 {
      RunKeepsUncancelled(run, actions, permits, strategy, k - 1);
      RunIsSound(run, actions, permits, strategy, k - 1);
      StepKeepsUncancelled(run[k - 1], actions[k - 1], strategy);
    } else {
      InitUncancelled(permits);
    }
  }

  lemma InitUncancelled(permits: nat)
    ensures OnlyDroppedCancelled(Init(permits))
  {
  }

  /** Step `j` ended future `i` and put its permits in a new guard. */
  ghost predicate ServedAt(run: seq<State>, j: nat, i: int)
    requires j + 1 < |run|
  {
    && 0 <= i < |run[j].futs| && i < |run[j + 1].futs|
    && run[j].futs[i].pc != Done && run[j + 1].futs[i].pc == Done && EndsServed(run[j], run[j + 1], i)
  }

  /** In every run, as long as the semaphore is open, a future that has ended got its permits when it ended. */
  lemma {:induction false} EndedIsServed(run: seq<State>, actions: seq<Action>, permits: nat,
                                         strategy: int -> QueueStrategy, k: nat, i: nat)
    requires IsRun(run, actions, permits, strategy) && k < |run| && !run[k].closed
    requires i < |run[k].futs| && run[k].futs[i].pc == Done
    ensures exists j :: 0 <= j < k && ServedAt(run, j, i)
    decreases k
  {
    hide Apply, Enabled, Structure, OnlyDroppedCancelled, EndsServed;
    if k > 0 {
      var s, a := run[k - 1], actions[k - 1];
      StaysOpenBefore(run, actions, permits, strategy, k - 1, k);
      StepGrows(s, a, strategy);
      if s.futs[i].pc == Done {
        EndedIsServed(run, actions, permits, strategy, k - 1, i);
      } else {
        RunIsSound(run, actions, permits, strategy, k - 1);
        RunKeepsUncancelled(run, actions, permits, strategy, k - 1);
        StepServes(s, a, strategy, i);
        assert ServedAt(run, k - 1, i);
      }
    }
  }

  lemma StepServes(s: State, a: Action, strategy: int -> QueueStrategy, i: nat)
    requires Structure(s, strategy) && Enabled(s, a) && !s.closed && OnlyDroppedCancelled(s)
    requires i < |s.futs| && s.futs[i].pc != Done
    requires i < |Apply(s, a, strategy).futs| && Apply(s, a, strategy).futs[i].pc == Done
    ensures EndsServed(s, Apply(s, a, strategy), i)
  {
    hide Structure, EndsServed, Poll;
    if a.Acquirer? {
      PollAnswers(s, a.poll, strategy, i);
      CancelledNotEnded(s, a.poll, strategy, i);
    } else {
      OnlyPollsEnd(s, a, strategy, i);
    }
  }

  /** A dropped future takes no more steps. */
  lemma CancelledNotEnded(s: State, a: PollAction, strategy: int -> QueueStrategy, i: nat)
    requires CanPoll(s, a) && i < |s.futs| && s.futs[i].pc != Done && Poll(s, a, strategy).futs[i].pc == Done
    ensures s.futs[i].pc != Dropped
  {
    hide At;
  }
}
