/** Operations that nobody interrupts do in the interleaved semaphore what the atomic ones do. */
module ProtocolAtomic {
  import opened Basics
  import opened Config
  import opened Selection
  import opened SelectionLaws
  import opened Protocol
  import opened ProtocolStructure
  import opened ProtocolSelection
  import A = AtomicSemaphore

  ghost function Abstract(s: State): A.Sem
    requires AllReadable(s.futs, s.queues)
  {
    A.Sem(s.count, s.closed, View(s.futs, s.queues, {}), s.heap)
  }

  /** The steps of release `r` after its selection, with no step of anybody else between them. */
  ghost function FinishAlone(s: State, r: nat): State
    requires r < |s.releases|
  {
    var s2 := if s.releases[r].Granting? then ReleaseBy(s, ReleaseChecked(r)) else s;
    var s3 := if s2.releases[r].Waking? then ReleaseBy(s2, ReleaseWake(r)) else s2;
    if s3.releases[r].Adding? then ReleaseBy(s3, ReleaseAdd(r)) else s3
  }

  ghost function ReleaseAlone(s: State, r: nat): State
    requires CanRelease(s, ReleaseSelect(r, {}))
  {
    FinishAlone(ReleaseBy(s, ReleaseSelect(r, {})), r)
  }

  lemma FinishIs(s: State, r: nat, n: nat, granted: nat, tasks: seq<Task>)
    requires r < |s.releases| && granted <= n && s.releases[r] == AfterSelect(n, granted, tasks)
    ensures FinishAlone(s, r) ==
      if granted == 0 || tasks == [] then s.(count := s.count + (n - granted), releases := s.releases[r := Finished])
      else if s.closed then
        s.(count := s.count + granted, releases := s.releases[r := Finished],
           ledger := s.ledger.(phantom := s.ledger.phantom + granted, stranded := s.ledger.stranded + (n - granted)))
      else
        s.(count := s.count + (n - granted), releases := s.releases[r := Finished], woken := s.woken + set t | t in tasks)
  {
    hide Readable, At;
  }

  lemma {:induction false} NobodyRaced(es: seq<Entry>)
    ensures RacedNeeds(es, {}) == 0
  {
    if es != [] { NobodyRaced(es[1..]); }
  }

  /** After a selection the futures still queued look as they did. */
  lemma ViewAfterSelect(s: State, r: nat, strategy: int -> QueueStrategy)
    requires Selects(s, r, {}, strategy)
    ensures var s' := SelectStep(s, r, {});
      AllReadable(s'.futs, s'.queues) && View(s'.futs, s'.queues, {}) == Chosen(s, r, {}).queues
  {
    hide Select, Flatten, NotifyAll, Structure;
    var s', sel := SelectStep(s, r, {}), Chosen(s, r, {});
    SelectKeepsPlaces(s, r, {}, strategy);
    SlotsAreReadable(s');
    forall p, m | p in sel.queues && 0 <= m < |sel.queues[p]|
      ensures Entries(s'.futs, s'.queues[p], {})[m] == sel.queues[p][m]
    {
      var e := sel.queues[p][m];
      KeptLooksSame(s, r, strategy, p, e);
      assert s'.queues[p][m] == e.id;
    }
    forall p | p in sel.queues ensures View(s'.futs, s'.queues, {})[p] == sel.queues[p] {}
  }

  lemma KeptLooksSame(s: State, r: nat, strategy: int -> QueueStrategy, p: int, e: Entry)
    requires Selects(s, r, {}, strategy) && e in At(Chosen(s, r, {}).queues, p)
    ensures Shows(SelectStep(s, r, {}).futs, {}, e)
  {
    hide Select, Flatten, NotifyAll, Structure, Names;
    var sel, s' := Chosen(s, r, {}), SelectStep(s, r, {});
    ChosenQueues(s, r, {}, strategy, p);
    ChosenFates(s, r, {}, strategy, e);
    SelectFate(s, r, {}, strategy, e.id);
    EntryNames(At(sel.queues, p), e);
    IdsMember(At(sel.queues, p), e.id);
    assert (e.id as int) in At(s'.queues, p);
  }

  /**
   Selection, closed check, wake-up and addition one after the other have the effect of the atomic release: the same
   word, queue and heap, the same futures notified, the same tasks woken, and the same permits lost and refunded.
   */
  lemma ReleaseIsAtomic(s: State, r: nat, strategy: int -> QueueStrategy)
    requires Structure(s, strategy) && CanRelease(s, ReleaseSelect(r, {}))
    ensures var s', o := ReleaseAlone(s, r), A.Release(Abstract(s), s.releases[r].rem);
      && AllReadable(s'.futs, s'.queues) && Abstract(s') == o.sem
      && s'.futs == NotifyAll(s.futs, o.notified, {})
      && s'.woken == s.woken + (set t | t in o.woken)
      && s'.releases == s.releases[r := Finished]
      && s'.ledger == s.ledger.(stranded := s.ledger.stranded + o.lost, phantom := s.ledger.phantom + o.refunded)
  {
    hide Select, Flatten, NotifyAll, Structure, Needs, Tasks, View, FinishAlone, AfterSelect;
    var n, v := s.releases[r].rem, View(s.futs, s.queues, {});
    ViewIsOrderly(s, {}, strategy);
    NothingToGive(v, s.heap, s.futs);
    var s1 := SelectStep(s, r, {});
    if Flatten(s.queues) == [] {
      NothingGranted(n);
      FinishIs(s1, r, n, 0, []);
    } else {
      var notified := Chosen(s, r, {}).notified;
      ViewAfterSelect(s, r, strategy);
      NobodyRaced(notified);
      SelectWithinLimits(v, s.heap, n);
      FinishIs(s1, r, n, Needs(notified), Tasks(notified));
    }
  }

  lemma NothingGranted(n: nat)
    ensures AfterSelect(n, 0, []) == Adding(n)
  {
  }

  lemma NothingToGive(v: Queues, heap: multiset<int>, futs: seq<Future>)
    ensures Select(v, heap, 0) == Selected(v, heap, [], []) && Needs([]) == 0 && NotifyAll(futs, [], {}) == futs
  {
  }

  // Polls and drops.

  /** Changing what future `i` shows, and nothing else, edits its entry in the view. */
  lemma ViewEdit(futs: seq<Future>, after: seq<Future>, queues: map<int, seq<int>>, i: nat, to: Entry -> Entry)
    requires AllReadable(futs, queues) && i < |futs| == |after| && after == futs[i := after[i]]
    requires futs[i].handle.Some? ==> after[i].handle.Some? && EntryOf(after, i, {}) == to(EntryOf(futs, i, {}))
    ensures AllReadable(after, queues)
    ensures View(after, queues, {}) == A.Edit(View(futs, queues, {}), i, to)
  {
    forall p | p in queues ensures Readable(after, queues[p]) {
      assert Readable(futs, queues[p]);
    }
    forall p | p in queues ensures View(after, queues, {})[p] == A.Edit(View(futs, queues, {}), i, to)[p] {
      assert Readable(futs, queues[p]);
    }
  }

  /** Changing a future that is not queued, or only where its entry does not show it, changes nothing in the view. */
  lemma ViewSame(futs: seq<Future>, after: seq<Future>, queues: map<int, seq<int>>, i: nat)
    requires AllReadable(futs, queues) && i < |futs| == |after| && after == futs[i := after[i]]
    requires futs[i].handle.Some? ==> after[i].handle.Some? && EntryOf(after, i, {}) == EntryOf(futs, i, {})
    ensures AllReadable(after, queues) && View(after, queues, {}) == View(futs, queues, {})
  {
    ViewEdit(futs, after, queues, i, (e: Entry) => e);
    forall p | p in queues
      ensures View(after, queues, {})[p] == View(futs, queues, {})[p]
    {
      assert A.Edit(View(futs, queues, {}), i, (e: Entry) => e)[p] == View(futs, queues, {})[p];
    }
  }

  /** The steps of a poll from its look at the handle on, with no step of anybody else between them. */
  ghost function LookAlone(s: State, i: nat, strategy: int -> QueueStrategy): State
    requires CanPoll(s, PollCancelled(i))
  {
    var s1 := Poll(s, PollCancelled(i), strategy);
    if s1.futs[i].pc != Uncancelled then s1
    else
      var s2 := Poll(s1, PollNotified(i), strategy);
      if s2.futs[i].pc == Claiming then Poll(s2, PollClaim(i), strategy) else Poll(s2, PollArm(i), strategy)
  }

  ghost function LaterPollAlone(s: State, i: nat, strategy: int -> QueueStrategy): State
    requires CanPoll(s, PollAgain(i))
  {
    LookAlone(Poll(s, PollAgain(i), strategy), i, strategy)
  }

  ghost function FirstPollAlone(s: State, i: nat, strategy: int -> QueueStrategy): State
    requires CanPoll(s, PollLoad(i)) && s.lock == None
  {
    var s1 := Poll(s, PollLoad(i), strategy);
    if s1.futs[i].pc.Prepared? then Poll(s1, PollExchange(i, false), strategy)
    else if s1.futs[i].pc != Slow then s1
    else
      var s2 := Poll(s1, PollLock(i), strategy);
      if s2.futs[i].pc != Locked then s2 else LookAlone(Poll(s2, PollPush(i), strategy), i, strategy)
  }

  /** A waiting future stores its waker; a notified one takes its permits, unless closed; a cancelled one gives up. */
  lemma LookIs(s: State, i: nat, strategy: int -> QueueStrategy)
    requires CanPoll(s, PollCancelled(i)) && s.futs[i].handle.Some?
    ensures match s.futs[i].handle.value
      case Cancelled => LookAlone(s, i, strategy) == MoveTo(s, i, Done)
      case Notified => LookAlone(s, i, strategy) == Claim(s, i)
      case Waiting => LookAlone(s, i, strategy) == s.(futs := s.futs[i := s.futs[i].(pc := Parked, waker := Some(i))])
  {
    hide At;
  }

  /** What an uninterrupted first poll does, the queue aside. */
  lemma FirstPollIs(s: State, i: nat, strategy: int -> QueueStrategy)
    requires CanPoll(s, PollLoad(i)) && s.lock == None
    ensures var f, s' := s.futs[i], FirstPollAlone(s, i, strategy);
      if s.closed then s' == MoveTo(s, i, Done)
      else if s.count >= f.needs then s' == Obtain(s, i)
      else s' == PushStep(s, i, strategy).(
        futs := s.futs[i := f.(pc := Parked, handle := Some(Waiting), arrival := s.next, waker := Some(i))])
  {
    hide LookAlone, PushStep;
    if !s.closed && s.count < s.futs[i].needs {
      var s2 := MoveTo(MoveTo(s, i, Slow), i, Locked).(lock := Some(i));
      PushedFrom(s, s2, i, strategy);
      LookIs(PushStep(s2, i, strategy), i, strategy);
    }
  }

  lemma PushedFrom(s: State, s2: State, i: nat, strategy: int -> QueueStrategy)
    requires i < |s.futs| && s2 == s.(futs := s.futs[i := s.futs[i].(pc := Locked)], lock := Some(i))
    ensures var f := s.futs[i].(pc := Queued, handle := Some(Waiting), arrival := s.next);
      PushStep(s2, i, strategy) == PushStep(s, i, strategy).(futs := s.futs[i := f])
  {
  }

  /** The push as the view sees it: one more entry, at the end or the front of its priority. */
  lemma ViewPush(s: State, i: nat, f: Future, strategy: int -> QueueStrategy)
    requires AllReadable(s.futs, s.queues) && i < |s.futs| && s.futs[i].handle == None
    requires f.handle.Some? && f.priority == s.futs[i].priority
    ensures var futs, s' := s.futs[i := f], PushStep(s, i, strategy);
      && AllReadable(futs, s'.queues)
      && A.Sem(s.count, s.closed, View(futs, s'.queues, {}), s'.heap)
           == A.Insert(Abstract(s), EntryOf(futs, i, {}), strategy(f.priority))
  {
    var futs, s', e := s.futs[i := f], PushStep(s, i, strategy), EntryOf(s.futs[i := f], i, {});
    var p: int := f.priority;
    var v := View(s.futs, s.queues, {});
    ViewSame(s.futs, futs, s.queues, i);
    forall x | x in s'.queues ensures Readable(futs, s'.queues[x]) {
      if x in s.queues { assert Readable(futs, s.queues[x]); }
    }
    ViewAt(s, {}, p);
    var v' := View(futs, s'.queues, {});
    var expected := A.Insert(Abstract(s), e, strategy(p)).queues;
    forall x | x in s'.queues ensures v'[x] == expected[x] {
      if x != p {
        assert v'[x] == Entries(futs, s.queues[x], {}) == View(futs, s.queues, {})[x];
      } else {
        PushedEntries(futs, At(s.queues, p), i, strategy(p), At(v, p));
      }
    }
    assert v'.Keys == expected.Keys;
    assert v' == expected;
  }

  lemma PushedEntries(futs: seq<Future>, q: seq<int>, i: nat, strategy: QueueStrategy, es: seq<Entry>)
    requires Readable(futs, q) && i < |futs| && futs[i].handle.Some? && es == Entries(futs, q, {})
    ensures Readable(futs, if strategy == Fifo then q + [i] else [i] + q)
    ensures Entries(futs, if strategy == Fifo then q + [i] else [i] + q, {})
         == if strategy == Fifo then es + [EntryOf(futs, i, {})] else [EntryOf(futs, i, {})] + es
  {
  }

  /** An uninterrupted first poll parks its future exactly when the permits are missing, wakes nobody and loses nothing. */
  lemma FirstPollParks(s: State, i: nat, strategy: int -> QueueStrategy)
    requires CanPoll(s, PollLoad(i)) && s.lock == None
    ensures ParksOnly(s, FirstPollAlone(s, i, strategy), i)
    ensures var s' := FirstPollAlone(s, i, strategy);
      && s'.woken == s.woken && s'.ledger == s.ledger && s'.releases == s.releases && s'.attempts == s.attempts
      && s'.lock == None
  {
    hide FirstPollAlone, PushStep, At, ParksOnly;
    FirstPollIs(s, i, strategy);
    PushKeepsRest(s, i, strategy);
    FirstPollParksOnly(s, i, strategy);
  }

  /** From `s` to `s'` only future `i` changes: it is parked if its permits were missing, and otherwise done. */
  ghost predicate ParksOnly(s: State, s': State, i: int)
    requires 0 <= i < |s.futs|
  {
    && |s'.futs| == |s.futs| && s'.futs == s.futs[i := s'.futs[i]]
    && s'.futs[i].pc == (if !s.closed && s.count < s.futs[i].needs then Parked else Done)
  }

  lemma FirstPollParksOnly(s: State, i: nat, strategy: int -> QueueStrategy)
    requires CanPoll(s, PollLoad(i)) && s.lock == None
    ensures ParksOnly(s, FirstPollAlone(s, i, strategy), i)
  {
    hide FirstPollAlone, PushStep, At;
    FirstPollIs(s, i, strategy);
  }

  /** An uninterrupted first poll is the atomic one; the permits it takes off the word end up in a guard. */
  lemma FirstPollIsAtomic(s: State, i: nat, strategy: int -> QueueStrategy)
    requires Structure(s, strategy) && CanPoll(s, PollLoad(i)) && s.lock == None && AllReadable(s.futs, s.queues)
    ensures var f, s' := s.futs[i], FirstPollAlone(s, i, strategy);
      && AllReadable(s'.futs, s'.queues)
      && Abstract(s') == A.Apply(Abstract(s), A.Poll(Entry(i, f.priority, f.needs, Waiting, Some(i))), strategy)
      && s'.guards == s.guards + (if !s.closed && s.count >= f.needs then [Guard(f.needs)] else [])
  {
    hide FirstPollAlone, View, PushStep;
    var f := s.futs[i];
    StructureStage(s, i, strategy);
    FirstPollIs(s, i, strategy);
    if s.closed || s.count >= f.needs {
      ViewSame(s.futs, s.futs[i := f.(pc := Done)], s.queues, i);
    } else {
      PushKeepsRest(s, i, strategy);
      ViewPush(s, i, f.(pc := Parked, handle := Some(Waiting), arrival := s.next, waker := Some(i)), strategy);
    }
  }

  lemma PushKeepsRest(s: State, i: nat, strategy: int -> QueueStrategy)
    requires i < |s.futs|
    ensures var s' := PushStep(s, i, strategy);
      && s'.count == s.count && s'.closed == s.closed && s'.guards == s.guards && s'.lock == None
      && s'.woken == s.woken && s'.ledger == s.ledger && s'.releases == s.releases && s'.attempts == s.attempts
  {
  }

  /**
   An uninterrupted later poll is the atomic one; the permits reserved for a notified future end up in a guard. A
   future that still waits parks again, and what woke it before no longer counts.
   */
  lemma LaterPollIsAtomic(s: State, i: nat, strategy: int -> QueueStrategy)
    requires Structure(s, strategy) && CanPoll(s, PollAgain(i)) && AllReadable(s.futs, s.queues)
    ensures var f, s' := s.futs[i], LaterPollAlone(s, i, strategy);
      && AllReadable(s'.futs, s'.queues)
      && Abstract(s') == A.Apply(Abstract(s), A.Repoll(i, i), strategy)
      && s'.guards == s.guards + (if f.handle == Some(Notified) && !s.closed then [Guard(f.needs)] else [])
      && s'.woken == s.woken - {i} && s'.lock == s.lock && s'.releases == s.releases
      && s'.futs == s.futs[i := s'.futs[i]] && s'.futs[i].pc == (if f.handle == Some(Waiting) then Parked else Done)
  {
    hide LookAlone, View;
    StructureStage(s, i, strategy);
    LookIs(Poll(s, PollAgain(i), strategy), i, strategy);
    ViewEdit(s.futs, LaterPollAlone(s, i, strategy).futs, s.queues, i, A.Rearm(i));
  }

  /** The drop of a future is the atomic one. */
  lemma DropIsAtomic(s: State, i: nat, strategy: int -> QueueStrategy)
    requires CanPoll(s, DropFuture(i)) && AllReadable(s.futs, s.queues)
    ensures var s' := Poll(s, DropFuture(i), strategy);
      AllReadable(s'.futs, s'.queues) && Abstract(s') == A.Apply(Abstract(s), A.Drop(i), strategy)
  {
    hide View;
    ViewEdit(s.futs, DropStep(s, i).futs, s.queues, i, A.Cancel());
  }

  /** A close that nobody interrupts is the atomic one, and wakes those it cancels that have stored a waker. */
  lemma CloseIsAtomic(s: State, strategy: int -> QueueStrategy)
    requires AllReadable(s.futs, s.queues) && s.lock == None
    ensures var s' := Close(Close(s, SetClosed), Drain);
      && AllReadable(s'.futs, s'.queues) && Abstract(s') == A.Apply(Abstract(s), A.Close, strategy)
      && s'.futs == CancelQueued(s.futs, s.queues) && s'.woken == s.woken + Sleepers(s.futs, s.queues)
      && s'.closers == s.closers && s'.drained
    ensures Structure(s, strategy) ==> (
        var s' := Close(Close(s, SetClosed), Drain);
        && |s'.futs| == |s.futs|
        && (forall i | 0 <= i < |s.futs| ::
              && s'.futs[i] == (if s.futs[i].handle == Some(Waiting) then s.futs[i].(handle := Some(Cancelled)) else s.futs[i])
              && (i in s'.woken <==> i in s.woken || (s.futs[i].handle == Some(Waiting) && s.futs[i].waker.Some?))))
  {
    var s' := Close(Close(s, SetClosed), Drain);
    if Structure(s, strategy) {
      forall i | 0 <= i < |s.futs| ensures s.futs[i].handle == Some(Waiting) ==> i in At(s.queues, s.futs[i].priority) {
        StructureStage(s, i, strategy);
      }
    }
    assert View(s'.futs, s'.queues, {}) == map[];
  }
}
