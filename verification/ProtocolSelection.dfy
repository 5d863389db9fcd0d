/** What the selection step of a release does to the queue and the futures in it. */
module ProtocolSelection {
  import opened Basics
  import opened Config
  import opened Selection
  import opened SelectionLaws
  import opened SelectionOrder
  import opened Protocol
  import opened ProtocolStructure

  function ByRank(futs: seq<Future>, strategy: int -> QueueStrategy): Entry -> int {
    (e: Entry) => Rank(futs, strategy, e.id)
  }

  /** `e` is how future `e.id` looks. */
  ghost predicate Shows(futs: seq<Future>, raced: set<int>, e: Entry) {
    e.id < |futs| && futs[e.id].handle.Some? && e == EntryOf(futs, e.id, raced)
  }

  lemma SlotsAreReadable(s: State)
    requires Slots(s)
    ensures AllReadable(s.futs, s.queues)
  {
    forall p, k | p in s.queues && 0 <= k < |s.queues[p]|
      ensures 0 <= s.queues[p][k] < |s.futs| && s.futs[s.queues[p][k]].handle.Some?
    {
      assert s.queues[p][k] in At(s.queues, p);
      assert Slot(s, p, s.queues[p][k]);
    }
  }

  /** The view of one queue: the same futures in the same order. */
  lemma ViewAt(s: State, raced: set<int>, p: int)
    requires AllReadable(s.futs, s.queues)
    ensures var q, es := At(s.queues, p), At(View(s.futs, s.queues, raced), p);
      |es| == |q| && forall k | 0 <= k < |q| :: 0 <= q[k] && es[k].id == q[k] && Shows(s.futs, raced, es[k])
  {
    if p in s.queues { assert Readable(s.futs, s.queues[p]); }
  }

  lemma ViewShows(s: State, raced: set<int>, p: int, e: Entry)
    requires Slots(s) && AllReadable(s.futs, s.queues)
    ensures e in At(View(s.futs, s.queues, raced), p) <==> Shows(s.futs, raced, e) && e.id as int in At(s.queues, p)
  {
    ViewAt(s, raced, p);
    var q, es := At(s.queues, p), At(View(s.futs, s.queues, raced), p);
    if e in es {
      var k :| 0 <= k < |es| && es[k] == e;
      assert q[k] == e.id;
    }
    if Shows(s.futs, raced, e) && e.id as int in q {
      var k :| 0 <= k < |q| && q[k] == e.id;
      assert es[k] == e;
    }
  }

  /** Seen by a selection, the queue is filed by priority, sorted by rank, and matched by the heap. */
  lemma ViewIsOrderly(s: State, raced: set<int>, strategy: int -> QueueStrategy)
    requires Structure(s, strategy) && AllReadable(s.futs, s.queues)
    ensures var v := View(s.futs, s.queues, raced);
      && Filed(v) && HeapExact(v, s.heap)
      && (Flatten(v) == [] <==> Flatten(s.queues) == [])
      && forall p :: Increasing(At(v, p), ByRank(s.futs, strategy))
  {
    hide Flatten;
    var v := View(s.futs, s.queues, raced);
    forall p ensures |At(v, p)| == |At(s.queues, p)| && Increasing(At(v, p), ByRank(s.futs, strategy))
      ensures forall k | 0 <= k < |At(v, p)| :: At(v, p)[k].priority == p
    {
      ViewAt(s, raced, p);
      assert Sorted(s.futs, At(s.queues, p), strategy);
      forall k | 0 <= k < |At(v, p)| ensures At(v, p)[k].priority == p {
        assert Slot(s, p, At(s.queues, p)[k]);
      }
    }
    FlattenEmpty(v);
    FlattenEmpty(s.queues);
  }

  predicate Names(es: seq<Entry>, i: int) {
    exists k | 0 <= k < |es| :: es[k].id == i
  }

  /** Notifying a list notifies those it names and nobody else. */
  lemma {:induction false} NotifyAllAt(futs: seq<Future>, es: seq<Entry>, raced: set<int>, i: int)
    requires 0 <= i < |futs|
    ensures NotifyAll(futs, es, raced)[i] == if Names(es, i) then Notify(futs[i], i in raced) else futs[i]
    decreases |es|
  {
    if es != [] {
      var j := es[0].id;
      var futs' := if j < |futs| then futs[j := Notify(futs[j], j in raced)] else futs;
      NotifyAllAt(futs', es[1..], raced, i);
      assert Names(es, i) <==> j == i || Names(es[1..], i) by {
        if Names(es, i) && j != i {
          var k :| 0 <= k < |es| && es[k].id == i;
          assert es[1..][k - 1].id == i;
        }
        if Names(es[1..], i) {
          var k :| 0 <= k < |es[1..]| && es[1..][k].id == i;
          assert es[k + 1].id == i;
        }
      }
    }
  }

  /** A running selection on a sound state that has somebody queued. */
  ghost predicate Selects(s: State, r: nat, raced: set<int>, strategy: int -> QueueStrategy) {
    Structure(s, strategy) && CanRelease(s, ReleaseSelect(r, raced)) && Flatten(s.queues) != []
  }

  ghost predicate Served(s: State, r: nat, raced: set<int>, i: int)
    requires CanRelease(s, ReleaseSelect(r, raced))
  {
    Names(Chosen(s, r, raced).notified, i)
  }

  /** What the selection's result says about an entry: who is in it, and where. */
  lemma ChosenFates(s: State, r: nat, raced: set<int>, strategy: int -> QueueStrategy, e: Entry)
    requires Selects(s, r, raced, strategy)
    ensures var sel := Chosen(s, r, raced);
      && ((e in sel.notified || e in sel.purged || e in At(sel.queues, e.priority)) <==>
          (Shows(s.futs, raced, e) && e.id as int in At(s.queues, e.priority)))
      && !(e in sel.notified && e in At(sel.queues, e.priority))
      && multiset(sel.notified)[e] <= 1
      && (e in sel.notified ==> e.status == Waiting) && (e in sel.purged ==> e.status == Cancelled)
  {
    hide Select, Flatten, Shows;
    var v := View(s.futs, s.queues, raced);
    ViewIsOrderly(s, raced, strategy);
    ViewShows(s, raced, e.priority, e);
    SelectFates(v, s.heap, s.releases[r].rem, ByRank(s.futs, strategy), e);
    if e in Chosen(s, r, raced).notified { ShownInSlot(s, raced, e); }
  }

  lemma ShownInSlot(s: State, raced: set<int>, e: Entry)
    requires Slots(s) && Shows(s.futs, raced, e) && e.id as int in At(s.queues, e.priority)
    ensures e.status != Notified && s.futs[e.id].priority == e.priority
  {
    assert Slot(s, e.priority, e.id);
  }

  lemma ChosenQueues(s: State, r: nat, raced: set<int>, strategy: int -> QueueStrategy, p: int)
    requires Selects(s, r, raced, strategy)
    ensures var q := At(Chosen(s, r, raced).queues, p);
      && Increasing(q, ByRank(s.futs, strategy))
      && forall k | 0 <= k < |q| :: q[k].priority == p
  {
    hide Select, Flatten;
    var v := View(s.futs, s.queues, raced);
    ViewIsOrderly(s, raced, strategy);
    SelectKeepsOrder(v, s.heap, s.releases[r].rem, p, ByRank(s.futs, strategy));
    SelectTakesPrefix(v, s.heap, s.releases[r].rem, p);
  }

  /** The fate of one future in a selection. */
  ghost predicate Fate(s: State, s': State, r: nat, raced: set<int>, i: int)
    requires CanRelease(s, ReleaseSelect(r, raced)) && 0 <= i < |s.futs| == |s'.futs|
  {
    var f := s.futs[i];
    && s'.futs[i] == (if Served(s, r, raced, i) then Notify(f, i in raced) else f)
    && (Served(s, r, raced, i) ==> f.handle == Some(Waiting) && i in At(s.queues, f.priority))
    && (f.handle == Some(Waiting) && i in At(s.queues, f.priority) && !Served(s, r, raced, i) ==> i in At(s'.queues, f.priority))
    && forall p | i in At(s'.queues, p) :: i in At(s.queues, p) && !Served(s, r, raced, i)
  }

  lemma IdsMember(es: seq<Entry>, i: int)
    ensures i in Ids(es) <==> Names(es, i)
  {
    if i in Ids(es) {
      var k :| 0 <= k < |Ids(es)| && Ids(es)[k] == i;
      assert es[k].id == i;
    }
    if Names(es, i) {
      var k :| 0 <= k < |es| && es[k].id == i;
      assert Ids(es)[k] == i;
    }
  }

  lemma NamedEntry(es: seq<Entry>, i: int) returns (e: Entry)
    requires Names(es, i)
    ensures e in es && e.id == i
  {
    var k :| 0 <= k < |es| && es[k].id == i;
    e := es[k];
  }

  lemma SelectFate(s: State, r: nat, raced: set<int>, strategy: int -> QueueStrategy, i: int)
    requires Selects(s, r, raced, strategy) && 0 <= i < |s.futs|
    ensures Fate(s, SelectStep(s, r, raced), r, raced, i)
  {
    hide Select, Flatten, Names, NotifyAll, Structure;
    var f := s.futs[i];
    var sel, s' := Chosen(s, r, raced), SelectStep(s, r, raced);
    NotifyAllAt(s.futs, sel.notified, raced, i);
    if Served(s, r, raced, i) {
      var e := NamedEntry(sel.notified, i);
      ChosenFates(s, r, raced, strategy, e);
    }
    if f.handle == Some(Waiting) && i in At(s.queues, f.priority) && !Served(s, r, raced, i) {
      var e := EntryOf(s.futs, i, raced);
      ChosenFates(s, r, raced, strategy, e);
      EntryNames(sel.notified, e);
      EntryNames(At(sel.queues, f.priority), e);
      IdsMember(At(sel.queues, f.priority), i);
    }
    forall p | i in At(s'.queues, p) ensures i in At(s.queues, p) && !Served(s, r, raced, i) {
      IdsMember(At(sel.queues, p), i);
      var e := NamedEntry(At(sel.queues, p), i);
      ChosenQueues(s, r, raced, strategy, p);
      ChosenFates(s, r, raced, strategy, e);
      if Served(s, r, raced, i) {
        var d := NamedEntry(sel.notified, i);
        ChosenFates(s, r, raced, strategy, d);
      }
    }
  }

  lemma EntryNames(es: seq<Entry>, e: Entry)
    ensures e in es ==> Names(es, e.id)
  {
  }

  lemma KeptInRange(s: State, r: nat, raced: set<int>, strategy: int -> QueueStrategy, p: int, i: int)
    requires Selects(s, r, raced, strategy) && i in At(SelectStep(s, r, raced).queues, p)
    ensures 0 <= i < |s.futs|
  {
    hide Select, Flatten, Structure, Names;
    var sel := Chosen(s, r, raced);
    IdsMember(At(sel.queues, p), i);
    var e := NamedEntry(At(sel.queues, p), i);
    ChosenQueues(s, r, raced, strategy, p);
    ChosenFates(s, r, raced, strategy, e);
  }

  lemma SelectKeepsPlaces(s: State, r: nat, raced: set<int>, strategy: int -> QueueStrategy)
    requires Selects(s, r, raced, strategy)
    ensures Slots(SelectStep(s, r, raced)) && Stages(SelectStep(s, r, raced))
  {
    hide Select, Flatten, NotifyAll, Names;
    var s' := SelectStep(s, r, raced);
    forall p, i | i in At(s'.queues, p) ensures Slot(s', p, i) {
      KeptInRange(s, r, raced, strategy, p, i);
      SelectFate(s, r, raced, strategy, i);
      assert Slot(s, p, i);
    }
    forall i | 0 <= i < |s'.futs| ensures Stage(s', i) {
      SelectFate(s, r, raced, strategy, i);
      assert Stage(s, i);
    }
  }

  lemma SelectKeepsSorted(s: State, r: nat, raced: set<int>, strategy: int -> QueueStrategy, p: int)
    requires Selects(s, r, raced, strategy)
    ensures Sorted(SelectStep(s, r, raced).futs, At(SelectStep(s, r, raced).queues, p), strategy)
  {
    hide Select, Flatten, NotifyAll, Names, Structure;
    var s', sel := SelectStep(s, r, raced), Chosen(s, r, raced);
    ChosenQueues(s, r, raced, strategy, p);
    forall i | 0 <= i < |s.futs|
      ensures s'.futs[i].priority == s.futs[i].priority && s'.futs[i].arrival == s.futs[i].arrival
    {
      NotifyAllAt(s.futs, sel.notified, raced, i);
    }
    assert Sorted(s.futs, At(s'.queues, p), strategy) by {
      assert forall k | 0 <= k < |At(sel.queues, p)| ::
          Rank(s.futs, strategy, At(s'.queues, p)[k]) == ByRank(s.futs, strategy)(At(sel.queues, p)[k]);
    }
    SortedFrame(s.futs, s'.futs, At(s'.queues, p), strategy);
  }

  lemma SelectKeepsExactHeap(s: State, r: nat, raced: set<int>, strategy: int -> QueueStrategy)
    requires Selects(s, r, raced, strategy)
    ensures HeapExact(SelectStep(s, r, raced).queues, SelectStep(s, r, raced).heap)
  {
    hide Select, Flatten, Structure;
    var v, sel := View(s.futs, s.queues, raced), Chosen(s, r, raced);
    ViewIsOrderly(s, raced, strategy);
    SelectKeepsHeap(v, s.heap, s.releases[r].rem);
    forall p ensures |At(IdQueues(sel.queues), p)| == |At(sel.queues, p)| {}
  }

  lemma SelectKeepsStructure(s: State, r: nat, raced: set<int>, strategy: int -> QueueStrategy)
    requires Structure(s, strategy) && CanRelease(s, ReleaseSelect(r, raced))
    ensures Structure(SelectStep(s, r, raced), strategy)
  {
    hide Select, Flatten, Names, Slots, Stages, Sorted, HeapExact, Stage, Slot;
    var s' := SelectStep(s, r, raced);
    if Flatten(s.queues) == [] {
      FrameKeepsStructure(s, s', strategy);
    } else {
      SelectKeepsPlaces(s, r, raced, strategy);
      forall p ensures Sorted(s'.futs, At(s'.queues, p), strategy) {
        SelectKeepsSorted(s, r, raced, strategy, p);
      }
      SelectKeepsExactHeap(s, r, raced, strategy);
      FlattenEmpty(s.queues);
    }
  }
}
