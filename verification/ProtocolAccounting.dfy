/** Where the permits are, in every interleaving: none appears from nowhere, and all are accounted for. */
module ProtocolAccounting {
  import opened Basics
  import opened Config
  import opened Selection
  import opened SelectionLaws
  import opened Protocol
  import opened ProtocolStructure
  import opened ProtocolSelection

  function Total<T>(xs: seq<T>, weight: T -> nat): nat {
    if xs == [] then 0 else weight(xs[0]) + Total(xs[1..], weight)
  }

  lemma {:induction false} TotalAppend<T>(xs: seq<T>, x: T, weight: T -> nat)
    ensures Total(xs + [x], weight) == Total(xs, weight) + weight(x)
  {
    if xs == [] {
      assert (xs + [x])[1..] == [];
    } else {
      TotalAppend(xs[1..], x, weight);
      assert (xs + [x])[1..] == xs[1..] + [x];
    }
  }

  lemma {:induction false} TotalUpdate<T>(xs: seq<T>, i: nat, x: T, weight: T -> nat)
    requires i < |xs|
    ensures Total(xs[i := x], weight) + weight(xs[i]) == Total(xs, weight) + weight(x)
  {
    if i == 0 {
      assert xs[0 := x][1..] == xs[1..];
    } else {
      TotalUpdate(xs[1..], i - 1, x, weight);
      assert xs[i := x][1..] == xs[1..][i - 1 := x];
    }
  }

  /** Permits that a notified future may still claim. */
  function Reserve(f: Future): nat {
    if f.handle == Some(Notified) && f.pc != Done && f.pc != Dropped then f.needs else 0
  }

  function Carried(r: Release): nat {
    if r.Finished? then 0 else r.rem
  }

  function Weight(g: Guard): nat {
    g.permits
  }

  ghost function Held(s: State): nat {
    Total(s.guards, Weight)
  }

  ghost function Reserved(s: State): nat {
    Total(s.futs, Reserve)
  }

  ghost function InFlight(s: State): nat {
    Total(s.releases, Carried)
  }

  /** Permits outside the word that can still be used, and those lost for good. */
  ghost function Outside(s: State): nat {
    Held(s) + Reserved(s) + InFlight(s) + s.ledger.stranded
  }

  ghost predicate Accounted(s: State) {
    && s.count + Outside(s) + s.ledger.forgotten == s.ledger.supply + s.ledger.phantom
    && (!s.closed ==> s.ledger.phantom == 0)
    && Outside(s) <= s.ledger.supply
  }

  /**
   One step changes the books by what it does to the supply and by permits given back twice; and once the
   semaphore is closed nothing more leaves the word.
   */
  ghost predicate Balanced(s: State, s': State) {
    && s'.count + Outside(s') + s'.ledger.forgotten + s.ledger.supply + s.ledger.phantom
       == s.count + Outside(s) + s.ledger.forgotten + s'.ledger.supply + s'.ledger.phantom
    && (s.closed ==> s'.closed && Outside(s') + s.ledger.supply <= Outside(s) + s'.ledger.supply && Held(s') <= Held(s))
    && (!s.closed ==> s'.ledger.phantom == s.ledger.phantom)
    && s.ledger.supply <= s'.ledger.supply
  }

  lemma BalancedKeepsAccounted(s: State, s': State)
    requires Accounted(s) && Balanced(s, s')
    ensures Accounted(s')
  {
  }

  lemma PollBalances(s: State, a: PollAction, strategy: int -> QueueStrategy)
    requires Structure(s, strategy) && CanPoll(s, a)
    ensures Balanced(s, Poll(s, a, strategy))
  {
    hide Structure, Total;
    var s' := Poll(s, a, strategy);
    if a.NewFuture? {
      TotalAppend(s.futs, Future(a.needs, a.priority, Fresh, None, None, 0), Reserve);
    } else {
      StructureStage(s, a.i, strategy);
      TotalUpdate(s.futs, a.i, s'.futs[a.i], Reserve);
      TotalAppend(s.guards, Guard(s.futs[a.i].needs), Weight);
    }
  }

  lemma HoldBalances(s: State, a: HolderAction)
    requires CanHold(s, a)
    ensures Balanced(s, Hold(s, a))
  {
    hide Total;
    match a
    case TryNothing => TotalAppend(s.guards, Guard(0), Weight);
    case TryLoad(n) =>
    case TryExchange(a, spurious) => TotalAppend(s.guards, Guard(s.attempts[a].n), Weight);
    case SplitGuard(g, n) =>
      var left := Guard(s.guards[g].permits - n);
      TotalUpdate(s.guards, g, left, Weight);
      TotalAppend(s.guards[g := left], Guard(n), Weight);
    case MergeGuards(g, h) =>
      var merged := Merged(s.guards[g], s.guards[h]);
      TotalUpdate(s.guards, g, merged, Weight);
      TotalUpdate(s.guards[g := merged], h, Guard(0), Weight);
    case ForgetGuard(g) => TotalUpdate(s.guards, g, Guard(0), Weight);
    case ForgetPermits(n) =>
  }

  lemma CloseBalances(s: State, a: CloseAction, strategy: int -> QueueStrategy)
    requires CanClose(s, a)
    ensures Balanced(s, Close(s, a))
  {
    if a.Drain? { CancelKeepsReserved(s.futs, CancelQueued(s.futs, s.queues)); }
  }

  lemma {:induction false} CancelKeepsReserved(futs: seq<Future>, after: seq<Future>)
    requires |after| == |futs| && forall i | 0 <= i < |futs| :: Reserve(after[i]) == Reserve(futs[i])
    ensures Total(after, Reserve) == Total(futs, Reserve)
  {
    if futs != [] {
      forall i | 0 <= i < |futs[1..]| ensures Reserve(after[1..][i]) == Reserve(futs[1..][i]) {
        assert Reserve(after[i + 1]) == Reserve(futs[i + 1]);
      }
      CancelKeepsReserved(futs[1..], after[1..]);
    }
  }

  // The selection step.

  /** Future `e.id` waits in the queue, and `e` says what it needs. */
  ghost predicate Grantable(futs: seq<Future>, e: Entry) {
    && e.id < |futs| && futs[e.id].handle == Some(Waiting) && InQueueStage(futs[e.id].pc) && futs[e.id].needs == e.needs
  }

  ghost predicate DistinctIds(es: seq<Entry>) {
    forall j, k | 0 <= j < k < |es| :: es[j].id != es[k].id
  }

  /** Notifying reserves exactly the demands of the notified, except those whose drop raced. */
  lemma {:induction false} NotifyAllReserves(futs: seq<Future>, es: seq<Entry>, raced: set<int>)
    requires DistinctIds(es) && forall e | e in es :: Grantable(futs, e)
    ensures Total(NotifyAll(futs, es, raced), Reserve) + RacedNeeds(es, raced) == Total(futs, Reserve) + Needs(es)
    decreases |es|
  {
    hide Total;
    if es != [] {
      var i := es[0].id;
      assert Grantable(futs, es[0]);
      var futs' := futs[i := Notify(futs[i], i in raced)];
      forall e | e in es[1..] ensures Grantable(futs', e) {
        var k :| 0 <= k < |es[1..]| && es[1..][k] == e;
        assert Grantable(futs, es[k + 1]) && es[0].id != es[k + 1].id;
      }
      NotifyAllReserves(futs', es[1..], raced);
      TotalUpdate(futs, i, futs'[i], Reserve);
    }
  }

  lemma TwiceInBag<T>(es: seq<T>, j: nat, k: nat)
    requires j < k < |es| && es[j] == es[k]
    ensures multiset(es)[es[j]] >= 2
  {
    assert es == es[..k] + es[k..];
    assert es[j] in es[..k] && es[j] in es[k..];
  }

  lemma ChosenAreGrantable(s: State, r: nat, raced: set<int>, strategy: int -> QueueStrategy)
    requires Selects(s, r, raced, strategy)
    ensures var notified := Chosen(s, r, raced).notified;
      DistinctIds(notified) && forall e | e in notified :: Grantable(s.futs, e)
  {
    hide Select, Flatten, Structure;
    var notified := Chosen(s, r, raced).notified;
    forall e | e in notified ensures Grantable(s.futs, e) && Shows(s.futs, raced, e) && multiset(notified)[e] <= 1 {
      ChosenFates(s, r, raced, strategy, e);
      StructureStage(s, e.id, strategy);
    }
    forall j, k | 0 <= j < k < |notified| ensures notified[j].id != notified[k].id {
      assert Shows(s.futs, raced, notified[j]) && Shows(s.futs, raced, notified[k]);
      if notified[j] == notified[k] { TwiceInBag(notified, j, k); }
    }
  }

  lemma SelectBalances(s: State, r: nat, raced: set<int>, strategy: int -> QueueStrategy)
    requires Structure(s, strategy) && CanRelease(s, ReleaseSelect(r, raced))
    ensures Balanced(s, SelectStep(s, r, raced))
  {
    hide Select, Flatten, Structure, Total, NotifyAll, Needs, Tasks, View;
    var s' := SelectStep(s, r, raced);
    TotalUpdate(s.releases, r, s'.releases[r], Carried);
    if Flatten(s.queues) != [] {
      var notified := Chosen(s, r, raced).notified;
      ChosenAreGrantable(s, r, raced, strategy);
      NotifyAllReserves(s.futs, notified, raced);
      SelectWithinLimits(View(s.futs, s.queues, raced), s.heap, s.releases[r].rem);
    }
  }

  lemma ReleaseBalances(s: State, a: ReleaseAction, strategy: int -> QueueStrategy)
    requires Structure(s, strategy) && CanRelease(s, a)
    ensures Balanced(s, ReleaseBy(s, a))
  {
    hide Structure, Total, SelectStep;
    match a
    case AddPermits(n) => TotalAppend(s.releases, Starting(n), Carried);
    case DropGuard(g) =>
      TotalUpdate(s.guards, g, Guard(0), Weight);
      TotalAppend(s.releases, Starting(s.guards[g].permits), Carried);
    case ReleaseSelect(r, raced) => SelectBalances(s, r, raced, strategy);
    case ReleaseChecked(r) => TotalUpdate(s.releases, r, CheckStep(s, r).releases[r], Carried);
    case ReleaseWake(r) => TotalUpdate(s.releases, r, Adding(s.releases[r].rem), Carried);
    case ReleaseAdd(r) => TotalUpdate(s.releases, r, Finished, Carried);
  }
}
