/**
 When a selection is the greedy descent over the live waiters alone, as if nobody cancelled were queued. It is not
 always: the general path looks at the first waiter of a priority before it enters it, cancelled or not.
 */
module LiveGreedy {
  import opened Basics
  import opened Selection
  import opened SelectionLaws
  import opened GreedySelection
  import opened DeadWaiters

  /** The queues without their cancelled waiters. */
  ghost function Alive(queues: Queues): Queues {
    map p | p in queues :: Live(queues[p])
  }

  /** The priorities that have a live waiter. */
  ghost function LiveKeys(queues: Queues, keys: set<int>): set<int> {
    set p | p in keys && Live(At(queues, p)) != []
  }

  lemma AliveAt(queues: Queues, p: int)
    ensures At(Alive(queues), p) == Live(At(queues, p))
    ensures NoneCancelled(Live(At(queues, p)))
  {
    LiveOrDead(At(queues, p));
  }

  lemma LiveKeysTop(queues: Queues, keys: set<int>)
    requires keys != {}
    ensures var p, live := MaxKey(keys), LiveKeys(queues, keys);
      && (Live(At(queues, p)) == [] ==> live == LiveKeys(queues, keys - {p}))
      && (Live(At(queues, p)) != [] ==> live != {} && MaxKey(live) == p && live - {p} == LiveKeys(queues, keys - {p}))
  {
    var p, live, others := MaxKey(keys), LiveKeys(queues, keys), LiveKeys(queues, keys - {MaxKey(keys)});
    if Live(At(queues, p)) == [] {
      assert live == others;
    } else {
      assert p in live;
      assert live - {p} == others;
    }
  }

  /** There is no live waiter, or the first one of the highest priority that has one does not fit. */
  ghost predicate FirstTooBig(queues: Queues, keys: set<int>, budget: nat) {
    var live := LiveKeys(queues, keys);
    live != {} ==> Live(At(queues, MaxKey(live)))[0].needs > budget
  }

  /**
   The cancelled waiters make no difference to a walk down the `keys`. Where the first waiter does not fit and stops the
   walk, nobody live would be served either; where it fits and the first live one does not, nobody is reached below;
   and elsewhere no cancelled waiter blocks.
   */
  ghost predicate Invisible(queues: Queues, keys: set<int>, budget: nat, room: nat)
    requires forall p | p in keys :: At(queues, p) != []
    decreases keys
  {
    keys == {} || budget == 0 || room == 0 ||
    var p := MaxKey(keys);
    var q := At(queues, p);
    var s := Scan(q, budget, room, true);
    if q[0].needs > budget then FirstTooBig(queues, keys, budget)
    else if Live(q) != [] && Live(q)[0].needs > budget then !Reaches(queues, keys - {p}, budget)
    else !DeadBlocks(q, budget, room)
         && Invisible(queues, keys - {p}, budget - Needs(s.notified), room - |Tasks(s.notified)|)
  }

  lemma InvisibleUnfold(queues: Queues, keys: set<int>, budget: nat, room: nat)
    requires forall p | p in keys :: At(queues, p) != []
    ensures Invisible(queues, keys, budget, room) <==> (
      keys == {} || budget == 0 || room == 0 ||
      var p := MaxKey(keys);
      var q := At(queues, p);
      var s := Scan(q, budget, room, true);
      if q[0].needs > budget then FirstTooBig(queues, keys, budget)
      else if Live(q) != [] && Live(q)[0].needs > budget then !Reaches(queues, keys - {p}, budget)
      else !DeadBlocks(q, budget, room)
           && Invisible(queues, keys - {p}, budget - Needs(s.notified), room - |Tasks(s.notified)|))
  {
  }

  // One queue.

  lemma LiveHead(q: seq<Entry>)
    requires q != []
    ensures q[0].status == Cancelled ==> Live(q) == Live(q[1..])
    ensures q[0].status != Cancelled ==> Live(q) != [] && Live(q)[0] == q[0] && Live(q)[1..] == Live(q[1..])
  {
  }

  lemma ScanHead(q: seq<Entry>, budget: nat, room: nat)
    requires q != [] && budget > 0 && room > 0
    ensures q[0].status == Cancelled ==> Scan(q, budget, room, false).notified == Scan(q[1..], budget, room, false).notified
    ensures q[0].status != Cancelled && q[0].needs > budget ==> Scan(q, budget, room, false).notified == []
    ensures q[0].status != Cancelled && q[0].needs <= budget ==>
      Scan(q, budget, room, false).notified
      == [q[0]] + Scan(q[1..], budget - q[0].needs, room - |TaskOf(q[0])|, false).notified
  {
  }

  lemma ScanNothing(q: seq<Entry>, budget: nat, room: nat)
    requires q == [] || budget == 0 || room == 0
    ensures Scan(q, budget, room, false).notified == []
  {
  }

  lemma {:induction false} ScanOfLive(q: seq<Entry>, budget: nat, room: nat)
    ensures Scan(q, budget, room, false).notified == Scan(Live(q), budget, room, false).notified
  {
    if q == [] {
      assert Live(q) == q;
    } else if budget == 0 || room == 0 {
      ScanNothing(q, budget, room);
      ScanNothing(Live(q), budget, room);
    } else {
      hide Live, Scan;
      LiveHead(q);
      ScanHead(q, budget, room);
      if q[0].status == Cancelled {
        ScanOfLive(q[1..], budget, room);
      } else {
        ScanHead(Live(q), budget, room);
        if q[0].needs <= budget { ScanOfLive(q[1..], budget - q[0].needs, room - |TaskOf(q[0])|); }
      }
    }
  }

  /** Tested for cancellation first, a queue is served like its live waiters alone. */
  lemma SingleIsFit(q: seq<Entry>, budget: nat, room: nat)
    requires AllPositive(Live(q)) && room > 0
    ensures Scan(q, budget, room, false).notified == Live(q)[..LongestFit(Live(q), |Live(q)|, budget, room)]
  {
    LiveOrDead(q);
    ScanOfLive(q, budget, room);
    ScanIsLongestFit(Live(q), budget, room, false);
  }

  /** A blocked scan takes less than the longest fit. */
  lemma BlockedTakesLess(q: seq<Entry>, budget: nat, room: nat)
    requires DeadBlocks(q, budget, room)
    ensures var taken := Scan(q, budget, room, true).notified;
      |taken| < LongestFit(Live(q), |Live(q)|, budget, room)
  {
    hide Scan, DeadBlocks, Live;
    var s := Scan(q, budget, room, true);
    var live, m := Live(q), |s.notified|;
    ScanTakesLivePrefix(q, budget, room, true);
    ScanStopsEarlyIff(q, budget, room);
    assert live[..m] == s.notified && live[m] == Live(s.rest)[0];
    assert live[..m + 1] == s.notified + [live[m]];
    NeedsConcat(s.notified, [live[m]]);
    assert live[..m + 1][..m] == live[..m];
    OneNeeds(live[m]);
    assert Fits(live, m + 1, budget, room);
  }

  lemma OneNeeds(e: Entry)
    ensures Needs([e]) == e.needs
  {
    assert [e][1..] == [];
  }

  // The descent.

  lemma GreedyNobodyIff(queues: Queues, keys: set<int>, budget: nat, room: nat)
    requires budget > 0 && room > 0
    ensures Greedy(Alive(queues), LiveKeys(queues, keys), budget, room) == [] <==> FirstTooBig(queues, keys, budget)
  {
    hide LongestFit, Live, Needs, Tasks;
    var live := LiveKeys(queues, keys);
    if live != {} {
      var p := MaxKey(live);
      var q := At(Alive(queues), p);
      AliveAt(queues, p);
      HeadFits(q, budget, room);
      var n := LongestFit(q, |q|, budget, room);
      if n > 0 {
        TasksOfPrefix(q, n, room);
        assert q[..n] != [];
      }
    }
  }

  /** A round of the descent at a priority whose first live waiter fits. */
  lemma GreedyRound(queues: Queues, keys: set<int>, budget: nat, room: nat)
    requires keys != {} && budget > 0 && room > 0
    requires var live := Live(At(queues, MaxKey(keys))); live != [] && live[0].needs <= budget && AllPositive(live)
    ensures var p, q := MaxKey(keys), At(queues, MaxKey(keys));
      var taken := Scan(q, budget, room, false).notified;
      && |taken| == LongestFit(Live(q), |Live(q)|, budget, room) && taken == Live(q)[..|taken|]
      && Greedy(Alive(queues), LiveKeys(queues, keys), budget, room) ==
           taken + Greedy(Alive(queues), LiveKeys(queues, keys - {p}), budget - Needs(taken), room - |Tasks(taken)|)
  {
    hide LongestFit, Live, Needs, Tasks, Scan;
    var p, q := MaxKey(keys), At(queues, MaxKey(keys));
    var live := Live(q);
    AliveAt(queues, p);
    LiveKeysTop(queues, keys);
    HeadFits(live, budget, room);
    SingleIsFit(q, budget, room);
    TasksOfPrefix(live, LongestFit(live, |live|, budget, room), room);
  }

  lemma DeadServesNobody(q: seq<Entry>, budget: nat, room: nat)
    requires Live(q) == []
    ensures Scan(q, budget, room, true).notified == [] && !DeadBlocks(q, budget, room)
  {
    hide Scan, DeadBlocks;
    ScanTakesLivePrefix(q, budget, room, true);
    if DeadBlocks(q, budget, room) { BlockedFits(q, budget, room); }
  }

  /** A walk that has taken less at `p`, and goes on below it, does not end like one that took more. */
  lemma LessIsDifferent(live: seq<Entry>, p: int, m: nat, n: nat, a: seq<Entry>, b: seq<Entry>)
    requires m < n <= |live| && live[m].priority == p && NoneAbove(a, p - 1)
    ensures live[..m] + a != live[..n] + b
  {
    assert (live[..n] + b)[m] == live[m];
    if a != [] { assert (live[..m] + a)[m] == a[0] && a[0] in a; }
  }

  lemma ScanIsPrefix(q: seq<Entry>, budget: nat, room: nat)
    ensures var taken := Scan(q, budget, room, true).notified; |taken| <= |Live(q)| && taken == Live(q)[..|taken|]
  {
    hide Scan, Live;
    ScanTakesLivePrefix(q, budget, room, true);
  }

  lemma LiveIsFiled(queues: Queues, p: int, m: nat)
    requires Filed(queues) && m < |Live(At(queues, p))|
    ensures Live(At(queues, p))[m].priority == p
  {
    LiveOrDead(At(queues, p));
    FiledMembers(queues, p, Live(At(queues, p)));
  }

  lemma BlockedRoundDiffers(queues: Queues, keys: set<int>, budget: nat, room: nat)
    requires Filed(queues) && keys != {} && budget > 0 && room > 0 && forall p | p in keys :: At(queues, p) != []
    requires var q := At(queues, MaxKey(keys)); q[0].needs <= budget && DeadBlocks(q, budget, room) && AllPositive(Live(q))
    ensures SelectMany(queues, multiset(keys), budget, room).notified
         != Greedy(Alive(queues), LiveKeys(queues, keys), budget, room)
  {
    hide SelectMany, Scan, Live, LongestFit, DeadBlocks, Needs, Tasks, Greedy, NoneAbove, Filed, LiveKeys, Alive;
    var p, q := MaxKey(keys), At(queues, MaxKey(keys));
    var s, full := Scan(q, budget, room, true), Scan(q, budget, room, false).notified;
    var later := SelectMany(queues, multiset(keys - {p}), budget - Needs(s.notified), room - |Tasks(s.notified)|).notified;
    ManyRound(queues, keys, budget, room);
    BlockedFits(q, budget, room);
    GreedyRound(queues, keys, budget, room);
    BlockedTakesLess(q, budget, room);
    ScanIsPrefix(q, budget, room);
    SelectManyNoneAbove(queues, multiset(keys - {p}), budget - Needs(s.notified), room - |Tasks(s.notified)|, p - 1);
    LiveIsFiled(queues, p, |s.notified|);
    LessIsDifferent(Live(q), p, |s.notified|, |full|, later,
                    Greedy(Alive(queues), LiveKeys(queues, keys - {p}), budget - Needs(full), room - |Tasks(full)|));
  }

  /** The general path is the greedy descent over the live waiters if and only if the cancelled ones are invisible to it. */
  lemma {:induction false} SelectManyGreedyIff(queues: Queues, keys: set<int>, budget: nat, room: nat)
    requires Positive(Alive(queues)) && forall p | p in keys :: At(queues, p) != []
    ensures var same := SelectMany(queues, multiset(keys), budget, room).notified
                     == Greedy(Alive(queues), LiveKeys(queues, keys), budget, room);
      && (Invisible(queues, keys, budget, room) ==> same)
      && (Filed(queues) && same ==> Invisible(queues, keys, budget, room))
    decreases keys
  {
    hide SelectMany, Scan, Live, LongestFit, DeadBlocks, Needs, Tasks, Invisible, FirstTooBig, Reaches, FirstServed, Filed;
    InvisibleUnfold(queues, keys, budget, room);
    if keys == {} || budget == 0 || room == 0 {
      NobodyAtAll(queues, keys, budget, room);
    } else {
      var p, q, others := MaxKey(keys), At(queues, MaxKey(keys)), keys - {MaxKey(keys)};
      var s := Scan(q, budget, room, true);
      ManyRound(queues, keys, budget, room);
      AliveAt(queues, p);
      assert AllPositive(At(Alive(queues), p));
      GreedyNobodyIff(queues, keys, budget, room);
      LiveKeysTop(queues, keys);
      if q[0].needs <= budget {
        if Live(q) == [] {
          DeadServesNobody(q, budget, room);
          SelectManyGreedyIff(queues, others, budget, room);
          NeedsNothing();
        } else if Live(q)[0].needs > budget {
          TooBigAtTop(queues, keys, budget);
          BigServesNobody(q, budget, room);
          ManyReachesIff(queues, others, budget, room);
          NeedsNothing();
        } else if DeadBlocks(q, budget, room) {
          if Filed(queues) { BlockedRoundDiffers(queues, keys, budget, room); }
        } else {
          GreedyRound(queues, keys, budget, room);
          ScansAgreeIff(q, budget, room);
          SelectManyGreedyIff(queues, others, budget - Needs(s.notified), room - |Tasks(s.notified)|);
          SameSuffix(s.notified,
                     SelectMany(queues, multiset(others), budget - Needs(s.notified), room - |Tasks(s.notified)|).notified,
                     Greedy(Alive(queues), LiveKeys(queues, others), budget - Needs(s.notified), room - |Tasks(s.notified)|));
        }
      }
    }
  }

  lemma NobodyAtAll(queues: Queues, keys: set<int>, budget: nat, room: nat)
    requires keys == {} || budget == 0 || room == 0
    ensures SelectMany(queues, multiset(keys), budget, room).notified == []
    ensures Greedy(Alive(queues), LiveKeys(queues, keys), budget, room) == []
  {
  }

  lemma NeedsNothing()
    ensures Needs([]) == 0 && Tasks([]) == []
  {
  }

  lemma TooBigAtTop(queues: Queues, keys: set<int>, budget: nat)
    requires keys != {} && Live(At(queues, MaxKey(keys))) != [] && Live(At(queues, MaxKey(keys)))[0].needs > budget
    ensures FirstTooBig(queues, keys, budget)
  {
    LiveKeysTop(queues, keys);
  }

  lemma BigServesNobody(q: seq<Entry>, budget: nat, room: nat)
    requires budget > 0 && room > 0 && Live(q) != [] && Live(q)[0].needs > budget
    ensures Scan(q, budget, room, true).notified == []
  {
    hide Scan, Live;
    ScanServesIff(q, budget, room);
  }

  // The selection.

  /** On one priority, the path taken is the greedy descent over the live waiters. */
  lemma SingleIsGreedy(queues: Queues, heap: multiset<int>, budget: nat)
    requires Positive(Alive(queues)) && HeapExact(queues, heap) && |heap| == 1 && budget > 0
    ensures SelectSingle(queues, heap, budget).notified
         == Greedy(Alive(queues), LiveKeys(queues, Occupied(queues)), budget, NUM_WAKERS)
  {
    hide Scan, Live, LongestFit, Needs, Tasks, SelectSingle;
    var p := Top(heap);
    var q := At(queues, p);
    OnlyOccupied(queues, heap);
    SingleOnOnlyQueue(queues, heap, budget);
    AliveAt(queues, p);
    assert AllPositive(At(Alive(queues), p));
    assert MaxKey({p}) == p;
    ScanServesNobodyIff(q, budget, NUM_WAKERS);
    GreedyNobodyIff(queues, {p}, budget, NUM_WAKERS);
    LiveKeysTop(queues, {p});
    if LiveFits(q, budget, NUM_WAKERS) {
      GreedyRound(queues, {p}, budget, NUM_WAKERS);
      assert {p} - {p} == {};
      assert LiveKeys(queues, {}) == {};
    }
  }

  /**
   With positive demands and an exact heap, a selection is the greedy descent over the live waiters if and only if it
   takes the fast path, or the cancelled waiters are invisible to its walk down the priorities.
   */
  lemma SelectIsGreedyIff(queues: Queues, heap: multiset<int>, budget: nat)
    requires Filed(queues) && Positive(Alive(queues)) && HeapExact(queues, heap)
    ensures var keys := Occupied(queues);
      var same := Select(queues, heap, budget).notified == Greedy(Alive(queues), LiveKeys(queues, keys), budget, NUM_WAKERS);
      same <==> |heap| == 1 || Invisible(queues, keys, budget, NUM_WAKERS)
  {
    hide SelectMany, SelectSingle, Flatten, Live, Invisible, Greedy;
    var keys := Occupied(queues);
    ExactHeap(queues, heap);
    SelectManyGreedyIff(queues, keys, budget, NUM_WAKERS);
    if budget == 0 {
      NobodyAtAll(queues, keys, budget, NUM_WAKERS);
    } else if Flatten(queues) == [] {
      NobodyOccupied(queues);
      NobodyAtAll(queues, keys, budget, NUM_WAKERS);
    } else if |heap| == 1 {
      SingleIsGreedy(queues, heap, budget);
    }
  }

  /** The first waiter of every priority is live. */
  ghost predicate LiveHeads(queues: Queues) {
    forall p | At(queues, p) != [] :: At(queues, p)[0].status != Cancelled
  }

  lemma {:induction false} PlainIsInvisible(queues: Queues, keys: set<int>, budget: nat, room: nat)
    requires AllModest(queues) && LiveHeads(queues) && forall p | p in keys :: At(queues, p) != []
    ensures Invisible(queues, keys, budget, room)
    decreases keys
  {
    hide Modest, DeadBlocks, Invisible, Reaches, Scan, FirstTooBig, Needs, Tasks;
    InvisibleUnfold(queues, keys, budget, room);
    if keys != {} && budget > 0 && room > 0 {
      var p := MaxKey(keys);
      var q := At(queues, p);
      var s := Scan(q, budget, room, true);
      assert Live(q)[0] == q[0];
      ModestNeverBlocks(q, budget, room);
      if q[0].needs > budget { TooBigAtTop(queues, keys, budget); }
      else { PlainIsInvisible(queues, keys - {p}, budget - Needs(s.notified), room - |Tasks(s.notified)|); }
    }
  }

  /** On queues without cancelled waiters, the live waiters are all. */
  lemma CleanIsPlain(queues: Queues, budget: nat, room: nat)
    requires Clean(queues)
    ensures AllModest(queues) && LiveHeads(queues)
    ensures var keys := Occupied(queues);
      Greedy(Alive(queues), LiveKeys(queues, keys), budget, room) == Greedy(queues, keys, budget, room)
  {
    hide Live;
    CleanIsModest(queues);
    forall p ensures At(Alive(queues), p) == Live(At(queues, p)) == At(queues, p) && NoneCancelled(At(queues, p)) {
      AliveAt(queues, p);
      assert NoneCancelled(At(queues, p));
      LiveOfClean(At(queues, p));
    }
    forall p | At(queues, p) != [] ensures At(queues, p)[0].status != Cancelled {
      assert NoneCancelled(At(queues, p)) && At(queues, p)[0] in At(queues, p);
    }
    assert LiveKeys(queues, Occupied(queues)) == Occupied(queues);
    GreedyFrame(Alive(queues), queues, Occupied(queues), budget, room);
  }

  /**
   Whatever the budget: with positive demands and an exact heap, when every priority starts with a live waiter and no
   cancelled one needs more than the first live one behind it, a selection is the greedy descent over the live waiters,
   each queue loses its notified front, and the heap stays exact. Without cancelled waiters it is the descent over the
   queues as they are.
   */
  lemma SelectIsGreedy(queues: Queues, heap: multiset<int>, budget: nat)
    requires Positive(Alive(queues)) && HeapExact(queues, heap) && AllModest(queues) && LiveHeads(queues)
    ensures var r := Select(queues, heap, budget);
      && r.notified == Greedy(Alive(queues), LiveKeys(queues, Occupied(queues)), budget, NUM_WAKERS)
      && HeapExact(r.queues, r.heap)
      && (Filed(queues) ==> forall x :: TakesPrefixAt(queues, r, x))
      && (Clean(queues) ==> r.notified == Greedy(queues, Occupied(queues), budget, NUM_WAKERS))
      && (Clean(queues) && Filed(queues) ==> forall x :: LosesNotified(queues, r, x))
  {
    hide SelectMany, SelectSingle, Flatten, Live, Invisible, Greedy, AllModest, LiveHeads;
    var keys, r := Occupied(queues), Select(queues, heap, budget);
    if Clean(queues) { CleanIsPlain(queues, budget, NUM_WAKERS); }
    SelectKeepsHeap(queues, heap, budget);
    if Filed(queues) {
      forall x ensures TakesPrefixAt(queues, r, x) { SelectTakesPrefix(queues, heap, budget, x); }
      if Clean(queues) { SelectLosesNotified(queues, heap, budget); }
    }
    ExactHeap(queues, heap);
    PlainIsInvisible(queues, keys, budget, NUM_WAKERS);
    SelectManyGreedyIff(queues, keys, budget, NUM_WAKERS);
    if budget == 0 {
      NobodyAtAll(queues, keys, budget, NUM_WAKERS);
    } else if Flatten(queues) == [] {
      NobodyOccupied(queues);
      NobodyAtAll(queues, keys, budget, NUM_WAKERS);
    } else if |heap| == 1 {
      SingleIsGreedy(queues, heap, budget);
    }
  }

  // Two cases in which no cancelled waiter blocks and nobody is bypassed, and yet the cancelled ones decide.

  lemma TwoPriorities(queues: Queues)
    requires queues.Keys == {0, 1} && queues[0] != [] && queues[1] != []
    ensures Occupied(queues) == {0, 1} && MaxKey({0, 1}) == 1 && {0, 1} - {1} == {0} && MaxKey({0}) == 0
    ensures HeapExact(queues, multiset{0, 1}) && multiset({0, 1}) == multiset{0, 1}
    ensures Select(queues, multiset{0, 1}, 3) == SelectMany(queues, multiset({0, 1}), 3, NUM_WAKERS)
  {
    FlattenEmpty(queues);
    assert At(queues, 0) != [];
    assert Occupied(queues) == {0, 1};
  }

  lemma ModestOne(e: Entry)
    ensures Modest([e])
    ensures Live([e]) == If(e.status != Cancelled, e)
  {
    assert [e][1..] == [] && [e][0..] == [e];
  }

  lemma ModestPair(gone: Entry, e: Entry)
    requires gone.status == Cancelled && e.status != Cancelled && gone.needs <= e.needs
    ensures Modest([gone, e]) && Live([gone, e]) == [e]
  {
    OnlyLastLives(gone, e);
    assert [gone] + [e] == [gone, e] == [gone, e][0..];
  }

  /** Alone in the higher priority, a cancelled waiter of 5 keeps three permits from the live one of 1 below it. */
  lemma DeadPriorityStopsAll(queues: Queues)
    requires queues == map[1 := [Gone(0, 1, 5)], 0 := [Ready(1, 0, 1)]]
    ensures Filed(queues) && HeapExact(queues, multiset{0, 1}) && AllModest(queues)
    ensures Select(queues, multiset{0, 1}, 3).notified == []
    ensures Greedy(Alive(queues), LiveKeys(queues, Occupied(queues)), 3, NUM_WAKERS) == [Ready(1, 0, 1)]
  {
    hide Select, SelectMany, Greedy, Scan, Live, Modest, Alive;
    TwoPriorities(queues);
    ModestOne(Gone(0, 1, 5));
    ModestOne(Ready(1, 0, 1));
    NothingModest();
    ManyRound(queues, {0, 1}, 3, NUM_WAKERS);
    LiveKeysTop(queues, {0, 1});
    OnlyLowServed(queues, Ready(1, 0, 1));
  }

  lemma NothingModest()
    ensures Modest([])
  {
  }

  lemma OnlyLowServed(queues: Queues, e: Entry)
    requires At(queues, 0) == [e] && e.needs == 1 && Wakes(e)
    ensures Greedy(Alive(queues), LiveKeys(queues, {0}), 3, NUM_WAKERS) == [e]
    ensures SelectMany(queues, multiset({0}), 3, NUM_WAKERS).notified == [e]
  {
    hide SelectMany, LongestFit, Greedy;
    assert MaxKey({0}) == 0 && {0} - {0} == {};
    assert [e][1..] == [];
    assert Live([e]) == [e];
    assert Scan([e], 3, NUM_WAKERS, false).notified == [e] == Scan([e], 3, NUM_WAKERS, true).notified;
    GreedyRound(queues, {0}, 3, NUM_WAKERS);
    NobodyAtAll(queues, {}, 2, NUM_WAKERS - 1);
    ManyRound(queues, {0}, 3, NUM_WAKERS);
  }

  /** A cancelled waiter of 1 opens a priority whose live one of 5 does not fit, so the one of 1 below it is served. */
  lemma SmallDeadHeadOpens(queues: Queues)
    requires queues == map[1 := [Gone(0, 1, 1), Ready(1, 1, 5)], 0 := [Ready(2, 0, 1)]]
    ensures Filed(queues) && HeapExact(queues, multiset{0, 1}) && AllModest(queues)
    ensures Select(queues, multiset{0, 1}, 3).notified == [Ready(2, 0, 1)]
    ensures Greedy(Alive(queues), LiveKeys(queues, Occupied(queues)), 3, NUM_WAKERS) == []
  {
    hide Select, SelectMany, Greedy, Scan, Live, Modest, Alive;
    TwoPriorities(queues);
    ModestPair(Gone(0, 1, 1), Ready(1, 1, 5));
    ModestOne(Ready(2, 0, 1));
    NothingModest();
    BigServesNobody(queues[1], 3, NUM_WAKERS);
    NeedsNothing();
    ManyRound(queues, {0, 1}, 3, NUM_WAKERS);
    OnlyLowServed(queues, Ready(2, 0, 1));
    TooBigAtTop(queues, {0, 1}, 3);
    GreedyNobodyIff(queues, {0, 1}, 3, NUM_WAKERS);
  }
}
