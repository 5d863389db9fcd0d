/**
 What cancelled waiters still in the queue do to a selection. The general path looks at the demand of a waiter
 before it looks for a cancellation, so a cancelled waiter may stop it in front of a live one that fits. This is
 the only difference between the two paths on one queue, and the only way to bypass a higher priority. What else they
 do to the choice of priorities is in `LiveGreedy`.
 */
module DeadWaiters {
  import opened Basics
  import opened Selection
  import opened SelectionLaws
  import opened GreedySelection

  /**
   The waiter in slot `i` is cancelled, and when the live ones before it have been served there are permits and
   slots left, not enough permits for it, but enough for the first live waiter behind it.
   */
  ghost predicate BlocksAt(q: seq<Entry>, i: nat, budget: nat, room: nat)
    requires i < |q|
  {
    var before, behind := Live(q[..i]), Live(q[i..]);
    && q[i].status == Cancelled
    && Needs(before) < budget && |Tasks(before)| < room
    && q[i].needs > budget - Needs(before)
    && behind != [] && behind[0].needs <= budget - Needs(before)
  }

  ghost predicate DeadBlocks(q: seq<Entry>, budget: nat, room: nat) {
    exists i :: 0 <= i < |q| && BlocksAt(q, i, budget, room)
  }

  lemma BlocksAtHead(q: seq<Entry>, budget: nat, room: nat)
    requires q != []
    ensures BlocksAt(q, 0, budget, room) <==> (
        && q[0].status == Cancelled && budget > 0 && room > 0 && q[0].needs > budget
        && Live(q) != [] && Live(q)[0].needs <= budget)
  {
    assert q[..0] == [] && q[0..] == q;
  }

  lemma BlocksAtTail(q: seq<Entry>, i: nat, budget: nat, room: nat)
    requires 0 < i < |q|
    ensures q[0].status == Cancelled ==> (BlocksAt(q, i, budget, room) <==> BlocksAt(q[1..], i - 1, budget, room))
    ensures (q[0].status != Cancelled && BlocksAt(q, i, budget, room)) ==> q[0].needs <= budget && |TaskOf(q[0])| <= room
    ensures (q[0].status != Cancelled && q[0].needs <= budget && |TaskOf(q[0])| <= room) ==>
      (BlocksAt(q, i, budget, room) <==> BlocksAt(q[1..], i - 1, budget - q[0].needs, room - |TaskOf(q[0])|))
  {
    var tail := Live(q[1..][..i - 1]);
    assert q[..i] == [q[0]] + q[1..][..i - 1];
    LiveConcat([q[0]], q[1..][..i - 1]);
    assert [q[0]][1..] == [];
    assert q[i..] == q[1..][i - 1..];
    if q[0].status != Cancelled {
      assert Live(q[..i]) == [q[0]] + tail;
      assert ([q[0]] + tail)[1..] == tail;
    } else {
      assert Live(q[..i]) == tail;
    }
  }

  /** Looking for a blocker along the queue, as the scanning loops go. */
  lemma DeadBlocksUnfold(q: seq<Entry>, budget: nat, room: nat)
    requires q != []
    ensures q[0].status == Cancelled ==>
      (DeadBlocks(q, budget, room) <==> BlocksAt(q, 0, budget, room) || DeadBlocks(q[1..], budget, room))
    ensures q[0].status != Cancelled && (q[0].needs > budget || |TaskOf(q[0])| > room) ==> !DeadBlocks(q, budget, room)
    ensures (q[0].status != Cancelled && q[0].needs <= budget && |TaskOf(q[0])| <= room) ==>
      (DeadBlocks(q, budget, room) <==> DeadBlocks(q[1..], budget - q[0].needs, room - |TaskOf(q[0])|))
  {
    hide BlocksAt;
    BlocksAtHead(q, budget, room);
    if DeadBlocks(q, budget, room) {
      var i :| 0 <= i < |q| && BlocksAt(q, i, budget, room);
      if i > 0 { BlocksAtTail(q, i, budget, room); }
    }
    var budget', room' :=
      if q[0].status == Cancelled then budget else Rest(budget, q[0].needs),
      if q[0].status == Cancelled then room else Rest(room, |TaskOf(q[0])|);
    if DeadBlocks(q[1..], budget', room') {
      var i :| 0 <= i < |q[1..]| && BlocksAt(q[1..], i, budget', room');
      BlocksAtTail(q, i + 1, budget, room);
    }
  }

  function Rest(a: nat, b: nat): nat {
    if b <= a then a - b else 0
  }

  /** The head of the live waiters can be served. */
  ghost predicate LiveFits(q: seq<Entry>, budget: nat, room: nat) {
    budget > 0 && room > 0 && Live(q) != [] && Live(q)[0].needs <= budget
  }

  lemma {:induction false} BlockedFits(q: seq<Entry>, budget: nat, room: nat)
    requires DeadBlocks(q, budget, room)
    ensures LiveFits(q, budget, room)
  {
    hide BlocksAt, DeadBlocks;
    NothingBlocks(budget, room);
    DeadBlocksUnfold(q, budget, room);
    BlocksAtHead(q, budget, room);
    if q[0].status == Cancelled {
      if !BlocksAt(q, 0, budget, room) { BlockedFits(q[1..], budget, room); }
      assert Live(q) == Live(q[1..]);
    } else {
      BlockedFits(q[1..], budget - q[0].needs, room - |TaskOf(q[0])|);
    }
  }

  lemma NothingBlocks(budget: nat, room: nat)
    ensures !DeadBlocks([], budget, room)
  {
  }

  /** The scan has permits and slots left, and the first live waiter it left would fit. */
  ghost predicate StopsEarly(s: Scanned, budget: nat, room: nat) {
    && Needs(s.notified) < budget && |Tasks(s.notified)| < room
    && Live(s.rest) != [] && Live(s.rest)[0].needs <= budget - Needs(s.notified)
  }

  lemma StopsEarlyCons(e: Entry, s: Scanned, budget: nat, room: nat)
    requires e.needs <= budget && |TaskOf(e)| <= room
    ensures StopsEarly(s.(notified := [e] + s.notified), budget, room)
      <==> StopsEarly(s, budget - e.needs, room - |TaskOf(e)|)
  {
    assert ([e] + s.notified)[1..] == s.notified;
  }

  /** A scan that tests demand first stops in front of a live waiter that fits if and only if a cancelled one blocks it. */
  lemma {:induction false} ScanStopsEarlyIff(q: seq<Entry>, budget: nat, room: nat)
    ensures StopsEarly(Scan(q, budget, room, true), budget, room) <==> DeadBlocks(q, budget, room)
  {
    hide BlocksAt, DeadBlocks;
    NothingBlocks(budget, room);
    if q != [] {
      DeadBlocksUnfold(q, budget, room);
      BlocksAtHead(q, budget, room);
      if DeadBlocks(q, budget, room) { BlockedFits(q, budget, room); }
      if room > 0 && budget > 0 && q[0].needs <= budget {
        if q[0].status == Cancelled {
          ScanStopsEarlyIff(q[1..], budget, room);
        } else {
          ScanStopsEarlyIff(q[1..], budget - q[0].needs, room - |TaskOf(q[0])|);
          StopsEarlyCons(q[0], Scan(q[1..], budget - q[0].needs, room - |TaskOf(q[0])|, true), budget, room);
        }
      } else if q[0].status == Cancelled && DeadBlocks(q[1..], budget, room) {
        BlockedFits(q[1..], budget, room);
      }
    }
  }

  lemma {:induction false} ScanServesNobodyIff(q: seq<Entry>, budget: nat, room: nat)
    ensures Scan(q, budget, room, false).notified == [] <==> !LiveFits(q, budget, room)
  {
    if q != [] && budget > 0 && room > 0 && q[0].status == Cancelled {
      ScanServesNobodyIff(q[1..], budget, room);
      assert Live(q) == Live(q[1..]);
    }
  }

  /** The two orders of the tests notify the same waiters of a queue if and only if no cancelled one blocks. */
  lemma {:induction false} ScansAgreeIff(q: seq<Entry>, budget: nat, room: nat)
    ensures Scan(q, budget, room, true).notified == Scan(q, budget, room, false).notified <==> !DeadBlocks(q, budget, room)
  {
    hide BlocksAt, DeadBlocks;
    NothingBlocks(budget, room);
    if q != [] {
      DeadBlocksUnfold(q, budget, room);
      BlocksAtHead(q, budget, room);
      if DeadBlocks(q, budget, room) { BlockedFits(q, budget, room); }
      if room > 0 && budget > 0 {
        if q[0].status == Cancelled {
          ScansAgreeIff(q[1..], budget, room);
          ScanServesNobodyIff(q[1..], budget, room);
          if DeadBlocks(q[1..], budget, room) { BlockedFits(q[1..], budget, room); }
          assert Live(q) == Live(q[1..]);
        } else if q[0].needs <= budget {
          var budget', room' := budget - q[0].needs, room - |TaskOf(q[0])|;
          ScansAgreeIff(q[1..], budget', room');
          SameTail(q[0], Scan(q[1..], budget', room', true).notified, Scan(q[1..], budget', room', false).notified);
        }
      }
    }
  }

  lemma SameTail<T>(x: T, a: seq<T>, b: seq<T>)
    ensures [x] + a == [x] + b <==> a == b
  {
    assert ([x] + a)[1..] == a && ([x] + b)[1..] == b;
  }

  // The two paths.

  lemma ManyOnOnlyQueue(queues: Queues, heap: multiset<int>, budget: nat)
    requires |heap| == 1
    ensures var q, general := At(queues, Top(heap)), SelectMany(queues, heap, budget, NUM_WAKERS);
      && general.notified == Scan(q, budget, NUM_WAKERS, true).notified
      && Live(At(general.queues, Top(heap))) == Live(Scan(q, budget, NUM_WAKERS, true).rest)
      && forall x | x != Top(heap) :: At(general.queues, x) == At(queues, x)
  {
    hide SelectMany, Live, Dead, Tasks;
    var p := Top(heap);
    var q := At(queues, p);
    var s := Scan(q, budget, NUM_WAKERS, true);
    SingletonHeap(heap);
    SelectManyUnfold(queues, heap, budget, NUM_WAKERS);
    assert heap - multiset{p} == multiset{};
    SelectManyUnfold(queues, multiset{}, budget, NUM_WAKERS);
    if Serves(queues, heap, budget, NUM_WAKERS) {
      SelectManyUnfold(queues[p := Live(s.rest)], multiset{}, budget - Needs(s.notified), NUM_WAKERS - |Tasks(s.notified)|);
      LiveIdempotent(s.rest);
    }
  }

  lemma SingleOnOnlyQueue(queues: Queues, heap: multiset<int>, budget: nat)
    requires |heap| == 1
    ensures var q, fast := At(queues, Top(heap)), SelectSingle(queues, heap, budget);
      && fast.notified == Scan(q, budget, NUM_WAKERS, false).notified
      && At(fast.queues, Top(heap)) == Scan(q, budget, NUM_WAKERS, false).rest
      && forall x | x != Top(heap) :: At(fast.queues, x) == At(queues, x)
  {
  }

  /**
   The single-priority path and the general path notify the same waiters if and only if no cancelled waiter blocks;
   then they also leave the same live waiters everywhere. On a queue without cancelled waiters they do the same to
   everything.
   */
  lemma FastPathAgrees(queues: Queues, heap: multiset<int>, budget: nat)
    requires |heap| == 1
    ensures var fast, general := SelectSingle(queues, heap, budget), SelectMany(queues, heap, budget, NUM_WAKERS);
      && (fast.notified == general.notified <==> !DeadBlocks(At(queues, Top(heap)), budget, NUM_WAKERS))
      && (fast.notified == general.notified ==> forall x :: Live(At(fast.queues, x)) == Live(At(general.queues, x)))
      && (Clean(queues) && HeapExact(queues, heap) && budget > 0 ==>
            && fast.notified == general.notified && fast.purged == general.purged && fast.heap == general.heap
            && forall x :: At(fast.queues, x) == At(general.queues, x))
  {
    hide SelectMany, SelectSingle, Scan, DeadBlocks, Live;
    var q := At(queues, Top(heap));
    ManyOnOnlyQueue(queues, heap, budget);
    SingleOnOnlyQueue(queues, heap, budget);
    ScansAgreeIff(q, budget, NUM_WAKERS);
    ScanTakesLivePrefix(q, budget, NUM_WAKERS, true);
    ScanTakesLivePrefix(q, budget, NUM_WAKERS, false);
    SameSuffix(Scan(q, budget, NUM_WAKERS, true).notified, Live(Scan(q, budget, NUM_WAKERS, true).rest),
               Live(Scan(q, budget, NUM_WAKERS, false).rest));
    if Clean(queues) && HeapExact(queues, heap) && budget > 0 { CleanPathsAgree(queues, heap, budget); }
  }

  lemma SameSuffix<T>(a: seq<T>, b: seq<T>, c: seq<T>)
    ensures a + b == a + c <==> b == c
  {
    assert (a + b)[|a|..] == b && (a + c)[|a|..] == c;
  }

  // Which priority is served first.

  /** The first live waiter fits, and no cancelled one in front of it is too big to be passed. */
  ghost predicate FirstServed(q: seq<Entry>, budget: nat) {
    && Live(q) != [] && Live(q)[0].needs <= budget
    && forall i | 0 <= i < |q| && q[i].status == Cancelled && Live(q[..i]) == [] :: q[i].needs <= budget
  }

  lemma FirstServedUnfold(q: seq<Entry>, budget: nat)
    requires q != []
    ensures q[0].status != Cancelled ==> (FirstServed(q, budget) <==> q[0].needs <= budget)
    ensures q[0].status == Cancelled ==> (FirstServed(q, budget) <==> q[0].needs <= budget && FirstServed(q[1..], budget))
  {
    assert q[..0] == [];
    forall i | 0 < i < |q| ensures Live(q[..i]) == If(q[0].status != Cancelled, q[0]) + Live(q[1..][..i - 1]) {
      assert q[..i][1..] == q[1..][..i - 1];
    }
    if q[0].status == Cancelled {
      assert Live(q) == Live(q[1..]);
      if FirstServed(q, budget) {
        forall i | 0 <= i < |q[1..]| && q[1..][i].status == Cancelled && Live(q[1..][..i]) == []
          ensures q[1..][i].needs <= budget
        {
          assert q[i + 1].needs <= budget;
        }
      }
    }
  }

  /** A scan that tests demand first notifies somebody if and only if the first live waiter is served. */
  lemma {:induction false} ScanServesIff(q: seq<Entry>, budget: nat, room: nat)
    requires budget > 0 && room > 0
    ensures Scan(q, budget, room, true).notified != [] <==> FirstServed(q, budget)
  {
    if q != [] {
      FirstServedUnfold(q, budget);
      if q[0].status == Cancelled && q[0].needs <= budget { ScanServesIff(q[1..], budget, room); }
    }
  }

  /** Some priority in `keys` has its first live waiter served, and every one above it is entered. */
  ghost predicate Reaches(queues: Queues, keys: set<int>, budget: nat) {
    exists x :: x in keys && FirstServed(At(queues, x), budget) && EnteredAbove(queues, keys, x, budget)
  }

  ghost predicate EnteredAbove(queues: Queues, keys: set<int>, x: int, budget: nat) {
    forall y | y in keys && y > x :: At(queues, y) != [] ==> At(queues, y)[0].needs <= budget
  }

  lemma ReachesTop(queues: Queues, keys: set<int>, budget: nat)
    requires keys != {} && forall p | p in keys :: At(queues, p) != []
    ensures var p := MaxKey(keys);
      Reaches(queues, keys, budget) <==>
        FirstServed(At(queues, p), budget)
        || (At(queues, p)[0].needs <= budget && Reaches(queues, keys - {p}, budget))
  {
    hide FirstServed;
    var p, others := MaxKey(keys), keys - {MaxKey(keys)};
    if Reaches(queues, keys, budget) {
      var x :| x in keys && FirstServed(At(queues, x), budget) && EnteredAbove(queues, keys, x, budget);
      if x != p { assert x in others && EnteredAbove(queues, others, x, budget); }
    }
    if FirstServed(At(queues, p), budget) { assert EnteredAbove(queues, keys, p, budget); }
    if At(queues, p)[0].needs <= budget && Reaches(queues, others, budget) {
      var x :| x in others && FirstServed(At(queues, x), budget) && EnteredAbove(queues, others, x, budget);
      assert EnteredAbove(queues, keys, x, budget) by {
        forall y | y in keys && y > x ensures At(queues, y)[0].needs <= budget {
          assert y == p || y in others;
        }
      }
    }
  }

  lemma ReachesFrame(a: Queues, b: Queues, keys: set<int>, budget: nat)
    requires forall p | p in keys :: At(a, p) == At(b, p)
    ensures Reaches(a, keys, budget) <==> Reaches(b, keys, budget)
  {
    hide FirstServed;
    if Reaches(a, keys, budget) {
      var x :| x in keys && FirstServed(At(a, x), budget) && EnteredAbove(a, keys, x, budget);
      assert EnteredAbove(b, keys, x, budget);
    }
    if Reaches(b, keys, budget) {
      var x :| x in keys && FirstServed(At(b, x), budget) && EnteredAbove(b, keys, x, budget);
      assert EnteredAbove(a, keys, x, budget);
    }
  }

  /** Whom the general path notifies depends only on the queues of the priorities in the heap. */
  lemma {:induction false} ManyFrame(a: Queues, b: Queues, keys: set<int>, budget: nat, room: nat)
    requires forall p | p in keys :: At(a, p) == At(b, p)
    ensures SelectMany(a, multiset(keys), budget, room).notified == SelectMany(b, multiset(keys), budget, room).notified
    decreases keys
  {
    hide SelectMany, Scan, Live, Dead, Needs, Tasks;
    SelectManyUnfold(a, multiset(keys), budget, room);
    SelectManyUnfold(b, multiset(keys), budget, room);
    if keys != {} {
      TopOfKeys(keys);
      var p := MaxKey(keys);
      var s := Scan(At(a, p), budget, room, true);
      if Serves(a, multiset(keys), budget, room) {
        ManyFrame(a[p := Live(s.rest)], b[p := Live(s.rest)], keys - {p},
                  budget - Needs(s.notified), room - |Tasks(s.notified)|);
      } else if PopsStale(a, multiset(keys), budget, room) {
        ManyFrame(a, b, keys - {p}, budget, room);
      }
    }
  }

  /** The general path one round later, on the queues as they were. */
  lemma ManyRound(queues: Queues, keys: set<int>, budget: nat, room: nat)
    requires keys != {} && budget > 0 && room > 0 && forall p | p in keys :: At(queues, p) != []
    ensures var p := MaxKey(keys);
      var q := At(queues, p);
      var s := Scan(q, budget, room, true);
      var later := SelectMany(queues, multiset(keys - {p}), budget - Needs(s.notified), room - |Tasks(s.notified)|);
      SelectMany(queues, multiset(keys), budget, room).notified ==
        if q[0].needs > budget then [] else s.notified + later.notified
  {
    hide SelectMany, Scan, Live, Dead, Needs, Tasks;
    SelectManyUnfold(queues, multiset(keys), budget, room);
    TopOfKeys(keys);
    var p := MaxKey(keys);
    var s := Scan(At(queues, p), budget, room, true);
    ManyFrame(queues[p := Live(s.rest)], queues, keys - {p}, budget - Needs(s.notified), room - |Tasks(s.notified)|);
  }

  lemma {:induction false} ManyReachesIff(queues: Queues, keys: set<int>, budget: nat, room: nat)
    requires budget > 0 && room > 0 && forall p | p in keys :: At(queues, p) != []
    ensures SelectMany(queues, multiset(keys), budget, room).notified != [] <==> Reaches(queues, keys, budget)
    decreases keys
  {
    hide SelectMany, Scan, FirstServed, Reaches;
    if keys == {} {
      NobodyReached(queues, budget, room);
    } else {
      var p := MaxKey(keys);
      var q := At(queues, p);
      ManyRound(queues, keys, budget, room);
      ReachesTop(queues, keys, budget);
      FirstServedUnfold(q, budget);
      ScanServesIff(q, budget, room);
      if q[0].needs <= budget && Scan(q, budget, room, true).notified == [] {
        ManyReachesIff(queues, keys - {p}, budget, room);
      }
    }
  }

  lemma NobodyReached(queues: Queues, budget: nat, room: nat)
    ensures !Reaches(queues, {}, budget) && SelectMany(queues, multiset({}), budget, room).notified == []
  {
  }

  // Bypassing a higher priority.

  /** When `r` notified its `j`-th waiter, priority `x` above it had no waiter left that fitted at its head. */
  ghost predicate BlockedAbove(r: Selected, budget: nat, j: nat, x: int)
    requires j < |r.notified|
  {
    (x > r.notified[j].priority && At(r.queues, x) != []) ==>
      At(r.queues, x)[0].needs > budget - Needs(r.notified[..j])
  }

  ghost predicate NoBypass(r: Selected, budget: nat) {
    forall j, x :: 0 <= j < |r.notified| ==> BlockedAbove(r, budget, j, x)
  }

  lemma NeedsOfJoin(a: seq<Entry>, b: seq<Entry>, j: nat)
    requires |a| <= j <= |a| + |b|
    ensures Needs((a + b)[..j]) == Needs(a) + Needs(b[..j - |a|])
  {
    assert (a + b)[..j] == a + b[..j - |a|];
    NeedsConcat(a, b[..j - |a|]);
  }

  /** What was blocked above in the later rounds is blocked above in the whole selection, and the other way round. */
  lemma RoundBlocks(p: int, s: Scanned, later: Selected, budget: nat, j: nat, x: int)
    requires Needs(s.notified) <= budget && |s.notified| <= j < |s.notified| + |later.notified|
    ensures BlockedAbove(Combine(p, s, later), budget, j, x)
      <==> BlockedAbove(later, budget - Needs(s.notified), j - |s.notified|, x)
  {
    hide Needs, Live, Dead;
    NeedsOfJoin(s.notified, later.notified, j);
  }

  /** Nothing above the top priority's own waiters is still in `keys`. */
  lemma RoundTopmost(p: int, s: Scanned, later: Selected, budget: nat, j: nat, x: int)
    requires j < |s.notified| && s.notified[j].priority == p && x <= p
    ensures BlockedAbove(Combine(p, s, later), budget, j, x)
  {
  }

  lemma LaterIsBusy(queues: Queues, heap: multiset<int>, budget: nat, room: nat)
    requires SelectMany(queues, heap, budget, room).notified != []
    ensures budget > 0 && room > 0
  {
  }

  /** `NoBypass` seen from the priorities in `keys`. */
  ghost predicate NoBypassOf(r: Selected, budget: nat, keys: set<int>) {
    forall j, x :: 0 <= j < |r.notified| && x in keys ==> BlockedAbove(r, budget, j, x)
  }

  /**
   Walking down the `keys`, some round of the general path is stopped by a cancelled waiter, and with the permits left
   then a lower priority is reached.
   */
  ghost predicate Bypasses(queues: Queues, keys: set<int>, budget: nat, room: nat)
    decreases keys
  {
    keys != {} && budget > 0 && room > 0 &&
    var p := MaxKey(keys);
    var q := At(queues, p);
    var s := Scan(q, budget, room, true);
    && q != [] && q[0].needs <= budget
    && (|| (DeadBlocks(q, budget, room) && Reaches(queues, keys - {p}, budget - Needs(s.notified)))
        || Bypasses(queues, keys - {p}, budget - Needs(s.notified), room - |Tasks(s.notified)|))
  }

  lemma BypassesUnfold(queues: Queues, keys: set<int>, budget: nat, room: nat)
    ensures Bypasses(queues, keys, budget, room) <==> (
      keys != {} && budget > 0 && room > 0 &&
      var p := MaxKey(keys);
      var q := At(queues, p);
      var s := Scan(q, budget, room, true);
      && q != [] && q[0].needs <= budget
      && (|| (DeadBlocks(q, budget, room) && Reaches(queues, keys - {p}, budget - Needs(s.notified)))
          || Bypasses(queues, keys - {p}, budget - Needs(s.notified), room - |Tasks(s.notified)|)))
  {
  }

  lemma {:induction false} BypassesFrame(a: Queues, b: Queues, keys: set<int>, budget: nat, room: nat)
    requires forall p | p in keys :: At(a, p) == At(b, p)
    ensures Bypasses(a, keys, budget, room) <==> Bypasses(b, keys, budget, room)
    decreases keys
  {
    hide Bypasses, Reaches, Scan, DeadBlocks, Needs, Tasks;
    BypassesUnfold(a, keys, budget, room);
    BypassesUnfold(b, keys, budget, room);
    if keys != {} && budget > 0 && room > 0 {
      var p := MaxKey(keys);
      var s := Scan(At(a, p), budget, room, true);
      ReachesFrame(a, b, keys - {p}, budget - Needs(s.notified));
      BypassesFrame(a, b, keys - {p}, budget - Needs(s.notified), room - |Tasks(s.notified)|);
    }
  }

  /** Below `p`, the first one notified decides whether the head left at `p` was bypassed. */
  lemma FirstDecides(later: Selected, budget: nat, p: int, j: nat)
    requires j < |later.notified| && NoneAbove(later.notified, p - 1)
    ensures BlockedAbove(later, budget, 0, p) <==> (At(later.queues, p) != [] ==> At(later.queues, p)[0].needs > budget)
    ensures BlockedAbove(later, budget, 0, p) ==> BlockedAbove(later, budget, j, p)
  {
    assert later.notified[0] in later.notified && later.notified[j] in later.notified;
  }

  /** One round adds exactly one way to bypass: it stops early, and somebody is notified later. */
  lemma RoundBypass(p: int, s: Scanned, later: Selected, budget: nat, room: nat, keys: set<int>)
    requires p in keys && forall x | x in keys :: x <= p
    requires Needs(s.notified) <= budget && |Tasks(s.notified)| <= room
    requires forall i | 0 <= i < |s.notified| :: s.notified[i].priority == p
    requires NoneAbove(later.notified, p - 1) && At(later.queues, p) == Live(s.rest)
    requires later.notified != [] ==> Needs(s.notified) < budget && |Tasks(s.notified)| < room
    ensures NoBypassOf(Combine(p, s, later), budget, keys)
      <==> !(StopsEarly(s, budget, room) && later.notified != [])
           && NoBypassOf(later, budget - Needs(s.notified), keys - {p})
  {
    hide Live, Dead, Tasks, Needs, BlockedAbove, NoneAbove;
    var r, n, others, budget' := Combine(p, s, later), |s.notified|, keys - {p}, budget - Needs(s.notified);
    assert r.notified == s.notified + later.notified;
    if later.notified != [] { FirstDecides(later, budget', p, 0); }
    if NoBypassOf(r, budget, keys) {
      forall j, x | 0 <= j < |later.notified| && x in keys ensures BlockedAbove(later, budget', j, x) {
        assert BlockedAbove(r, budget, j + n, x);
        RoundBlocks(p, s, later, budget, j + n, x);
      }
    }
    if !(StopsEarly(s, budget, room) && later.notified != []) && NoBypassOf(later, budget', others) {
      forall j, x | 0 <= j < |r.notified| && x in keys ensures BlockedAbove(r, budget, j, x) {
        if j < n {
          RoundTopmost(p, s, later, budget, j, x);
        } else {
          FirstDecides(later, budget', p, j - n);
          assert x != p ==> x in others;
          RoundBlocks(p, s, later, budget, j, x);
        }
      }
    }
  }

  /** What a round leaves to the later ones: only lower priorities, and its own live waiters where they are. */
  lemma RoundLeaves(queues: Queues, keys: set<int>, budget: nat, room: nat)
    requires Filed(queues) && keys != {}
    ensures var p := MaxKey(keys);
      var s := Scan(At(queues, p), budget, room, true);
      var queues', budget', room' := queues[p := Live(s.rest)], budget - Needs(s.notified), room - |Tasks(s.notified)|;
      var later := SelectMany(queues', multiset(keys - {p}), budget', room');
      && Filed(queues') && (forall i | 0 <= i < |s.notified| :: s.notified[i].priority == p)
      && NoneAbove(later.notified, p - 1) && At(later.queues, p) == Live(s.rest)
      && (later.notified != [] ==> budget' > 0 && room' > 0)
  {
    hide SelectMany, Scan, Live, Dead, Needs, Tasks, NoneAbove;
    var p, others := MaxKey(keys), keys - {MaxKey(keys)};
    var s := Scan(At(queues, p), budget, room, true);
    var queues', budget', room' := queues[p := Live(s.rest)], budget - Needs(s.notified), room - |Tasks(s.notified)|;
    ScanMembers(At(queues, p), budget, room, true);
    FiledMembers(queues, p, s.notified);
    LiveOrDead(s.rest);
    FiledAfter(queues, p, Live(s.rest));
    SelectManyNoneAbove(queues', multiset(others), budget', room', p - 1);
    SelectManyTreatsHeap(queues', multiset(others), budget', room', p);
    if SelectMany(queues', multiset(others), budget', room').notified != [] {
      LaterIsBusy(queues', multiset(others), budget', room');
    }
  }

  lemma RoundReaches(queues: Queues, keys: set<int>, budget: nat, room: nat)
    requires keys != {} && forall p | p in keys :: At(queues, p) != []
    ensures var p := MaxKey(keys);
      var s := Scan(At(queues, p), budget, room, true);
      var queues', budget', room' := queues[p := Live(s.rest)], budget - Needs(s.notified), room - |Tasks(s.notified)|;
      var later := SelectMany(queues', multiset(keys - {p}), budget', room');
      (StopsEarly(s, budget, room) && later.notified != []) <==>
        (DeadBlocks(At(queues, p), budget, room) && Reaches(queues, keys - {p}, budget'))
  {
    hide SelectMany, Scan, Live, Needs, Tasks, DeadBlocks, Reaches;
    var p, others := MaxKey(keys), keys - {MaxKey(keys)};
    var s := Scan(At(queues, p), budget, room, true);
    var queues', budget', room' := queues[p := Live(s.rest)], budget - Needs(s.notified), room - |Tasks(s.notified)|;
    ScanStopsEarlyIff(At(queues, p), budget, room);
    ReachesFrame(queues', queues, others, budget');
    if StopsEarly(s, budget, room) { ManyReachesIff(queues', others, budget', room'); }
  }

  lemma {:induction false} SelectManyBypassIff(queues: Queues, keys: set<int>, budget: nat, room: nat)
    requires Filed(queues) && forall p | p in keys :: At(queues, p) != []
    ensures NoBypassOf(SelectMany(queues, multiset(keys), budget, room), budget, keys)
      <==> !Bypasses(queues, keys, budget, room)
    decreases keys
  {
    hide SelectMany, Scan, Live, Dead, Needs, Tasks, Bypasses, DeadBlocks, NoneAbove, Reaches, StopsEarly, NoBypassOf,
      Filed, Combine;
    SelectManyUnfold(queues, multiset(keys), budget, room);
    BypassesUnfold(queues, keys, budget, room);
    NobodyNoBypass(queues, multiset(keys), budget, keys);
    if keys != {} {
      TopOfKeys(keys);
      var p, q, others := MaxKey(keys), At(queues, MaxKey(keys)), keys - {MaxKey(keys)};
      if budget > 0 && room > 0 && q[0].needs <= budget {
        var s := Scan(q, budget, room, true);
        var queues', budget', room' := queues[p := Live(s.rest)], budget - Needs(s.notified), room - |Tasks(s.notified)|;
        RoundLeaves(queues, keys, budget, room);
        RoundReaches(queues, keys, budget, room);
        SelectManyBypassIff(queues', others, budget', room');
        BypassesFrame(queues', queues, others, budget', room');
        RoundBypass(p, s, SelectMany(queues', multiset(others), budget', room'), budget, room, keys);
      }
    }
  }

  lemma NobodyNoBypass(queues: Queues, heap: multiset<int>, budget: nat, keys: set<int>)
    ensures NoBypassOf(Selected(queues, heap, [], []), budget, keys)
  {
  }

  lemma SinglePriorityNeverBypasses(queues: Queues, heap: multiset<int>, budget: nat)
    requires Filed(queues) && HeapExact(queues, heap) && |heap| == 1
    ensures NoBypass(SelectSingle(queues, heap, budget), budget)
    ensures !Bypasses(queues, Occupied(queues), budget, NUM_WAKERS)
  {
    hide Scan, SelectMany;
    var p := Top(heap);
    var s := Scan(At(queues, p), budget, NUM_WAKERS, false);
    var r := SelectSingle(queues, heap, budget);
    SingletonHeap(heap);
    ScanMembers(At(queues, p), budget, NUM_WAKERS, false);
    FiledMembers(queues, p, s.notified);
    SingleOnOnlyQueue(queues, heap, budget);
    forall j, x | 0 <= j < |r.notified| ensures BlockedAbove(r, budget, j, x) {
      assert r.notified[j].priority == p;
      assert x != p ==> heap[x] == 0 && At(r.queues, x) == [];
    }
    OnlyOccupied(queues, heap);
    assert {p} - {p} == {};
  }

  lemma OnlyOccupied(queues: Queues, heap: multiset<int>)
    requires HeapExact(queues, heap) && |heap| == 1
    ensures Occupied(queues) == {Top(heap)}
  {
    SingletonHeap(heap);
    forall x ensures x in Occupied(queues) <==> x in {Top(heap)} {
      assert heap[x] == if At(queues, x) == [] then 0 else 1;
    }
  }

  lemma NobodyOccupied(queues: Queues)
    requires Flatten(queues) == []
    ensures Occupied(queues) == {}
  {
    FlattenEmpty(queues);
    forall p ensures p !in Occupied(queues) { assert At(queues, p) == []; }
  }

  /**
   A selection serves somebody with permits that the head left in a higher priority could have used if and only if
   some round is stopped by a cancelled waiter and a lower priority is reached.
   */
  lemma SelectBypassesIff(queues: Queues, heap: multiset<int>, budget: nat)
    requires Filed(queues) && HeapExact(queues, heap)
    ensures !NoBypass(Select(queues, heap, budget), budget) <==> Bypasses(queues, Occupied(queues), budget, NUM_WAKERS)
  {
    hide SelectMany, SelectSingle, FlattenKeys, Needs, BlockedAbove, Bypasses;
    ExactHeap(queues, heap);
    BypassesUnfold(queues, Occupied(queues), budget, NUM_WAKERS);
    if budget == 0 {
    } else if Flatten(queues) == [] {
      NobodyOccupied(queues);
    } else if |heap| == 1 {
      SinglePriorityNeverBypasses(queues, heap, budget);
    } else {
      var r := SelectMany(queues, heap, budget, NUM_WAKERS);
      SelectManyBypassIff(queues, Occupied(queues), budget, NUM_WAKERS);
      forall j, x | 0 <= j < |r.notified| && x !in Occupied(queues) ensures BlockedAbove(r, budget, j, x) {
        assert At(queues, x) == [];
        SelectManyTreatsHeap(queues, heap, budget, NUM_WAKERS, x);
        NobodyToBypass(r, budget, j, x);
      }
      if NoBypassOf(r, budget, Occupied(queues)) {
        forall j, x | 0 <= j < |r.notified| ensures BlockedAbove(r, budget, j, x) {}
      }
    }
  }

  lemma NobodyToBypass(r: Selected, budget: nat, j: nat, x: int)
    requires j < |r.notified| && At(r.queues, x) == []
    ensures BlockedAbove(r, budget, j, x)
  {
  }

  /** No cancelled waiter needs more than the first live one behind it. */
  ghost predicate Modest(q: seq<Entry>) {
    forall i | 0 <= i < |q| && q[i].status == Cancelled && Live(q[i..]) != [] :: q[i].needs <= Live(q[i..])[0].needs
  }

  ghost predicate AllModest(queues: Queues) {
    forall p :: Modest(At(queues, p))
  }

  lemma ModestNeverBlocks(q: seq<Entry>, budget: nat, room: nat)
    requires Modest(q)
    ensures !DeadBlocks(q, budget, room)
  {
  }

  /** Queues without cancelled waiters are the simplest such case. */
  lemma CleanIsModest(queues: Queues)
    requires Clean(queues)
    ensures AllModest(queues)
  {
    forall p ensures Modest(At(queues, p)) {
      assert NoneCancelled(At(queues, p));
    }
  }

  lemma {:induction false} ModestNeverBypasses(queues: Queues, keys: set<int>, budget: nat, room: nat)
    requires AllModest(queues)
    ensures !Bypasses(queues, keys, budget, room)
    decreases keys
  {
    hide Modest, DeadBlocks, Bypasses, Reaches, Scan;
    BypassesUnfold(queues, keys, budget, room);
    if keys != {} && budget > 0 && room > 0 {
      var p := MaxKey(keys);
      var s := Scan(At(queues, p), budget, room, true);
      ModestNeverBlocks(At(queues, p), budget, room);
      ModestNeverBypasses(queues, keys - {p}, budget - Needs(s.notified), room - |Tasks(s.notified)|);
    }
  }

  /**
   When no cancelled waiter needs more than the first live one behind it, whatever the budget: no notification takes
   permits that the head of a higher priority could have used in that call. Whenever a waiter is notified, every
   higher priority that still has waiters needs more than the budget left then.
   */
  lemma SelectNeverBypasses(queues: Queues, heap: multiset<int>, budget: nat)
    requires AllModest(queues) && Filed(queues) && HeapExact(queues, heap)
    ensures NoBypass(Select(queues, heap, budget), budget)
  {
    hide Select, NoBypass, AllModest, Bypasses;
    ModestNeverBypasses(queues, Occupied(queues), budget, NUM_WAKERS);
    SelectBypassesIff(queues, heap, budget);
  }

  // Two cases with a cancelled waiter of 5 in front of a live one of 1, and three permits.

  function Gone(id: nat, priority: int, needs: nat): Entry {
    Entry(id, priority, needs, Cancelled, None)
  }

  function Ready(id: nat, priority: int, needs: nat): Entry {
    Entry(id, priority, needs, Waiting, Some(id))
  }

  lemma TopOfPair()
    ensures Top(multiset{0}) == 0 && Top(multiset{0, 1}) == 1
  {
    assert 0 in multiset{0} && 1 in multiset{0, 1};
  }

  /** The fast path serves the live waiter behind the cancelled one, and the general path serves nobody. */
  lemma CancelledHeadSplitsPaths(queues: Queues)
    requires queues == map[0 := [Gone(0, 0, 5), Ready(1, 0, 1)]]
    ensures Filed(queues) && HeapExact(queues, multiset{0})
    ensures SelectSingle(queues, multiset{0}, 3).notified == [Ready(1, 0, 1)]
    ensures SelectMany(queues, multiset{0}, 3, NUM_WAKERS).notified == []
  {
    var q := queues[0];
    TopOfPair();
    assert q[1..] == [Ready(1, 0, 1)];
    assert Scan([Ready(1, 0, 1)], 3, NUM_WAKERS, false).notified == [Ready(1, 0, 1)];
  }

  lemma ServeOne(e: Entry, rest: seq<Entry>, budget: nat, room: nat)
    requires e.status != Cancelled && 0 < e.needs <= budget && Wakes(e) && room > 1
    requires rest != [] ==> rest[0].needs > budget - e.needs > 0
    ensures Scan([e] + rest, budget, room, true) == Scanned(rest, [e], [])
    ensures Needs([e]) == e.needs && |Tasks([e])| == 1
  {
    assert ([e] + rest)[1..] == rest;
    assert Scan(rest, budget - e.needs, room - 1, true) == Scanned(rest, [], []);
  }

  lemma OnlyLastLives(gone: Entry, e: Entry)
    requires gone.status == Cancelled && e.status != Cancelled
    ensures Live([gone] + [e]) == [e]
  {
    assert ([gone] + [e])[1..] == [e] && [e][1..] == [];
    assert Live([e]) == [e];
  }

  /** The two rounds of the example below. */
  lemma BypassRounds(queues: Queues, first: Entry, gone: Entry, last: Entry, low: Entry)
    requires first == Ready(0, 1, 1) && gone == Gone(1, 1, 5) && last == Ready(2, 1, 1) && low == Ready(3, 0, 1)
    requires At(queues, 1) == [first] + ([gone] + [last]) && At(queues, 0) == [low]
    ensures var r := SelectMany(queues, multiset{0, 1}, 3, NUM_WAKERS);
      r.notified == [first] + [low] && At(r.queues, 1) == [last]
  {
    hide SelectMany, Scan, Live, Needs, Tasks, Top, Dead;
    TopOfPair();
    ServeOne(first, [gone] + [last], 3, NUM_WAKERS);
    OnlyLastLives(gone, last);
    SelectManyUnfold(queues, multiset{0, 1}, 3, NUM_WAKERS);
    assert multiset{0, 1} - multiset{1} == multiset{0};
    var queues' := queues[1 := [last]];
    ServeOne(low, [], 2, NUM_WAKERS - 1);
    assert [low] + [] == [low];
    SelectManyUnfold(queues', multiset{0}, 2, NUM_WAKERS - 1);
    var queues'' := queues'[0 := Live([])];
    assert multiset{0} - multiset{0} == multiset{};
    SelectManyUnfold(queues'', multiset{}, 1, NUM_WAKERS - 2);
  }

  /**
   With another live waiter of 1 before them and one at priority 0, the general path stops at the cancelled waiter
   and serves priority 0, although the head left at priority 1 would have fitted.
   */
  lemma CancelledWaiterIsBypassed(queues: Queues)
    requires queues == map[1 := [Ready(0, 1, 1), Gone(1, 1, 5), Ready(2, 1, 1)], 0 := [Ready(3, 0, 1)]]
    ensures Filed(queues) && HeapExact(queues, multiset{0, 1})
    ensures var r := Select(queues, multiset{0, 1}, 3);
      && r.notified == [Ready(0, 1, 1), Ready(3, 0, 1)] && At(r.queues, 1) == [Ready(2, 1, 1)]
      && !NoBypass(r, 3)
  {
    hide SelectMany, Flatten, FlattenKeys, Needs;
    var first, gone, last, low := Ready(0, 1, 1), Gone(1, 1, 5), Ready(2, 1, 1), Ready(3, 0, 1);
    assert At(queues, 1) == [first] + ([gone] + [last]);
    BypassRounds(queues, first, gone, last, low);
    ServeOne(first, [], 3, NUM_WAKERS);
    FlattenEmpty(queues);
    assert At(queues, 0) != [];
    var r := Select(queues, multiset{0, 1}, 3);
    assert r == SelectMany(queues, multiset{0, 1}, 3, NUM_WAKERS);
    assert r.notified[..1] == [first] && r.notified[1] == low;
    assert !BlockedAbove(r, 3, 1, 1);
  }
}
