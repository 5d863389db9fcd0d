/**
 Permit guards: splitting, merging, forgetting and dropping them, and what whole runs of these do to the
 number of permits. A guard counts in 32 bits.
 */
module Permits {
  import opened Basics
  import opened Selection
  import opened Waiters
  import opened WaitQueues
  import opened PermitWord
  import opened SemaphoreObjects

  /** A permit guard; the borrowed and the owned one differ only in the argument of `split`. */
  class Permit {
    const semaphore: Semaphore
    var permits: nat

    constructor (semaphore: Semaphore, permits: nat)
      requires permits < U32_LIMIT
      ensures this.semaphore == semaphore && this.permits == permits && Valid()
    {
      this.semaphore, this.permits := semaphore, permits;
    }

    predicate Valid()
      reads this
    {
      permits < U32_LIMIT
    }

    /** Splitting moves permits and creates none; asking for too many changes nothing. */
    method Split(n: nat) returns (other: Option<Permit>)
      requires Valid() && n < U32_LIMIT
      modifies this
      ensures Valid() && (other.Some? <==> n <= old(permits))
      ensures other.None? ==> permits == old(permits)
      ensures other.Some? ==> fresh(other.value) && other.value.Valid() && other.value.semaphore == semaphore
      ensures other.Some? ==> other.value.permits == n && permits + n == old(permits)
    {
      if n > permits {
        return None;
      }
      permits := permits - n;
      var p := new Permit(semaphore, n);
      other := Some(p);
    }

    /** The owned guard takes the amount as a machine word; one that does not fit 32 bits is refused. */
    method SplitOwned(n: nat) returns (other: Option<Permit>)
      requires Valid() && n < WORD_LIMIT
      modifies this
      ensures Valid() && (other.Some? <==> n <= old(permits))
      ensures other.None? ==> permits == old(permits)
      ensures other.Some? ==> fresh(other.value) && other.value.Valid() && other.value.semaphore == semaphore
      ensures other.Some? ==> other.value.permits == n && permits + n == old(permits)
    {
      if n >= U32_LIMIT {
        return None;
      }
      other := Split(n);
    }

    /** Merging two guards of one semaphore; `ok` is false where the source panics. The sum wraps at 32 bits. */
    method Merge(other: Permit) returns (ok: bool)
      requires Valid() && other.Valid() && other != this
      modifies this, other
      ensures Valid() && other.Valid() && (ok <==> semaphore == other.semaphore)
      ensures !ok ==> permits == old(permits) && other.permits == old(other.permits)
      ensures ok ==> other.permits == 0
      ensures ok ==> (
          var sum := old(permits) + old(other.permits);
          permits == if sum < U32_LIMIT then sum else sum - U32_LIMIT)
    {
      if semaphore != other.semaphore {
        return false;
      }
      permits := (permits + other.permits) % U32_LIMIT;
      other.permits := 0;
      ok := true;
    }

    method Forget()
      modifies this
      ensures permits == 0
    {
      permits := 0;
    }

    /**
     Dropping a guard does to the semaphore what releasing its permits does, on the empty-queue path too; only
     the overflow check is left out there.
     */
    method Drop() returns (woken: seq<Task>, panicked: bool, ghost picked: seq<Waiter>)
      requires Valid() && semaphore.Valid()
      modifies this, semaphore, semaphore.waiters.Members()
      modifies semaphore.waiters`queues, semaphore.waiters`heap, semaphore.waiters`total
      ensures semaphore.Valid() && permits == 0
      ensures var before, n := old(semaphore.Abstract()), old(permits); var r := A.Release(before, n);
        && semaphore.Abstract() == Wrapped(r.sem) && woken == r.woken
        && (panicked <==> Panics(before, n) && Flatten(before.queues) != [])
      ensures Knows(old(semaphore.waiters.Snap()), picked) && Reflects(old(semaphore.waiters.Snap()), picked)
    {
      hide A.Release, Reflects, Flatten;
      ghost var before := semaphore.Abstract();
      var n := permits;
      permits := 0;
      woken, panicked, picked := [], false, [];
      semaphore.waiters.SnapKnowsAll();
      semaphore.waiters.ViewFacts();
      if n == 0 {
        AddsNone(before, 0);
        return;
      }
      if semaphore.waiters.IsEmpty() {
        AddedMeans(semaphore.bits, n);
        semaphore.bits := Added(semaphore.bits, n);
        AddsAll(before, n);
        return;
      }
      woken, panicked, picked := semaphore.AddPermitsLocked(n);
    }
  }
}

/** Runs of splits, merges, drops and forgets of guards on a semaphore whose queue is empty. */
module PermitRuns {
  import opened Basics
  import opened Protocol
  import opened ProtocolAccounting

  datatype Pool = Pool(free: nat, guards: seq<Guard>, forgotten: nat)

  datatype GuardOp = Split(g: nat, n: nat) | Merge(g: nat, h: nat) | Forget(g: nat) | Drop(g: nat)

  predicate Applies(p: Pool, op: GuardOp) {
    && op.g < |p.guards|
    && (op.Split? ==> op.n <= p.guards[op.g].permits)
    && (op.Merge? ==> op.h < |p.guards| && op.h != op.g)
  }

  /** An operation that does not apply, such as splitting off too much, changes nothing. */
  function Step(p: Pool, op: GuardOp): Pool {
    if !Applies(p, op) then p
    else
      var held := p.guards[op.g].permits;
      match op
      case Split(g, n) => p.(guards := p.guards[g := Guard(held - n)] + [Guard(n)])
      case Merge(g, h) => p.(guards := p.guards[g := Merged(p.guards[g], p.guards[h])][h := Guard(0)])
      case Forget(g) => p.(guards := p.guards[g := Guard(0)], forgotten := p.forgotten + held)
      case Drop(g) => p.(guards := p.guards[g := Guard(0)], free := p.free + held)
  }

  /** Each operation moves exactly the permits it names, and touches no other guard. */
  lemma StepMoves(p: Pool, op: GuardOp)
    requires Applies(p, op) && Narrow(p)
    ensures var p' := Step(p, op);
      && |p.guards| <= |p'.guards|
      && (forall x | 0 <= x < |p.guards| && x != op.g && !(op.Merge? && x == op.h) :: p'.guards[x] == p.guards[x])
      && match op
         case Split(g, n) =>
           && |p'.guards| == |p.guards| + 1 && p'.guards[|p.guards|].permits == n
           && p'.guards[g].permits + n == p.guards[g].permits && p'.free == p.free && p'.forgotten == p.forgotten
         case Merge(g, h) =>
           && |p'.guards| == |p.guards| && p'.guards[h].permits == 0 && p'.free == p.free && p'.forgotten == p.forgotten
           && p'.guards[g].permits + (if Wraps(p, op) then 0x1_0000_0000 else 0) == p.guards[g].permits + p.guards[h].permits
         case Forget(g) =>
           && |p'.guards| == |p.guards| && p'.guards[g].permits == 0 && p'.free == p.free
           && p'.forgotten == p.forgotten + p.guards[g].permits
         case Drop(g) =>
           && |p'.guards| == |p.guards| && p'.guards[g].permits == 0 && p'.forgotten == p.forgotten
           && p'.free == p.free + p.guards[g].permits
  {
  }

  function Run(p: Pool, ops: seq<GuardOp>): Pool
    decreases |ops|
  {
    if ops == [] then p else Run(Step(p, ops[0]), ops[1..])
  }

  function AllPermits(p: Pool): nat {
    p.free + p.forgotten + Total(p.guards, Weight)
  }

  ghost predicate Narrow(p: Pool) {
    forall g | 0 <= g < |p.guards| :: p.guards[g].permits < U32_LIMIT
  }

  /** A merge whose sum does not fit 32 bits. */
  predicate Wraps(p: Pool, op: GuardOp) {
    op.Merge? && Applies(p, op) && p.guards[op.g].permits + p.guards[op.h].permits >= U32_LIMIT
  }

  function WrapsIn(p: Pool, ops: seq<GuardOp>): nat
    decreases |ops|
  {
    if ops == [] then 0 else (if Wraps(p, ops[0]) then 1 else 0) + WrapsIn(Step(p, ops[0]), ops[1..])
  }

  lemma StepConserves(p: Pool, op: GuardOp)
    requires Narrow(p)
    ensures Narrow(Step(p, op))
    ensures AllPermits(Step(p, op)) + (if Wraps(p, op) then U32_LIMIT else 0) == AllPermits(p)
    ensures Total(Step(p, op).guards, Weight) <= Total(p.guards, Weight)
  {
    hide Total;
    if Applies(p, op) {
      var held := p.guards[op.g].permits;
      match op
      case Split(g, n) =>
        TotalUpdate(p.guards, g, Guard(held - n), Weight);
        TotalAppend(p.guards[g := Guard(held - n)], Guard(n), Weight);
      case Merge(g, h) =>
        var merged := Merged(p.guards[g], p.guards[h]);
        TotalUpdate(p.guards, g, merged, Weight);
        TotalUpdate(p.guards[g := merged], h, Guard(0), Weight);
      case Forget(g) => TotalUpdate(p.guards, g, Guard(0), Weight);
      case Drop(g) => TotalUpdate(p.guards, g, Guard(0), Weight);
    }
  }

  /** What the guards hold that a run forgets, at the moment it forgets them. */
  function ForgottenIn(p: Pool, ops: seq<GuardOp>): nat
    decreases |ops|
  {
    if ops == [] then 0
    else (if ops[0].Forget? && Applies(p, ops[0]) then p.guards[ops[0].g].permits else 0)
         + ForgottenIn(Step(p, ops[0]), ops[1..])
  }

  /** Nothing is forgotten but by forgetting a guard. */
  lemma {:induction false} RunForgets(p: Pool, ops: seq<GuardOp>)
    ensures Run(p, ops).forgotten == p.forgotten + ForgottenIn(p, ops)
    decreases |ops|
  {
    if ops != [] { RunForgets(Step(p, ops[0]), ops[1..]); }
  }

  lemma {:induction false} NoForgetNothingForgotten(p: Pool, ops: seq<GuardOp>)
    requires forall op | op in ops :: !op.Forget?
    ensures ForgottenIn(p, ops) == 0
    decreases |ops|
  {
    if ops != [] { NoForgetNothingForgotten(Step(p, ops[0]), ops[1..]); }
  }

  /** A run loses 2^32 permits for each merge that wraps, and nothing else. */
  lemma {:induction false} RunLosesWraps(p: Pool, ops: seq<GuardOp>)
    requires Narrow(p)
    ensures AllPermits(Run(p, ops)) + 0x1_0000_0000 * WrapsIn(p, ops) == AllPermits(p)
    ensures Run(p, ops).forgotten == p.forgotten + ForgottenIn(p, ops)
    decreases |ops|
  {
    hide Step, Wraps, AllPermits, Narrow;
    RunForgets(p, ops);
    if ops != [] {
      StepConserves(p, ops[0]);
      RunLosesWraps(Step(p, ops[0]), ops[1..]);
    }
  }

  /** A run conserves its permits if and only if no merge wraps. */
  lemma RunConservesIffNoWrap(p: Pool, ops: seq<GuardOp>)
    requires Narrow(p)
    ensures var end := Run(p, ops);
      && (AllPermits(end) == AllPermits(p) <==> WrapsIn(p, ops) == 0)
      && (WrapsIn(p, ops) == 0 <==>
            end.free + Total(end.guards, Weight) + ForgottenIn(p, ops) == p.free + Total(p.guards, Weight))
  {
    RunLosesWraps(p, ops);
  }

  lemma {:induction false} TwoFit(guards: seq<Guard>, g: nat, h: nat)
    requires g < |guards| && h < |guards| && g != h
    ensures guards[g].permits + guards[h].permits <= Total(guards, Weight)
  {
    TotalUpdate(guards, g, Guard(0), Weight);
    TotalUpdate(guards[g := Guard(0)], h, Guard(0), Weight);
  }

  /** Guards that fit 32 bits together never wrap, however they are split and merged. */
  lemma {:induction false} SmallNeverWraps(p: Pool, ops: seq<GuardOp>)
    requires Narrow(p) && Total(p.guards, Weight) < U32_LIMIT
    ensures WrapsIn(p, ops) == 0
    decreases |ops|
  {
    hide Step, Narrow, Total;
    if ops != [] {
      StepConserves(p, ops[0]);
      if Wraps(p, ops[0]) { TwoFit(p.guards, ops[0].g, ops[0].h); }
      SmallNeverWraps(Step(p, ops[0]), ops[1..]);
    }
  }

  lemma {:induction false} NothingHeld(guards: seq<Guard>)
    requires forall g | 0 <= g < |guards| :: guards[g].permits == 0
    ensures Total(guards, Weight) == 0
  {
    if guards != [] {
      assert forall g | 0 <= g < |guards[1..]| :: guards[1..][g] == guards[g + 1];
      NothingHeld(guards[1..]);
    }
  }

  /**
   Acquire `n` permits, split and merge the guard in any way and drop all the parts: exactly `n` permits are free
   again, less those forgotten on the way; and all `n` when no guard was forgotten.
   */
  lemma AcquiredComeBack(free: nat, n: nat, ops: seq<GuardOp>)
    requires n < U32_LIMIT
    requires var end := Run(Pool(free, [Guard(n)], 0), ops);
      forall g | 0 <= g < |end.guards| :: end.guards[g].permits == 0
    ensures var p := Pool(free, [Guard(n)], 0);
      && Run(p, ops).free + ForgottenIn(p, ops) == free + n
      && ((forall op | op in ops :: !op.Forget?) ==> Run(p, ops).free == free + n)
  {
    var p := Pool(free, [Guard(n)], 0);
    TotalAppend([], Guard(n), Weight);
    assert [] + [Guard(n)] == [Guard(n)];
    SmallNeverWraps(p, ops);
    RunLosesWraps(p, ops);
    if forall op | op in ops :: !op.Forget? { NoForgetNothingForgotten(p, ops); }
    NothingHeld(Run(p, ops).guards);
  }
}
