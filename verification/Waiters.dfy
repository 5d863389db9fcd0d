/** Waiters, their state machine, and the bounded list of wakers that one selection collects. */
module Waiters {
  import opened Basics
  import opened Selection

  class Waiter {
    ghost const id: nat
    const needs: nat
    const priority: int
    var status: Status
    var waker: Option<Task>

    constructor (needs: nat, priority: int, ghost id: nat)
      ensures this.needs == needs && this.priority == priority && this.id == id
      ensures status == Waiting && waker == None
    {
      this.needs, this.priority, this.id := needs, priority, id;
      status, waker := Waiting, None;
    }

    ghost function View(): Entry
      reads this
    {
      Entry(id, priority, needs, status, waker)
    }

    // Returns the task woken by reference, if any; the waker stays in place.
    method Cancel() returns (woken: Option<Task>)
      modifies this
      ensures status == Cancelled && waker == old(waker)
      ensures woken == if old(status) == Cancelled then None else waker
    {
      woken := None;
      if status == Waiting {
        status := Cancelled;
        woken := waker;
        return;
      }
      if status == Notified {
        status := Cancelled;
        woken := waker;
      }
    }

    method SetWaker(task: Task)
      modifies this
      ensures waker == Some(task) && status == old(status)
    {
      waker := Some(task);
    }

    method TakeWaker() returns (taken: Option<Task>)
      modifies this
      ensures taken == old(waker) && waker == None && status == old(status)
    {
      taken := waker;
      waker := None;
    }

    method TryNotify() returns (ok: bool)
      modifies this
      ensures ok == (old(status) == Waiting)
      ensures status == (if ok then Notified else old(status)) && waker == old(waker)
    {
      ok := status == Waiting;
      if ok { status := Notified; }
    }
  }

  class WakeList {
    var wakers: array<Option<Task>>
    var count: nat

    ghost predicate Valid()
      reads this, wakers
    {
      && wakers.Length == NUM_WAKERS
      && count <= NUM_WAKERS
      && forall i | 0 <= i < count :: wakers[i].Some?
    }

    /** The tasks collected so far, in order. */
    ghost function Collected(): (tasks: seq<Task>)
      requires Valid()
      reads this, wakers
      ensures |tasks| == count
    {
      seq(count, i requires 0 <= i < count && Valid() reads this, wakers => wakers[i].value)
    }

    constructor ()
      ensures Valid() && fresh(wakers) && Collected() == []
    {
      wakers := new Option<Task>[NUM_WAKERS](_ => None);
      count := 0;
    }

    predicate CanPush()
      reads this
    {
      count < NUM_WAKERS
    }

    predicate IsEmpty()
      reads this
    {
      count == 0
    }

    predicate WasFull()
      reads this
    {
      count == NUM_WAKERS
    }

    // The checked push panics on a full list and the unchecked one is undefined there; with a free slot both do this.
    method Push(task: Task)
      requires Valid() && CanPush()
      modifies this`count, wakers
      ensures Valid() && Collected() == old(Collected()) + [task]
    {
      wakers[count] := Some(task);
      count := count + 1;
    }

    // Returns the tasks woken, in order. The list is empty afterwards, so it never reads as full again.
    method WakeAll() returns (woken: seq<Task>)
      requires Valid()
      modifies this`count, wakers
      ensures Valid() && woken == old(Collected()) && Collected() == []
    {
      woken := [];
      for i := 0 to count
        invariant |woken| == i && woken == Collected()[..i]
      {
        woken := woken + [wakers[i].value];
        assert Collected()[..i + 1] == Collected()[..i] + [Collected()[i]];
      }
      for i := 0 to count
        invariant wakers.Length == NUM_WAKERS && count <= NUM_WAKERS
      {
        wakers[i] := None;
      }
      count := 0;
    }
  }

  /** What notifying one waiter does: the source's notify step, shared by both selection loops. */
  method NotifyInto(waiter: Waiter, wakeList: WakeList)
    requires wakeList.Valid() && wakeList.CanPush()
    modifies waiter, wakeList`count, wakeList.wakers
    ensures wakeList.Valid()
    ensures wakeList.Collected() == old(wakeList.Collected()) + old(TaskOf(waiter.View()))
    ensures if old(waiter.status) == Waiting
      then waiter.status == Notified && waiter.waker == None
      else waiter.status == old(waiter.status) && waiter.waker == old(waiter.waker)
  {
    var ok := waiter.TryNotify();
    if ok {
      var taken := waiter.TakeWaker();
      if taken.Some? {
        wakeList.Push(taken.value);
      }
    }
  }
}
