/**
 The semaphore under every interleaving: futures being polled and dropped, releases, non-blocking attempts,
 permit guards and closers, each advancing one atomic access at a time. Code that runs under the wait-queue
 lock is one step, except that polling looks at the closed flag first and pushes in a later step of its own.
 */
module Protocol {
  import opened Basics
  import opened Config
  import opened Selection

  /** Where a future is in its life. Between polls it is `Fresh`, `Parked` or `Done`. */
  datatype Pc =
    | Fresh                 // not polled yet
    | Prepared(seen: nat)   // loaded an open word with enough permits, about to compare and exchange
    | Slow                  // the fast path failed, about to lock the queue
    | Locked                // holds the lock and saw the word open, about to push
    | Queued                // has a handle, about to look for a cancellation
    | Uncancelled           // about to look for a notification
    | Claiming              // saw the notification, about to look at the closed flag
    | Arming                // saw none, about to store its waker
    | Parked                // returned pending
    | Done                  // returned a permit or an error
    | Dropped

  datatype Future = Future(needs: nat, priority: Isize, pc: Pc, handle: Option<Status>, waker: Option<Task>, arrival: nat)

  datatype Guard = Guard(permits: nat)

  /** A running release: permits not yet placed, and after a selection those granted and the tasks to wake. */
  datatype Release =
    | Starting(rem: nat)
    | Granting(granted: nat, rem: nat, tasks: seq<Task>)
    | Waking(rem: nat, tasks: seq<Task>)
    | Adding(rem: nat)
    | Finished

  /** A running non-blocking attempt that loaded an open word with enough permits. */
  datatype Attempt = Loaded(n: nat, seen: nat) | Ended

  /** Bookkeeping: permits ever put in, no longer returnable, forgotten, and given back twice. */
  datatype Ledger = Ledger(supply: nat, stranded: nat, forgotten: nat, phantom: nat)

  datatype State = State(
    count: nat, closed: bool,
    lock: Option<int>,               // the future that holds the wait-queue lock between two steps
    queues: map<int, seq<int>>, heap: multiset<int>,
    next: nat,                       // next arrival number
    futs: seq<Future>, guards: seq<Guard>, releases: seq<Release>, attempts: seq<Attempt>,
    closers: nat,                    // closers that set the flag and have not drained the queue yet
    drained: bool,                   // some close has returned
    woken: set<Task>,                // futures woken since they were last polled; a future's task has its number
    ledger: Ledger)

  datatype PollAction =
    | NewFuture(needs: nat, priority: Isize)
    | PollLoad(i: nat)
    | PollExchange(i: nat, spurious: bool)
    | PollLock(i: nat)
    | PollPush(i: nat)
    | PollCancelled(i: nat)
    | PollNotified(i: nat)
    | PollClaim(i: nat)
    | PollArm(i: nat)
    | PollAgain(i: nat)
    | DropFuture(i: nat)

  datatype HolderAction =
    | TryNothing
    | TryLoad(n: nat)
    | TryExchange(a: nat, spurious: bool)
    | SplitGuard(g: nat, n: nat)
    | MergeGuards(g: nat, h: nat)
    | ForgetGuard(g: nat)
    | ForgetPermits(n: nat)

  datatype ReleaseAction =
    | AddPermits(n: nat)
    | DropGuard(g: nat)
    | ReleaseSelect(r: nat, raced: set<int>)   // `raced`: futures whose drop hits between the two looks at their state
    | ReleaseChecked(r: nat)
    | ReleaseWake(r: nat)
    | ReleaseAdd(r: nat)

  datatype CloseAction = SetClosed | Drain

  datatype Action =
    | Acquirer(poll: PollAction)
    | Holder(hold: HolderAction)
    | Releaser(release: ReleaseAction)
    | Closer(close: CloseAction)

  // How the queue looks to a selection.

  /** A queued future as an entry. One whose drop races with the selection yields no waker. */
  function EntryOf(futs: seq<Future>, i: int, raced: set<int>): Entry
    requires 0 <= i < |futs| && futs[i].handle.Some?
  {
    var f := futs[i];
    Entry(i, f.priority, f.needs, f.handle.value, if i in raced then None else f.waker)
  }

  ghost predicate Readable(futs: seq<Future>, q: seq<int>) {
    forall k | 0 <= k < |q| :: 0 <= q[k] < |futs| && futs[q[k]].handle.Some?
  }

  ghost predicate AllReadable(futs: seq<Future>, queues: map<int, seq<int>>) {
    forall p | p in queues :: Readable(futs, queues[p])
  }

  ghost function Entries(futs: seq<Future>, q: seq<int>, raced: set<int>): (es: seq<Entry>)
    requires Readable(futs, q)
  {
    seq(|q|, k requires 0 <= k < |q| => EntryOf(futs, q[k], raced))
  }

  ghost function View(futs: seq<Future>, queues: map<int, seq<int>>, raced: set<int>): Queues
    requires AllReadable(futs, queues)
  {
    map p | p in queues :: Entries(futs, queues[p], raced)
  }

  ghost function Ids(es: seq<Entry>): (ids: seq<int>) {
    seq(|es|, k requires 0 <= k < |es| => es[k].id)
  }

  ghost function IdQueues(queues: Queues): map<int, seq<int>> {
    map p | p in queues :: Ids(queues[p])
  }

  /** Notification of one future; a racing drop turns it into a cancelled one, and its permits go nowhere. */
  function Notify(f: Future, raced: bool): Future {
    if raced then f.(handle := Some(Cancelled), pc := Dropped)
    else f.(handle := Some(Notified), waker := None)
  }

  function NotifyAll(futs: seq<Future>, es: seq<Entry>, raced: set<int>): (after: seq<Future>)
    ensures |after| == |futs|
    decreases |es|
  {
    if es == [] then futs
    else
      var i := es[0].id;
      NotifyAll(if i < |futs| then futs[i := Notify(futs[i], i in raced)] else futs, es[1..], raced)
  }

  /** Demands granted to futures whose drop raced with the selection. */
  function RacedNeeds(es: seq<Entry>, raced: set<int>): nat {
    if es == [] then 0 else (if es[0].id in raced then es[0].needs else 0) + RacedNeeds(es[1..], raced)
  }

  // The steps.

  function MoveTo(s: State, i: nat, pc: Pc): State
    requires i < |s.futs|
  {
    s.(futs := s.futs[i := s.futs[i].(pc := pc)])
  }

  /** The future has taken its permits off the word. */
  function Obtain(s: State, i: nat): State
    requires i < |s.futs| && s.futs[i].needs <= s.count
  {
    MoveTo(s, i, Done).(count := s.count - s.futs[i].needs, guards := s.guards + [Guard(s.futs[i].needs)])
  }

  /** A notified future takes the permits reserved for it, unless the semaphore has been closed. */
  function Claim(s: State, i: nat): State
    requires i < |s.futs|
  {
    var n := s.futs[i].needs;
    if s.closed then MoveTo(s, i, Done).(ledger := s.ledger.(stranded := s.ledger.stranded + n))
    else MoveTo(s, i, Done).(guards := s.guards + [Guard(n)])
  }

  function DropStep(s: State, i: nat): State
    requires i < |s.futs|
  {
    var f := s.futs[i];
    var lost := if f.handle == Some(Notified) && f.pc == Parked then f.needs else 0;
    s.(futs := s.futs[i := f.(pc := Dropped, handle := if f.handle.Some? then Some(Cancelled) else None)],
       ledger := s.ledger.(stranded := s.ledger.stranded + lost))
  }

  ghost function PushStep(s: State, i: nat, strategy: int -> QueueStrategy): State
    requires i < |s.futs|
  {
    var f := s.futs[i];
    var q := At(s.queues, f.priority);
    s.(lock := None, next := s.next + 1,
       futs := s.futs[i := f.(pc := Queued, handle := Some(Waiting), arrival := s.next)],
       queues := s.queues[f.priority := if strategy(f.priority) == Fifo then q + [i] else [i] + q],
       heap := if q == [] then s.heap + multiset{f.priority as int} else s.heap)
  }

  ghost predicate CanPoll(s: State, a: PollAction) {
    match a
    case NewFuture(needs, _) => needs < U32_LIMIT
    case PollLoad(i) => i < |s.futs| && s.futs[i].pc == Fresh
    case PollExchange(i, _) => i < |s.futs| && s.futs[i].pc.Prepared?
    case PollLock(i) => i < |s.futs| && s.futs[i].pc == Slow && s.lock == None
    case PollPush(i) => i < |s.futs| && s.futs[i].pc == Locked
    case PollCancelled(i) => i < |s.futs| && s.futs[i].pc == Queued
    case PollNotified(i) => i < |s.futs| && s.futs[i].pc == Uncancelled
    case PollClaim(i) => i < |s.futs| && s.futs[i].pc == Claiming
    case PollArm(i) => i < |s.futs| && s.futs[i].pc == Arming
    case PollAgain(i) => i < |s.futs| && s.futs[i].pc == Parked
    case DropFuture(i) => i < |s.futs| && (s.futs[i].pc == Fresh || s.futs[i].pc == Parked || s.futs[i].pc == Done)
  }

  ghost function Poll(s: State, a: PollAction, strategy: int -> QueueStrategy): State
    requires CanPoll(s, a)
  {
    match a
    case NewFuture(needs, priority) => s.(futs := s.futs + [Future(needs, priority, Fresh, None, None, 0)])
    case PollLoad(i) =>
      MoveTo(s, i, if s.closed then Done else if s.count >= s.futs[i].needs then Prepared(s.count) else Slow)
    case PollExchange(i, spurious) =>
      if !s.closed && s.count == s.futs[i].pc.seen && s.count >= s.futs[i].needs && !spurious then Obtain(s, i)
      else MoveTo(s, i, Slow)
    case PollLock(i) => if s.closed then MoveTo(s, i, Done) else MoveTo(s, i, Locked).(lock := Some(i))
    case PollPush(i) => PushStep(s, i, strategy)
    case PollCancelled(i) => MoveTo(s, i, if s.futs[i].handle == Some(Cancelled) then Done else Uncancelled)
    case PollNotified(i) => MoveTo(s, i, if s.futs[i].handle == Some(Notified) then Claiming else Arming)
    case PollClaim(i) => Claim(s, i)
    case PollArm(i) => s.(futs := s.futs[i := s.futs[i].(pc := Parked, waker := Some(i))])
    case PollAgain(i) => MoveTo(s, i, Queued).(woken := s.woken - {i})
    case DropFuture(i) => DropStep(s, i)
  }

  ghost predicate CanHold(s: State, a: HolderAction) {
    match a
    case TryNothing => true
    case TryLoad(n) => 0 < n < U32_LIMIT
    case TryExchange(a, _) => a < |s.attempts| && s.attempts[a].Loaded?
    case SplitGuard(g, n) => g < |s.guards| && n <= s.guards[g].permits
    case MergeGuards(g, h) => g < |s.guards| && h < |s.guards| && g != h
    case ForgetGuard(g) => g < |s.guards|
    case ForgetPermits(_) => true
  }

  function Exchange(s: State, a: nat, spurious: bool): State
    requires a < |s.attempts| && s.attempts[a].Loaded?
  {
    var n := s.attempts[a].n;
    if !s.closed && s.count == s.attempts[a].seen && s.count >= n && !spurious then
      s.(count := s.count - n, guards := s.guards + [Guard(n)], attempts := s.attempts[a := Ended])
    else s.(attempts := s.attempts[a := if s.closed || s.count < n then Ended else Loaded(n, s.count)])
  }

  /** Permits are 32 bits wide in a guard: a merge that does not fit wraps. */
  function Merged(a: Guard, b: Guard): Guard {
    Guard((a.permits + b.permits) % U32_LIMIT)
  }

  function Merge(s: State, g: nat, h: nat): State
    requires g < |s.guards| && h < |s.guards|
  {
    var sum, merged := s.guards[g].permits + s.guards[h].permits, Merged(s.guards[g], s.guards[h]);
    s.(guards := s.guards[g := merged][h := Guard(0)],
       ledger := s.ledger.(stranded := s.ledger.stranded + (sum - merged.permits)))
  }

  ghost function Hold(s: State, a: HolderAction): State
    requires CanHold(s, a)
  {
    match a
    case TryNothing => s.(guards := s.guards + [Guard(0)])
    case TryLoad(n) => if s.closed || s.count < n then s else s.(attempts := s.attempts + [Loaded(n, s.count)])
    case TryExchange(a, spurious) => Exchange(s, a, spurious)
    case SplitGuard(g, n) => s.(guards := s.guards[g := Guard(s.guards[g].permits - n)] + [Guard(n)])
    case MergeGuards(g, h) => Merge(s, g, h)
    case ForgetGuard(g) =>
      s.(guards := s.guards[g := Guard(0)], ledger := s.ledger.(forgotten := s.ledger.forgotten + s.guards[g].permits))
    case ForgetPermits(n) =>
      s.(count := s.count - Min(s.count, n), ledger := s.ledger.(forgotten := s.ledger.forgotten + Min(s.count, n)))
  }

  ghost predicate CanRelease(s: State, a: ReleaseAction) {
    match a
    case AddPermits(n) => n > 0
    case DropGuard(g) => g < |s.guards| && s.guards[g].permits > 0
    case ReleaseSelect(r, raced) =>
      && r < |s.releases| && s.releases[r].Starting? && s.lock == None && AllReadable(s.futs, s.queues)
      && forall i | i in raced :: 0 <= i < |s.futs| && s.futs[i].pc == Parked
    case ReleaseChecked(r) => r < |s.releases| && s.releases[r].Granting?
    case ReleaseWake(r) => r < |s.releases| && s.releases[r].Waking?
    case ReleaseAdd(r) => r < |s.releases| && s.releases[r].Adding?
  }

  /** What a release does after a selection that granted `granted` of its `rem` permits and collected `tasks`. */
  function AfterSelect(rem: nat, granted: nat, tasks: seq<Task>): Release {
    var left := if granted <= rem then rem - granted else 0;
    if granted == 0 || tasks == [] then Adding(left) else Granting(granted, left, tasks)
  }

  /** `Select` applied to the queue as the releaser `r` finds it. */
  ghost function Chosen(s: State, r: nat, raced: set<int>): Selected
    requires r < |s.releases| && s.releases[r].Starting? && AllReadable(s.futs, s.queues)
  {
    Select(View(s.futs, s.queues, raced), s.heap, s.releases[r].rem)
  }

  ghost function SelectStep(s: State, r: nat, raced: set<int>): State
    requires r < |s.releases| && s.releases[r].Starting? && AllReadable(s.futs, s.queues)
  {
    if Flatten(s.queues) == [] then s.(releases := s.releases[r := Adding(s.releases[r].rem)])
    else
      var sel := Chosen(s, r, raced);
      s.(queues := IdQueues(sel.queues), heap := sel.heap,
         futs := NotifyAll(s.futs, sel.notified, raced),
         ledger := s.ledger.(stranded := s.ledger.stranded + RacedNeeds(sel.notified, raced)),
         releases := s.releases[r := AfterSelect(s.releases[r].rem, Needs(sel.notified), Tasks(sel.notified))])
  }

  /**
   The closed check between unlocking and waking: a closed semaphore gets the granted permits back, the rest is
   lost.
   */
  function CheckStep(s: State, r: nat): State
    requires r < |s.releases| && s.releases[r].Granting?
  {
    var granted, rem := s.releases[r].granted, s.releases[r].rem;
    if s.closed then
      s.(count := s.count + granted, releases := s.releases[r := Finished],
         ledger := s.ledger.(phantom := s.ledger.phantom + granted, stranded := s.ledger.stranded + rem))
    else s.(releases := s.releases[r := Waking(rem, s.releases[r].tasks)])
  }

  ghost function ReleaseBy(s: State, a: ReleaseAction): State
    requires CanRelease(s, a)
  {
    match a
    case AddPermits(n) => s.(releases := s.releases + [Starting(n)], ledger := s.ledger.(supply := s.ledger.supply + n))
    case DropGuard(g) => s.(guards := s.guards[g := Guard(0)], releases := s.releases + [Starting(s.guards[g].permits)])
    case ReleaseSelect(r, raced) => SelectStep(s, r, raced)
    case ReleaseChecked(r) => CheckStep(s, r)
    case ReleaseWake(r) =>
      s.(releases := s.releases[r := Adding(s.releases[r].rem)], woken := s.woken + set t | t in s.releases[r].tasks)
    case ReleaseAdd(r) => s.(count := s.count + s.releases[r].rem, releases := s.releases[r := Finished])
  }

  ghost predicate CanClose(s: State, a: CloseAction) {
    a.Drain? ==> s.closers > 0 && s.lock == None
  }

  /** The futures that a close finds waiting in the queue with a waker stored. */
  ghost function Sleepers(futs: seq<Future>, queues: map<int, seq<int>>): set<Task> {
    set i | 0 <= i < |futs| && futs[i].handle == Some(Waiting) && i in At(queues, futs[i].priority) && futs[i].waker.Some?
  }

  /** Cancelling every queued future that still waits. */
  ghost function CancelQueued(futs: seq<Future>, queues: map<int, seq<int>>): (after: seq<Future>)
    ensures |after| == |futs|
  {
    seq(|futs|, i requires 0 <= i < |futs| =>
      if futs[i].handle == Some(Waiting) && i in At(queues, futs[i].priority) then futs[i].(handle := Some(Cancelled))
      else futs[i])
  }

  ghost function Close(s: State, a: CloseAction): State
    requires CanClose(s, a)
  {
    match a
    case SetClosed => s.(closed := true, closers := s.closers + 1)
    case Drain =>
      s.(closers := s.closers - 1, drained := true, queues := map[], heap := multiset{},
         futs := CancelQueued(s.futs, s.queues), woken := s.woken + Sleepers(s.futs, s.queues))
  }

  ghost predicate Enabled(s: State, a: Action) {
    match a
    case Acquirer(poll) => CanPoll(s, poll)
    case Holder(hold) => CanHold(s, hold)
    case Releaser(release) => CanRelease(s, release)
    case Closer(close) => CanClose(s, close)
  }

  ghost function Apply(s: State, a: Action, strategy: int -> QueueStrategy): State
    requires Enabled(s, a)
  {
    match a
    case Acquirer(poll) => Poll(s, poll, strategy)
    case Holder(hold) => Hold(s, hold)
    case Releaser(release) => ReleaseBy(s, release)
    case Closer(close) => Close(s, close)
  }

  ghost function Init(permits: nat): State {
    State(permits, false, None, map[], multiset{}, 0, [], [], [], [], 0, false, {}, Ledger(permits, 0, 0, 0))
  }

  /** `run` is a sequence of states, each reached from the one before by an action. */
  ghost predicate IsRun(run: seq<State>, actions: seq<Action>, permits: nat, strategy: int -> QueueStrategy) {
    && |run| == |actions| + 1 && run[0] == Init(permits)
    && forall k | 0 <= k < |actions| :: Enabled(run[k], actions[k]) && run[k + 1] == Apply(run[k], actions[k], strategy)
  }
}
