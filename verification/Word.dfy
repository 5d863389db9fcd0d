/**
 The packed permit word: the permit count in the upper 63 bits and the closed flag in the lowest one.

 Every access to the word is one atomic step. Before each access the other threads may overwrite the word
 and may make a weak compare-exchange fail; `turns` lists what they do, so a method proved here is correct
 under every finite interference.
 */
module PermitWord {
  import opened Basics

  const WORD_LIMIT: nat := 0x1_0000_0000_0000_0000
  const COUNT_LIMIT: nat := 0x8000_0000_0000_0000
  const MAX_PERMITS: nat := (WORD_LIMIT - 1) / 8

  type Word = w: int | 0 <= w < WORD_LIMIT

  /** What the word represents. */
  datatype Shared = Shared(count: nat, closed: bool)

  function Unpack(w: Word): (s: Shared)
    ensures s.count < COUNT_LIMIT && w == 2 * s.count + if s.closed then 1 else 0
  {
    Shared(w / 2, w % 2 == 1)
  }

  function Pack(s: Shared): (w: Word)
    requires s.count < COUNT_LIMIT
    ensures w / 2 == s.count && (w % 2 == 1 <==> s.closed)
  {
    2 * s.count + if s.closed then 1 else 0
  }

  /** Words and pairs (count, closed) correspond one to one. */
  lemma PackIsExact(s: Shared, w: Word)
    requires s.count < COUNT_LIMIT
    ensures Pack(s) == w <==> Unpack(w) == s
  {
  }

  /** Adding `n` permits shifted past the flag, as the hardware does: modulo the word size. */
  function Added(w: Word, n: nat): Word {
    (w + (2 * n) % WORD_LIMIT) % WORD_LIMIT
  }

  /** Setting the closed flag. */
  function Flagged(w: Word): Word {
    if w % 2 == 0 then w + 1 else w
  }

  /** An addition never touches the flag, and wraps the count at 63 bits. */
  lemma AddedMeans(w: Word, n: nat)
    ensures Unpack(Added(w, n)) == Shared((Unpack(w).count + n) % COUNT_LIMIT, Unpack(w).closed)
  {
    var c, b, m := w / 2, w % 2, n % COUNT_LIMIT;
    DoubleMod(n);
    DoubleMod(c + m);
    assert w + (2 * n) % WORD_LIMIT == 2 * (c + m) + b;
    assert (c + m) % COUNT_LIMIT == (c + n) % COUNT_LIMIT;
    assert Added(w, n) == 2 * ((c + m) % COUNT_LIMIT) + b;
  }

  lemma DoubleMod(n: nat)
    ensures (2 * n) % WORD_LIMIT == 2 * (n % COUNT_LIMIT)
  {
    var q, r := n / COUNT_LIMIT, n % COUNT_LIMIT;
    assert n == q * COUNT_LIMIT + r;
    Remainder(2 * n, q, 2 * r);
  }

  lemma Remainder(x: int, q: int, r: int)
    requires x == q * WORD_LIMIT + r && 0 <= r < WORD_LIMIT
    ensures x % WORD_LIMIT == r
  {
  }

  lemma FlaggedMeans(w: Word)
    ensures Unpack(Flagged(w)) == Shared(Unpack(w).count, true)
  {
  }

  // The atomic steps that the retry loops implement.

  datatype TryResult = Acquired(permits: nat) | NoPermits | Closed

  /** One indivisible attempt to take `n` permits. */
  function Attempt(s: Shared, n: nat): (Shared, TryResult) {
    if s.closed then (s, Closed)
    else if s.count < n then (s, NoPermits)
    else (s.(count := s.count - n), Acquired(n))
  }

  /**
   An attempt answers closed exactly on a closed semaphore, acquires exactly when the permits are there, takes what it
   acquires and nothing else, and keeps the flag.
   */
  lemma AttemptMeans(s: Shared, n: nat)
    ensures var s', r := Attempt(s, n).0, Attempt(s, n).1;
      && (r == Closed <==> s.closed)
      && (r == Acquired(n) <==> !s.closed && s.count >= n)
      && (r == NoPermits <==> !s.closed && s.count < n)
      && s'.closed == s.closed && s'.count + (if r.Acquired? then n else 0) == s.count
  {
  }

  /** One indivisible removal of up to `n` permits. */
  function Removal(s: Shared, n: nat): (Shared, nat) {
    (s.(count := s.count - Min(s.count, n)), Min(s.count, n))
  }

  /** A removal takes no more than asked for, less only if it takes all, and keeps the flag. */
  lemma RemovalMeans(s: Shared, n: nat)
    ensures var s', removed := Removal(s, n).0, Removal(s, n).1;
      && removed <= n && s'.count + removed == s.count && (removed < n ==> s'.count == 0) && s'.closed == s.closed
  {
  }

  // Interference.

  /** What the other threads do before one access. */
  datatype Turn = Turn(write: Option<Word>, spurious: bool)

  function Disturb(w: Word, turn: Turn): Word {
    if turn.write.Some? then turn.write.value else w
  }

  /** The word after the given turns of the other threads, with no step of ours between them. */
  function Disturbed(w: Word, turns: seq<Turn>): Word
    decreases |turns|
  {
    if turns == [] then w else Disturbed(Disturb(w, turns[0]), turns[1..])
  }

  lemma {:induction false} DisturbedMore(w: Word, turns: seq<Turn>, k: nat)
    requires k < |turns|
    ensures Disturbed(w, turns[..k + 1]) == Disturb(Disturbed(w, turns[..k]), turns[k])
    decreases |turns|
  {
    if k > 0 {
      DisturbedMore(Disturb(w, turns[0]), turns[1..], k - 1);
      assert turns[..k + 1][1..] == turns[1..][..k] && turns[..k][1..] == turns[1..][..k - 1];
    } else {
      assert turns[..1][1..] == [];
    }
  }

  /** After some turns the word is what the last writing one wrote. */
  lemma LastWriteStands(w: Word, turns: seq<Turn>)
    requires turns != []
    ensures var last := turns[|turns| - 1];
      Disturbed(w, turns) == if last.write.Some? then last.write.value else Disturbed(w, turns[..|turns| - 1])
  {
    DisturbedMore(w, turns, |turns| - 1);
    assert turns[..|turns| - 1 + 1] == turns;
  }

  /** No turn clears the flag. */
  ghost predicate NeverReopens(w: Word, turns: seq<Turn>)
    decreases |turns|
  {
    turns != [] ==>
      && (Unpack(w).closed ==> Unpack(Disturb(w, turns[0])).closed)
      && NeverReopens(Disturb(w, turns[0]), turns[1..])
  }

  /** While no turn clears the flag, a closed word stays closed, and every attempt on it fails and changes nothing. */
  lemma {:induction false} StepsKeepClosed(w: Word, turns: seq<Turn>, k: nat, n: nat)
    requires Unpack(w).closed && NeverReopens(w, turns) && k <= |turns|
    ensures var s := Unpack(Disturbed(w, turns[..k])); s.closed && Attempt(s, n) == (s, Closed)
    decreases k
  {
    if k > 0 {
      StepsKeepClosed(Disturb(w, turns[0]), turns[1..], k - 1, n);
      assert turns[..k][1..] == turns[1..][..k - 1];
    }
  }

  lemma AlwaysClosed(w: Word, turns: seq<Turn>, n: nat)
    requires Unpack(w).closed && NeverReopens(w, turns)
    ensures forall k | 0 <= k <= |turns| ::
      Unpack(Disturbed(w, turns[..k])).closed && Attempt(Unpack(Disturbed(w, turns[..k])), n).1 == Closed
  {
    forall k | 0 <= k <= |turns|
      ensures Unpack(Disturbed(w, turns[..k])).closed && Attempt(Unpack(Disturbed(w, turns[..k])), n).1 == Closed
    {
      StepsKeepClosed(w, turns, k, n);
    }
  }

  /** `next` is what one access of the semaphore's own code may leave behind. */
  ghost predicate OurStep(w: Word, next: Word) {
    || next == w || next == Flagged(w)
    || (exists n: nat :: next == Added(w, n))
    || (exists n: nat :: Unpack(next) == Attempt(Unpack(w), n).0)
    || (exists n: nat :: Unpack(next) == Removal(Unpack(w), n).0)
  }

  ghost predicate OurTurns(w: Word, turns: seq<Turn>)
    decreases |turns|
  {
    turns != [] ==> OurStep(w, Disturb(w, turns[0])) && OurTurns(Disturb(w, turns[0]), turns[1..])
  }

  /** Threads that run the semaphore's own code never clear the flag. */
  lemma {:induction false} OurTurnsNeverReopen(w: Word, turns: seq<Turn>)
    requires OurTurns(w, turns)
    ensures NeverReopens(w, turns)
    decreases |turns|
  {
    if turns != [] {
      if Unpack(w).closed { OurStepKeepsClosed(w, Disturb(w, turns[0])); }
      OurTurnsNeverReopen(Disturb(w, turns[0]), turns[1..]);
    }
  }

  lemma OurStepKeepsClosed(w: Word, next: Word)
    requires OurStep(w, next) && Unpack(w).closed
    ensures Unpack(next).closed
  {
    hide Added, Unpack, Flagged;
    FlaggedMeans(w);
    if n: nat :| next == Added(w, n) { AddedMeans(w, n); }
  }

  class AtomicWord {
    var bits: Word
    /** The turns still to come; afterwards the other threads are silent. */
    var turns: seq<Turn>

    constructor (s: Shared, turns: seq<Turn>)
      requires s.count < COUNT_LIMIT
      ensures Unpack(bits) == s && bits == 2 * s.count + (if s.closed then 1 else 0) && this.turns == turns
    {
      var w := Pack(s);
      PackIsExact(s, w);
      bits, this.turns := w, turns;
    }

    // Lets the other threads take their next turn.
    method Interfere() returns (spurious: bool)
      modifies this
      ensures if old(turns) == [] then bits == old(bits) && turns == [] && !spurious
        else
          && bits == (if old(turns)[0].write.Some? then old(turns)[0].write.value else old(bits))
          && turns == old(turns)[1..] && spurious == old(turns)[0].spurious
    {
      spurious := false;
      if turns != [] {
        var turn := turns[0];
        bits, turns, spurious := Disturb(bits, turn), turns[1..], turn.spurious;
      }
    }

    /** `k` turns have passed since the state (`bits0`, `turns0`), and nothing else happened. */
    ghost predicate Only(bits0: Word, turns0: seq<Turn>, k: nat)
      reads this
    {
      k <= |turns0| && turns == turns0[k..] && bits == Disturbed(bits0, turns0[..k])
    }

    method Load(ghost bits0: Word, ghost turns0: seq<Turn>, ghost k: nat) returns (w: Word, ghost k': nat)
      requires Only(bits0, turns0, k)
      modifies this
      ensures w == bits && Only(bits0, turns0, k') && k' == Min(k + 1, |turns0|)
    {
      if k < |turns0| { DisturbedMore(bits0, turns0, k); }
      var _ := Interfere();
      w := bits;
      k' := Min(k + 1, |turns0|);
    }

    // On failure only the other threads have acted; the actual word is returned. `seen` is the word compared.
    method CompareExchange(expected: Word, next: Word, weak: bool, ghost bits0: Word, ghost turns0: seq<Turn>, ghost k: nat)
      returns (ok: bool, actual: Word, ghost k': nat)
      requires Only(bits0, turns0, k) && expected == bits
      modifies this
      ensures k' == Min(k + 1, |turns0|) && turns == turns0[k'..] && actual == Disturbed(bits0, turns0[..k'])
      ensures ok <==> actual == expected && !(weak && k < |turns0| && turns0[k].spurious)
      ensures ok ==> bits == next
      ensures !ok ==> bits == actual && k < |turns0|
    {
      if k < |turns0| { DisturbedMore(bits0, turns0, k); }
      var spurious := Interfere();
      actual := bits;
      k' := Min(k + 1, |turns0|);
      ok := bits == expected && !(weak && spurious);
      if ok { bits := next; }
    }

    method TryAcquireRetryLoop(n: nat, ghost bits0: Word, ghost turns0: seq<Turn>, ghost k0: nat)
      returns (r: TryResult, ghost k: nat)
      requires 0 < n < U32_LIMIT && Only(bits0, turns0, k0)
      modifies this
      ensures k <= |turns0| && turns == turns0[k..]
      ensures var s := Unpack(Disturbed(bits0, turns0[..k])); (Unpack(bits), r) == Attempt(s, n)
      ensures var s, s' := Unpack(Disturbed(bits0, turns0[..k])), Unpack(bits);
        && (r == Closed <==> s.closed)
        && (r == Acquired(n) <==> !s.closed && s.count >= n)
        && (r == NoPermits <==> !s.closed && s.count < n)
        && s'.closed == s.closed && s'.count + (if r.Acquired? then n else 0) == s.count
    {
      var shifted := n * 2;
      var curr;
      curr, k := Load(bits0, turns0, k0);
      while true
        invariant Only(bits0, turns0, k) && curr == bits
        decreases |turns0| - k
      {
        if curr % 2 == 1 { return Closed, k; }
        if curr < shifted { return NoPermits, k; }
        var ok, actual;
        ok, actual, k := CompareExchange(curr, curr - shifted, true, bits0, turns0, k);
        if ok { return Acquired(n), k; }
        curr := actual;
      }
    }

    /**
     `try_acquire`: one strong attempt, then the retry loop. Whatever the others do, the call is one atomic
     attempt on the pair (count, closed) at the instant after `k` of their turns.
     */
    method TryAcquire() returns (r: TryResult, ghost k: nat)
      modifies this
      ensures k <= |old(turns)| && turns == old(turns)[k..]
      ensures var s := Unpack(Disturbed(old(bits), old(turns)[..k])); (Unpack(bits), r) == Attempt(s, 1)
      ensures var s, s' := Unpack(Disturbed(old(bits), old(turns)[..k])), Unpack(bits);
        && (r == Closed <==> s.closed)
        && (r == Acquired(1) <==> !s.closed && s.count >= 1)
        && (r == NoPermits <==> !s.closed && s.count < 1)
        && s'.closed == s.closed && s'.count + (if r.Acquired? then 1 else 0) == s.count
      ensures Unpack(old(bits)).closed && NeverReopens(old(bits), old(turns)) ==> r == Closed && Unpack(bits).closed
    {
      if Unpack(bits).closed && NeverReopens(bits, turns) { AlwaysClosed(bits, turns, 1); }
      ghost var bits0, turns0 := bits, turns;
      var curr;
      curr, k := Load(bits0, turns0, 0);
      if curr % 2 == 1 { return Closed, k; }
      if curr < 2 { return NoPermits, k; }
      var ok, actual;
      ok, actual, k := CompareExchange(curr, curr - 2, false, bits0, turns0, k);
      if ok { return Acquired(1), k; }
      r, k := TryAcquireRetryLoop(1, bits0, turns0, k);
    }

    /** `try_acquire_many` and its owned variant. Asking for nothing succeeds at once, closed or not. */
    method TryAcquireMany(n: nat) returns (r: TryResult, ghost k: nat)
      requires n < U32_LIMIT
      modifies this
      ensures k <= |old(turns)| && turns == old(turns)[k..]
      ensures var s := Unpack(Disturbed(old(bits), old(turns)[..k]));
        (Unpack(bits), r) == if n == 0 then (s, Acquired(0)) else Attempt(s, n)
      ensures var s, s' := Unpack(Disturbed(old(bits), old(turns)[..k])), Unpack(bits);
        && (r == Closed <==> n > 0 && s.closed)
        && (r == Acquired(n) <==> n == 0 || (!s.closed && s.count >= n))
        && (r == NoPermits <==> n > 0 && !s.closed && s.count < n)
        && s'.closed == s.closed && s'.count + (if r.Acquired? then n else 0) == s.count
      ensures Unpack(old(bits)).closed && NeverReopens(old(bits), old(turns)) && n > 0 ==> r == Closed && Unpack(bits).closed
    {
      if Unpack(bits).closed && NeverReopens(bits, turns) { AlwaysClosed(bits, turns, n); }
      k := 0;
      if n == 0 { return Acquired(0), k; }
      assert n <= MAX_PERMITS;
      r, k := TryAcquireRetryLoop(n, bits, turns, 0);
    }

    /**
     The single attempt that polling makes: a load and, if the permits are there, an exchange one turn later. `None`
     sends the caller to the queue: the permits are missing, or the exchange fails, and then it changes nothing.
     */
    method PollOnce(n: nat) returns (r: Option<TryResult>, ghost k: nat)
      requires n < U32_LIMIT
      modifies this
      ensures k <= |old(turns)| && turns == old(turns)[k..]
      ensures var s := Unpack(Disturbed(old(bits), old(turns)[..k]));
        match r
        case Some(result) => result != NoPermits && (Unpack(bits), result) == Attempt(s, n)
        case None => Unpack(bits) == s
      ensures var s, s' := Unpack(Disturbed(old(bits), old(turns)[..k])), Unpack(bits);
        match r
        case Some(Closed) => s.closed && s' == s
        case Some(Acquired(m)) => m == n && !s.closed && s.count >= n && !s'.closed && s'.count + n == s.count
        case Some(NoPermits) => false
        case None => s' == s
      ensures
        var w, later := old(bits), old(turns);
        var seen, found := Disturbed(w, later[..Min(1, |later|)]), Disturbed(w, later[..Min(2, |later|)]);
        && (r == Some(Closed) <==> Unpack(seen).closed)
        && (r == Some(Acquired(n)) <==>
              && !Unpack(seen).closed && Unpack(seen).count >= n
              && found == seen && !(|later| > 1 && later[1].spurious))
    {
      ghost var bits0, turns0 := bits, turns;
      var curr;
      curr, k := Load(bits0, turns0, 0);
      if curr % 2 == 1 { return Some(Closed), k; }
      if curr >= n * 2 {
        var ok, actual;
        ok, actual, k := CompareExchange(curr, curr - n * 2, true, bits0, turns0, k);
        if ok { return Some(Acquired(n)), k; }
      }
      r := None;
    }

    /** `forget_permits`: one atomic removal, closed or not. */
    method ForgetPermits(n: nat) returns (removed: nat, ghost k: nat)
      modifies this
      ensures k <= |old(turns)| && turns == old(turns)[k..]
      ensures var s := Unpack(Disturbed(old(bits), old(turns)[..k]));
        if n == 0 then removed == 0 && Unpack(bits) == s else (Unpack(bits), removed) == Removal(s, n)
      ensures var s, s' := Unpack(Disturbed(old(bits), old(turns)[..k])), Unpack(bits);
        && removed <= n && s'.count + removed == s.count && (removed < n ==> s'.count == 0) && s'.closed == s.closed
    {
      k := 0;
      if n == 0 { return 0, k; }
      ghost var bits0, turns0 := bits, turns;
      var curr;
      curr, k := Load(bits0, turns0, 0);
      while true
        invariant Only(bits0, turns0, k) && curr == bits
        decreases |turns0| - k
      {
        var permits := curr / 2;
        removed := Min(permits, n);
        var next := (permits - removed) * 2 + curr % 2;
        var ok, actual;
        ok, actual, k := CompareExchange(curr, next, true, bits0, turns0, k);
        if ok { return removed, k; }
        curr := actual;
      }
    }

    /** `fetch_add` of `n` permits; returns the previous word. */
    method FetchAdd(n: nat) returns (prev: Word)
      modifies this
      ensures prev == Disturbed(old(bits), old(turns)[..Min(1, |old(turns)|)]) && turns == old(turns)[Min(1, |old(turns)|)..]
      ensures Unpack(bits) == Shared((Unpack(prev).count + n) % COUNT_LIMIT, Unpack(prev).closed)
    {
      if turns != [] { assert turns[..1][1..] == []; }
      var _ := Interfere();
      prev := bits;
      bits := Added(bits, n);
      AddedMeans(prev, n);
    }

    /** `fetch_or` of the closed flag. */
    method FetchOrClosed()
      modifies this
      ensures turns == old(turns)[Min(1, |old(turns)|)..]
      ensures Unpack(bits) == Shared(Unpack(Disturbed(old(bits), old(turns)[..Min(1, |old(turns)|)])).count, true)
    {
      if turns != [] { assert turns[..1][1..] == []; }
      var _ := Interfere();
      bits := Flagged(bits);
    }
  }

  /** While the supply stays within the limit, no addition wraps and the overflow test of the source is quiet. */
  lemma WithinLimitNoWrap(w: Word, n: nat, supply: nat)
    requires Unpack(w).count + n <= supply <= MAX_PERMITS
    ensures Unpack(Added(w, n)) == Shared(Unpack(w).count + n, Unpack(w).closed)
    ensures !(w / 2 + n > MAX_PERMITS)
  {
    AddedMeans(w, n);
  }
}
