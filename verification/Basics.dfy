/** Small facts about maxima, sums and priority maps that the models share. */
module Basics {
  datatype Option<+T> = None | Some(value: T)

  /** Demands and guards are 32 bits wide. */
  const U32_LIMIT: nat := 0x1_0000_0000

  function Min(a: int, b: int): int {
    if a <= b then a else b
  }

  lemma SetHasMember(s: set<int>)
    ensures s == {} || exists x :: x in s
  {
    if forall x :: x !in s { assert s == {}; }
  }

  lemma BagHasMember(s: multiset<int>)
    ensures |s| == 0 || exists x :: x in s
  {
    if forall x :: x !in s { assert s == multiset{}; }
  }

  predicate AtMost(s: set<int>, p: int) {
    forall x | x in s :: x <= p
  }

  lemma {:induction false} SetHasMax(s: set<int>)
    requires s != {}
    ensures exists p :: p in s && AtMost(s, p)
    decreases s
  {
    SetHasMember(s);
    var y :| y in s;
    var rest := s - {y};
    if rest == {} {
      assert AtMost(s, y) by { assert s == {y}; }
    } else {
      SetHasMax(rest);
      var p :| p in rest && AtMost(rest, p);
      var q := if p <= y then y else p;
      assert AtMost(s, q) by { assert s == rest + {y}; }
    }
  }

  ghost function MaxKey(s: set<int>): (p: int)
    requires s != {}
    ensures p in s && forall x | x in s :: x <= p
  {
    SetHasMax(s);
    var p :| p in s && AtMost(s, p);
    p
  }

  /** What peeking the max-heap returns. */
  ghost function Top(heap: multiset<int>): (p: int)
    requires |heap| > 0
    ensures p in heap && forall x | x in heap :: x <= p
  {
    BagHasMember(heap);
    var keys := set x | x in heap;
    var y :| y in heap;
    assert y in keys;
    var p := MaxKey(keys);
    assert forall x | x in heap :: x in keys;
    p
  }

  function At<T>(queues: map<int, seq<T>>, p: int): seq<T> {
    if p in queues then queues[p] else []
  }

  /** The queues of `keys` as one list: descending priority, then queue order. */
  ghost function FlattenKeys<T>(queues: map<int, seq<T>>, keys: set<int>): seq<T>
    decreases keys
  {
    if keys == {} then []
    else
      var p := MaxKey(keys);
      At(queues, p) + FlattenKeys(queues, keys - {p})
  }

  /** The whole wait queue as one list: descending priority, then queue order. */
  ghost function Flatten<T>(queues: map<int, seq<T>>): seq<T> {
    FlattenKeys(queues, queues.Keys)
  }

  /** Flattening looks only at what each priority holds; empty queues and spare keys are invisible. */
  lemma {:induction false} FlattenExt<T>(a: map<int, seq<T>>, ka: set<int>, b: map<int, seq<T>>, kb: set<int>)
    requires forall p :: p in ka && p in kb ==> At(a, p) == At(b, p)
    requires forall p :: p in ka && p !in kb ==> At(a, p) == []
    requires forall p :: p in kb && p !in ka ==> At(b, p) == []
    ensures FlattenKeys(a, ka) == FlattenKeys(b, kb)
    decreases ka + kb
  {
    if ka + kb != {} {
      var m := MaxKey(ka + kb);
      FlattenExt(a, ka - {m}, b, kb - {m});
      FlattenDropMax(a, ka, m);
      FlattenDropMax(b, kb, m);
    }
  }

  lemma FlattenDropMax<T>(queues: map<int, seq<T>>, keys: set<int>, m: int)
    requires forall x | x in keys :: x <= m
    ensures FlattenKeys(queues, keys) == (if m in keys then At(queues, m) else []) + FlattenKeys(queues, keys - {m})
  {
    if m in keys {
      assert MaxKey(keys) == m;
    } else {
      assert keys - {m} == keys;
    }
  }

  lemma FlattenSame<T>(a: map<int, seq<T>>, b: map<int, seq<T>>)
    requires forall p :: At(a, p) == At(b, p)
    ensures Flatten(a) == Flatten(b)
  {
    FlattenExt(a, a.Keys, b, b.Keys);
  }

  /** When nothing is queued above `p`, the list starts with `p`'s queue. */
  lemma FlattenTop<T>(queues: map<int, seq<T>>, p: int)
    requires forall x | x > p :: At(queues, x) == []
    ensures Flatten(queues) == At(queues, p) + Flatten(queues[p := []])
  {
    var keys := set x | x in queues && x <= p;
    FlattenExt(queues, queues.Keys, queues, keys);
    FlattenDropMax(queues, keys, p);
    FlattenExt(queues[p := []], (queues[p := []]).Keys, queues, keys - {p});
  }

  lemma BagShift<T>(h: multiset<T>, x: multiset<T>, y: multiset<T>, a: multiset<T>, b: multiset<T>)
    requires x + a == y + b
    ensures (h + x) + a == (h + y) + b
  {
    assert (h + x) + a == h + (x + a);
    assert (h + y) + b == h + (y + b);
  }

  /** Replacing one queue changes the flattened contents by exactly that queue's contents. */
  lemma {:induction false} FlattenKeysUpdate<T>(queues: map<int, seq<T>>, keys: set<int>, p: int, q: seq<T>)
    requires p in keys
    ensures multiset(FlattenKeys(queues[p := q], keys)) + multiset(At(queues, p))
         == multiset(FlattenKeys(queues, keys)) + multiset(q)
    decreases keys
  {
    var m := MaxKey(keys);
    if m == p {
      FlattenExt(queues[p := q], keys - {p}, queues, keys - {p});
    } else {
      FlattenKeysUpdate(queues, keys - {m}, p, q);
      var head := multiset(At(queues, m));
      assert At(queues[p := q], m) == At(queues, m);
      assert multiset(FlattenKeys(queues[p := q], keys)) == head + multiset(FlattenKeys(queues[p := q], keys - {m}));
      assert multiset(FlattenKeys(queues, keys)) == head + multiset(FlattenKeys(queues, keys - {m}));
      BagShift(head, multiset(FlattenKeys(queues[p := q], keys - {m})), multiset(FlattenKeys(queues, keys - {m})),
               multiset(At(queues, p)), multiset(q));
    }
  }

  lemma FlattenUpdate<T>(queues: map<int, seq<T>>, p: int, q: seq<T>)
    ensures multiset(Flatten(queues[p := q])) + multiset(At(queues, p))
         == multiset(Flatten(queues)) + multiset(q)
    ensures |Flatten(queues[p := q])| + |At(queues, p)| == |Flatten(queues)| + |q|
  {
    var keys := queues.Keys + {p};
    FlattenKeysUpdate(queues, keys, p, q);
    FlattenExt(queues, queues.Keys, queues, keys);
    var after, before := multiset(Flatten(queues[p := q])), multiset(Flatten(queues));
    assert (queues[p := q]).Keys == keys;
    assert |after + multiset(At(queues, p))| == |before + multiset(q)|;
  }

  lemma FlattenLength<T>(queues: map<int, seq<T>>, p: int, q: seq<T>)
    ensures |Flatten(queues[p := q])| + |At(queues, p)| == |Flatten(queues)| + |q|
  {
    FlattenUpdate(queues, p, q);
  }

  lemma {:induction false} FlattenKeysMembers<T>(queues: map<int, seq<T>>, keys: set<int>, x: T)
    ensures x in FlattenKeys(queues, keys) <==> exists p :: p in keys && x in At(queues, p)
    decreases keys
  {
    if keys != {} {
      FlattenKeysMembers(queues, keys - {MaxKey(keys)}, x);
    }
  }

  lemma FlattenMembers<T>(queues: map<int, seq<T>>, x: T)
    ensures x in Flatten(queues) <==> exists p :: x in At(queues, p)
  {
    FlattenKeysMembers(queues, queues.Keys, x);
  }

  lemma FlattenEmpty<T>(queues: map<int, seq<T>>)
    ensures (forall p :: At(queues, p) == []) <==> Flatten(queues) == []
  {
    if forall p :: At(queues, p) == [] {
      FlattenSame(queues, map[]);
    }
    if Flatten(queues) == [] {
      forall p ensures At(queues, p) == [] {
        if At(queues, p) != [] {
          FlattenMembers(queues, At(queues, p)[0]);
        }
      }
    }
  }
}
