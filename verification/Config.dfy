/** Queue strategies per priority: the rule list and its two-pass resolution. */
module Config {
  import opened Basics

  datatype QueueStrategy = Fifo | Lifo

  const ISIZE_MIN: int := -0x8000_0000_0000_0000
  const ISIZE_MAX: int := 0x7fff_ffff_ffff_ffff

  type Isize = x: int | ISIZE_MIN <= x <= ISIZE_MAX

  datatype PriorityRule =
    | Default(strategy: QueueStrategy)
    | Exact(priority: Isize, strategy: QueueStrategy)
    | Range(min: Isize, max: Isize, strategy: QueueStrategy)

  predicate MatchesExactly(rule: PriorityRule, p: Isize) {
    rule.Exact? && rule.priority == p
  }

  predicate MatchesRange(rule: PriorityRule, p: Isize) {
    rule.Range? && rule.min <= p <= rule.max
  }

  // First and last matches of a rule list.

  function FirstExact(rules: seq<PriorityRule>, p: Isize): Option<QueueStrategy> {
    if rules == [] then None
    else if MatchesExactly(rules[0], p) then Some(rules[0].strategy)
    else FirstExact(rules[1..], p)
  }

  function FirstRange(rules: seq<PriorityRule>, p: Isize): Option<QueueStrategy> {
    if rules == [] then None
    else if MatchesRange(rules[0], p) then Some(rules[0].strategy)
    else FirstRange(rules[1..], p)
  }

  function LastDefault(rules: seq<PriorityRule>): QueueStrategy {
    if rules == [] then Fifo
    else if rules[|rules| - 1].Default? then rules[|rules| - 1].strategy
    else LastDefault(rules[..|rules| - 1])
  }

  function Resolve(rules: seq<PriorityRule>, p: Isize): QueueStrategy {
    match FirstExact(rules, p)
    case Some(s) => s
    case None =>
      match FirstRange(rules, p)
      case Some(s) => s
      case None => LastDefault(rules)
  }

  // The rule stated over positions, without saying how to search.

  ghost predicate FirstExactAt(rules: seq<PriorityRule>, i: int, p: Isize) {
    0 <= i < |rules| && MatchesExactly(rules[i], p) && forall j | 0 <= j < i :: !MatchesExactly(rules[j], p)
  }

  ghost predicate FirstRangeAt(rules: seq<PriorityRule>, i: int, p: Isize) {
    0 <= i < |rules| && MatchesRange(rules[i], p) && forall j | 0 <= j < i :: !MatchesRange(rules[j], p)
  }

  ghost predicate IsLastDefault(rules: seq<PriorityRule>, i: int) {
    0 <= i < |rules| && rules[i].Default? && forall j | i < j < |rules| :: !rules[j].Default?
  }

  /** First matching exact rule, else first matching range, else last default, else FIFO. */
  ghost predicate Declares(rules: seq<PriorityRule>, p: Isize, s: QueueStrategy) {
    if exists i :: 0 <= i < |rules| && MatchesExactly(rules[i], p) then
      exists i :: FirstExactAt(rules, i, p) && rules[i].strategy == s
    else if exists i :: 0 <= i < |rules| && MatchesRange(rules[i], p) then
      exists i :: FirstRangeAt(rules, i, p) && rules[i].strategy == s
    else if exists i :: 0 <= i < |rules| && rules[i].Default? then
      exists i :: IsLastDefault(rules, i) && rules[i].strategy == s
    else
      s == Fifo
  }

  lemma {:induction false} FirstExactPosition(rules: seq<PriorityRule>, p: Isize)
    ensures FirstExact(rules, p).None? ==> forall i | 0 <= i < |rules| :: !MatchesExactly(rules[i], p)
    ensures FirstExact(rules, p).Some? ==>
      exists i :: FirstExactAt(rules, i, p) && rules[i].strategy == FirstExact(rules, p).value
  {
    if rules != [] {
      if MatchesExactly(rules[0], p) {
        assert FirstExactAt(rules, 0, p);
      } else {
        FirstExactPosition(rules[1..], p);
        if FirstExact(rules, p).Some? {
          var i :| FirstExactAt(rules[1..], i, p) && rules[1..][i].strategy == FirstExact(rules, p).value;
          assert FirstExactAt(rules, i + 1, p) && rules[i + 1].strategy == FirstExact(rules, p).value;
        }
      }
    }
  }

  lemma {:induction false} FirstRangePosition(rules: seq<PriorityRule>, p: Isize)
    ensures FirstRange(rules, p).None? ==> forall i | 0 <= i < |rules| :: !MatchesRange(rules[i], p)
    ensures FirstRange(rules, p).Some? ==>
      exists i :: FirstRangeAt(rules, i, p) && rules[i].strategy == FirstRange(rules, p).value
  {
    if rules != [] {
      if MatchesRange(rules[0], p) {
        assert FirstRangeAt(rules, 0, p);
      } else {
        FirstRangePosition(rules[1..], p);
        if FirstRange(rules, p).Some? {
          var i :| FirstRangeAt(rules[1..], i, p) && rules[1..][i].strategy == FirstRange(rules, p).value;
          assert FirstRangeAt(rules, i + 1, p) && rules[i + 1].strategy == FirstRange(rules, p).value;
        }
      }
    }
  }

  lemma {:induction false} LastDefaultPosition(rules: seq<PriorityRule>)
    ensures (forall i | 0 <= i < |rules| :: !rules[i].Default?) ==> LastDefault(rules) == Fifo
    ensures (exists i :: 0 <= i < |rules| && rules[i].Default?) ==>
      exists i :: IsLastDefault(rules, i) && rules[i].strategy == LastDefault(rules)
  {
    if rules != [] {
      var n := |rules| - 1;
      if rules[n].Default? {
        assert IsLastDefault(rules, n);
      } else {
        LastDefaultPosition(rules[..n]);
        if k :| 0 <= k < |rules| && rules[k].Default? {
          assert rules[..n][k].Default?;
          var i :| IsLastDefault(rules[..n], i) && rules[..n][i].strategy == LastDefault(rules);
          assert IsLastDefault(rules, i);
        }
      }
    }
  }

  lemma ResolveDeclares(rules: seq<PriorityRule>, p: Isize)
    ensures Declares(rules, p, Resolve(rules, p))
  {
    FirstExactPosition(rules, p);
    FirstRangePosition(rules, p);
    LastDefaultPosition(rules);
  }

  lemma DeclaresOne(rules: seq<PriorityRule>, p: Isize, s: QueueStrategy, t: QueueStrategy)
    requires Declares(rules, p, s) && Declares(rules, p, t)
    ensures s == t
  {
  }

  /** The two-pass resolution is the declared rule, and the declared rule fixes one strategy. */
  lemma ResolveAsDeclared(rules: seq<PriorityRule>, p: Isize, s: QueueStrategy)
    ensures Declares(rules, p, s) <==> s == Resolve(rules, p)
  {
    hide Declares, Resolve;
    ResolveDeclares(rules, p);
    if Declares(rules, p, s) { DeclaresOne(rules, p, s, Resolve(rules, p)); }
  }

  lemma {:induction false} FirstExactAppend(rules: seq<PriorityRule>, rule: PriorityRule, p: Isize)
    ensures FirstExact(rules + [rule], p) ==
      if FirstExact(rules, p).None? && MatchesExactly(rule, p) then Some(rule.strategy) else FirstExact(rules, p)
  {
    if rules != [] {
      FirstExactAppend(rules[1..], rule, p);
      assert (rules + [rule])[1..] == rules[1..] + [rule];
    }
  }

  lemma {:induction false} FirstRangeAppend(rules: seq<PriorityRule>, rule: PriorityRule, p: Isize)
    ensures FirstRange(rules + [rule], p) ==
      if FirstRange(rules, p).None? && MatchesRange(rule, p) then Some(rule.strategy) else FirstRange(rules, p)
  {
    if rules != [] {
      FirstRangeAppend(rules[1..], rule, p);
      assert (rules + [rule])[1..] == rules[1..] + [rule];
    }
  }

  /** An appended exact rule decides its own priority unless an earlier exact rule does, and touches no other priority. */
  lemma AppendExact(rules: seq<PriorityRule>, at: Isize, s: QueueStrategy, p: Isize)
    ensures Resolve(rules + [Exact(at, s)], p) ==
      if p == at && FirstExact(rules, p).None? then s else Resolve(rules, p)
  {
    FirstExactAppend(rules, Exact(at, s), p);
    FirstRangeAppend(rules, Exact(at, s), p);
    assert (rules + [Exact(at, s)])[..|rules|] == rules;
  }

  /** An appended range decides exactly the priorities inside it that no earlier rule matched. */
  lemma AppendRange(rules: seq<PriorityRule>, min: Isize, max: Isize, s: QueueStrategy, p: Isize)
    ensures Resolve(rules + [Range(min, max, s)], p) ==
      if min <= p <= max && FirstExact(rules, p).None? && FirstRange(rules, p).None? then s else Resolve(rules, p)
  {
    FirstExactAppend(rules, Range(min, max, s), p);
    FirstRangeAppend(rules, Range(min, max, s), p);
    assert (rules + [Range(min, max, s)])[..|rules|] == rules;
  }

  /** An appended default decides exactly the priorities that no exact rule and no range matches. */
  lemma AppendDefault(rules: seq<PriorityRule>, s: QueueStrategy, p: Isize)
    ensures Resolve(rules + [Default(s)], p) ==
      if FirstExact(rules, p).None? && FirstRange(rules, p).None? then s else Resolve(rules, p)
  {
    FirstExactAppend(rules, Default(s), p);
    FirstRangeAppend(rules, Default(s), p);
  }

  function SaturatingAdd(x: Isize, y: Isize): Isize {
    if x + y > ISIZE_MAX then ISIZE_MAX else if x + y < ISIZE_MIN then ISIZE_MIN else x + y
  }

  class PriorityConfig {
    var rules: seq<PriorityRule>

    constructor ()
      ensures rules == []
    {
      rules := [];
    }

    method DefaultStrategy(s: QueueStrategy)
      modifies this
      ensures rules == old(rules) + [Default(s)]
    {
      rules := rules + [Default(s)];
    }

    method ExactPriority(p: Isize, s: QueueStrategy)
      modifies this
      ensures rules == old(rules) + [Exact(p, s)]
    {
      rules := rules + [Exact(p, s)];
    }

    method GreaterOrEqual(threshold: Isize, s: QueueStrategy)
      modifies this
      ensures exists rule :: (rules == old(rules) + [rule] && rule.strategy == s &&
        forall p: Isize :: MatchesRange(rule, p) <==> p >= threshold)
    {
      var rule := Range(threshold, ISIZE_MAX, s);
      rules := rules + [rule];
    }

    // At the largest threshold the saturated bound still matches that one priority.
    method GreaterThan(threshold: Isize, s: QueueStrategy)
      modifies this
      ensures exists rule :: (rules == old(rules) + [rule] && rule.strategy == s &&
        forall p: Isize :: MatchesRange(rule, p) <==> p > threshold || p == threshold == ISIZE_MAX)
    {
      var min := SaturatingAdd(threshold, 1);
      var rule := Range(min, ISIZE_MAX, s);
      rules := rules + [rule];
    }

    method LessOrEqual(threshold: Isize, s: QueueStrategy)
      modifies this
      ensures exists rule :: (rules == old(rules) + [rule] && rule.strategy == s &&
        forall p: Isize :: MatchesRange(rule, p) <==> p <= threshold)
    {
      var rule := Range(ISIZE_MIN, threshold, s);
      rules := rules + [rule];
    }

    // At the smallest threshold the saturated bound still matches that one priority.
    method LessThan(threshold: Isize, s: QueueStrategy)
      modifies this
      ensures exists rule :: (rules == old(rules) + [rule] && rule.strategy == s &&
        forall p: Isize :: MatchesRange(rule, p) <==> p < threshold || p == threshold == ISIZE_MIN)
    {
      var max := SaturatingAdd(threshold, -1);
      var rule := Range(ISIZE_MIN, max, s);
      rules := rules + [rule];
    }

    method RangeOf(min: Isize, max: Isize, s: QueueStrategy)
      modifies this
      ensures rules == old(rules) + [Range(min, max, s)]
    {
      rules := rules + [Range(min, max, s)];
    }

    method ResolveStrategy(p: Isize) returns (s: QueueStrategy)
      ensures Declares(rules, p, s)
    {
      ResolveAsDeclared(rules, p, Resolve(rules, p));
      var defaultStrategy := Fifo;
      for i := 0 to |rules|
        invariant forall j | 0 <= j < i :: !MatchesExactly(rules[j], p)
        invariant defaultStrategy == LastDefault(rules[..i])
      {
        match rules[i] {
          case Exact(at, strategy) =>
            if at == p {
              assert FirstExactAt(rules, i, p);
              return strategy;
            }
          case Default(strategy) => defaultStrategy := strategy;
          case Range(_, _, _) =>
        }
        assert rules[..i + 1][..i] == rules[..i];
      }
      assert rules[..|rules|] == rules;
      for i := 0 to |rules|
        invariant forall j | 0 <= j < i :: !MatchesRange(rules[j], p)
      {
        match rules[i] {
          case Range(min, max, strategy) =>
            if p >= min && p <= max {
              assert FirstRangeAt(rules, i, p);
              return strategy;
            }
          case Exact(_, _) =>
          case Default(_) =>
        }
      }
      FirstExactPosition(rules, p);
      FirstRangePosition(rules, p);
      s := defaultStrategy;
    }
  }
}
