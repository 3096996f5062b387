/**
 Re-running a log in another order. A log is run by a partial step; entries belong to a scope,
 entries of different scopes commute, and each scope keeps its own sequence. Sorting the log
 by (scope, sequence) then gives the same state as the order it was written in.
 */
module Replay {
  import opened Wrappers
  import opened Collections
  import opened Sorting

  function Run<S, O, E>(step: (S, O) -> Result<S, E>, s: S, log: seq<O>): Result<S, E>
    decreases |log|
  {
    if log == [] then Ok(s) else
      match step(s, log[0])
      case Err(e) => Err(e)
      case Ok(t) => Run(step, t, log[1..])
  }

  lemma {:induction false} RunAppend<S, O, E>(step: (S, O) -> Result<S, E>, s: S, xs: seq<O>, ys: seq<O>)
    ensures Run(step, s, xs + ys) ==
            match Run(step, s, xs) case Err(e) => Err(e) case Ok(t) => Run(step, t, ys)
    decreases |xs|
  {
    if xs == [] {
      assert xs + ys == ys;
    } else {
      assert (xs + ys)[0] == xs[0] && (xs + ys)[1..] == xs[1..] + ys;
      if step(s, xs[0]).Ok? { RunAppend(step, step(s, xs[0]).value, xs[1..], ys); }
    }
  }

  lemma RunOne<S, O, E>(step: (S, O) -> Result<S, E>, s: S, x: O)
    ensures Run(step, s, [x]) == step(s, x)
  {
    assert [x][1..] == [];
    if step(s, x).Ok? { assert Run(step, step(s, x).value, []) == Ok(step(s, x).value); }
  }

  lemma RunSnoc<S, O, E>(step: (S, O) -> Result<S, E>, s: S, xs: seq<O>, x: O)
    ensures Run(step, s, xs + [x]) == match Run(step, s, xs) case Err(e) => Err(e) case Ok(t) => step(t, x)
  {
    RunAppend(step, s, xs, [x]);
    if Run(step, s, xs).Ok? { RunOne(step, Run(step, s, xs).value, x); }
  }

  /** A step that notes each accepted entry notes the whole log. */
  lemma {:induction false} RunNotes<S(!new), O(!new), E>(step: (S, O) -> Result<S, E>, notes: S -> seq<O>, s: S, log: seq<O>)
    requires forall t, x :: step(t, x).Ok? ==> notes(step(t, x).value) == notes(t) + [x]
    requires Run(step, s, log).Ok?
    ensures notes(Run(step, s, log).value) == notes(s) + log
    decreases |log|
  {
    if log == [] {
      assert notes(s) + [] == notes(s);
    } else {
      RunNotes(step, notes, step(s, log[0]).value, log[1..]);
      assert notes(s) + [log[0]] + log[1..] == notes(s) + log;
    }
  }

  /** The invariant of the state is kept by every accepted well-formed entry. */
  ghost predicate Keeps<S(!new), O(!new), E>(step: (S, O) -> Result<S, E>, inv: S -> bool, good: O -> bool) {
    forall s, x :: inv(s) && good(x) && step(s, x).Ok? ==> inv(step(s, x).value)
  }

  ghost predicate Commute<S, O, E>(step: (S, O) -> Result<S, E>, s: S, a: O, b: O) {
    step(s, a).Ok? && step(step(s, a).value, b).Ok? ==>
      step(s, b).Ok? && step(step(s, b).value, a) == step(step(s, a).value, b)
  }

  ghost predicate ScopesCommute<S(!new), O(!new), E>(
    step: (S, O) -> Result<S, E>, inv: S -> bool, good: O -> bool, scope: O -> int)
  {
    forall s, a, b :: inv(s) && good(a) && good(b) && scope(a) != scope(b) ==> Commute(step, s, a, b)
  }

  ghost predicate All<O>(log: seq<O>, p: O -> bool) {
    forall i :: 0 <= i < |log| ==> p(log[i])
  }

  lemma {:induction false} RunKeeps<S(!new), O(!new), E>(
    step: (S, O) -> Result<S, E>, inv: S -> bool, good: O -> bool, s: S, log: seq<O>)
    requires Keeps(step, inv, good) && inv(s) && All(log, good) && Run(step, s, log).Ok?
    ensures inv(Run(step, s, log).value)
    decreases |log|
  {
    if log != [] {
      assert good(log[0]);
      RunKeeps(step, inv, good, step(s, log[0]).value, log[1..]);
    }
  }

  ghost predicate OtherScope<O>(log: seq<O>, scope: O -> int, x: O) {
    forall i :: 0 <= i < |log| ==> scope(log[i]) != scope(x)
  }

  /** An accepted entry can be moved before accepted entries of other scopes. */
  lemma {:induction false} MoveEarlier<S(!new), O(!new), E>(
    step: (S, O) -> Result<S, E>, inv: S -> bool, good: O -> bool, scope: O -> int, s: S, log: seq<O>, x: O)
    requires Keeps(step, inv, good) && ScopesCommute(step, inv, good, scope)
    requires inv(s) && All(log, good) && good(x) && OtherScope(log, scope, x)
    requires Run(step, s, log + [x]).Ok?
    ensures Run(step, s, [x] + log) == Run(step, s, log + [x])
    decreases |log|
  {
    if log == [] {
      assert [x] + log == log + [x];
    } else {
      var init, y := log[..|log| - 1], log[|log| - 1];
      SplitLast(log);
      RunSnoc(step, s, log, x);
      RunSnoc(step, s, init, y);
      RunSnoc(step, s, init, x);
      RunKeeps(step, inv, good, s, init);
      assert Commute(step, Run(step, s, init).value, y, x);
      MoveEarlier(step, inv, good, scope, s, init, x);
      RunSnoc(step, s, [x] + init, y);
      assert [x] + log == [x] + init + [y];
    }
  }

  ghost predicate ScopeOrder<O(!new)>(le: (O, O) -> bool, scope: O -> int, number: O -> int) {
    forall a, b :: le(a, b) <==> scope(a) < scope(b) || (scope(a) == scope(b) && number(a) <= number(b))
  }

  /** Within each scope the log is numbered upwards. */
  ghost predicate NumberedUp<O>(log: seq<O>, scope: O -> int, number: O -> int) {
    forall i, j :: 0 <= i < j < |log| && scope(log[i]) == scope(log[j]) ==> number(log[i]) < number(log[j])
  }

  lemma NumberedUpAntisymmetric<O(!new)>(log: seq<O>, le: (O, O) -> bool, scope: O -> int, number: O -> int)
    requires ScopeOrder(le, scope, number) && NumberedUp(log, scope, number)
    ensures TotalPreorder(le) && AntisymmetricOn(log, le)
  {
  }

  /** Where the newest entry goes in a sorted log: before entries of later scopes only. */
  lemma {:induction false} Position<O(!new)>(sorted: seq<O>, le: (O, O) -> bool, scope: O -> int, number: O -> int, x: O)
    returns (k: nat)
    requires ScopeOrder(le, scope, number) && SortedBy(sorted, le)
    requires forall i :: 0 <= i < |sorted| && scope(sorted[i]) == scope(x) ==> number(sorted[i]) < number(x)
    ensures k <= |sorted|
    ensures forall i :: 0 <= i < k ==> le(sorted[i], x)
    ensures forall i :: k <= i < |sorted| ==> le(x, sorted[i]) && scope(sorted[i]) != scope(x)
  {
    if sorted == [] || !le(sorted[0], x) {
      k := 0;
      forall i | 0 <= i < |sorted| ensures le(x, sorted[i]) && scope(sorted[i]) != scope(x) {
        if i > 0 { assert le(sorted[0], sorted[i]); }
      }
    } else {
      k := Position(sorted[1..], le, scope, number, x);
      k := k + 1;
      forall i | 0 <= i < k ensures le(sorted[i], x) {
        if i > 0 { assert sorted[i] == sorted[1..][i - 1]; }
      }
      forall i | k <= i < |sorted| ensures le(x, sorted[i]) && scope(sorted[i]) != scope(x) {
        assert sorted[i] == sorted[1..][i - 1];
      }
    }
  }

  lemma PlacedAt<O>(sorted: seq<O>, x: O, k: nat, i: nat)
    requires k <= |sorted| && i <= |sorted|
    ensures (sorted[..k] + [x] + sorted[k..])[i] == if i < k then sorted[i] else if i == k then x else sorted[i - 1]
  {
  }

  lemma PlacedIsSorted<O(!new)>(sorted: seq<O>, le: (O, O) -> bool, x: O, k: nat)
    requires SortedBy(sorted, le) && k <= |sorted|
    requires forall i :: 0 <= i < k ==> le(sorted[i], x)
    requires forall i :: k <= i < |sorted| ==> le(x, sorted[i])
    ensures SortedBy(sorted[..k] + [x] + sorted[k..], le)
  {
    var placed := sorted[..k] + [x] + sorted[k..];
    forall i, j | 0 <= i < j < |placed| ensures le(placed[i], placed[j]) {
      PlacedAt(sorted, x, k, i);
      PlacedAt(sorted, x, k, j);
    }
  }

  lemma PlacedPermutes<O>(sorted: seq<O>, x: O, k: nat)
    requires k <= |sorted|
    ensures multiset(sorted[..k] + [x] + sorted[k..]) == multiset(sorted + [x])
  {
    assert sorted == sorted[..k] + sorted[k..];
  }

  lemma InsertedIsSorted<O(!new)>(log: seq<O>, le: (O, O) -> bool, scope: O -> int, number: O -> int, x: O, k: nat)
    requires ScopeOrder(le, scope, number) && NumberedUp(log + [x], scope, number)
    requires var sorted := SortBy(log, le);
      && k <= |sorted|
      && (forall i :: 0 <= i < k ==> le(sorted[i], x))
      && (forall i :: k <= i < |sorted| ==> le(x, sorted[i]))
    ensures SortBy(log + [x], le) == SortBy(log, le)[..k] + [x] + SortBy(log, le)[k..]
  {
    var sorted := SortBy(log, le);
    var placed := sorted[..k] + [x] + sorted[k..];
    NumberedUpAntisymmetric(log + [x], le, scope, number);
    SortSorts(log, le);
    SortPermutes(log, le);
    PlacedIsSorted(sorted, le, x, k);
    PlacedPermutes(sorted, x, k);
    SortForgetsOrder(log + [x], placed, le);
    SortKeepsSorted(placed, le);
  }

  lemma NumberedPrefix<O>(log: seq<O>, scope: O -> int, number: O -> int, x: O)
    requires NumberedUp(log + [x], scope, number)
    ensures NumberedUp(log, scope, number)
    ensures forall y :: y in log && scope(y) == scope(x) ==> number(y) < number(x)
  {
    var whole := log + [x];
    forall i, j | 0 <= i < j < |log| && scope(log[i]) == scope(log[j]) ensures number(log[i]) < number(log[j]) {
      assert whole[i] == log[i] && whole[j] == log[j];
    }
    forall y | y in log && scope(y) == scope(x) ensures number(y) < number(x) {
      var i :| 0 <= i < |log| && log[i] == y;
      assert whole[i] == y && whole[|log|] == x;
    }
  }

  /** Sorting an accepted log by (scope, number) re-runs to the same state, without an error. */
  lemma {:induction false} SortedReplay<S(!new), O(!new), E>(
    step: (S, O) -> Result<S, E>, inv: S -> bool, good: O -> bool, scope: O -> int, number: O -> int,
    le: (O, O) -> bool, s: S, log: seq<O>)
    requires Keeps(step, inv, good) && ScopesCommute(step, inv, good, scope) && ScopeOrder(le, scope, number)
    requires inv(s) && All(log, good) && NumberedUp(log, scope, number)
    requires Run(step, s, log).Ok?
    ensures Run(step, s, SortBy(log, le)) == Run(step, s, log)
    decreases |log|
  {
    if log != [] {
      var init, x := log[..|log| - 1], log[|log| - 1];
      SplitLast(log);
      NumberedPrefix(init, scope, number, x);
      RunSnoc(step, s, init, x);
      SortedReplay(step, inv, good, scope, number, le, s, init);
      PlaceNewest(step, inv, good, scope, number, le, s, init, x);
    }
  }

  lemma PlaceNewest<S(!new), O(!new), E>(
    step: (S, O) -> Result<S, E>, inv: S -> bool, good: O -> bool, scope: O -> int, number: O -> int,
    le: (O, O) -> bool, s: S, log: seq<O>, x: O)
    requires Keeps(step, inv, good) && ScopesCommute(step, inv, good, scope) && ScopeOrder(le, scope, number)
    requires inv(s) && All(log, good) && good(x) && NumberedUp(log + [x], scope, number)
    requires Run(step, s, log + [x]).Ok? && Run(step, s, SortBy(log, le)) == Run(step, s, log)
    ensures Run(step, s, SortBy(log + [x], le)) == Run(step, s, log + [x])
  {
    var sorted := SortBy(log, le);
    var k := SortedPosition(log, le, scope, number, x);
    SortedAll(log, le, good);
    InsertedIsSorted(log, le, scope, number, x, k);
    RunSnoc(step, s, log, x);
    RunSnoc(step, s, sorted, x);
    SplitAt(sorted, k);
    MoveIntoPlace(step, inv, good, scope, s, sorted[..k], sorted[k..], x);
  }

  lemma SplitAt<T>(s: seq<T>, k: nat)
    requires k <= |s|
    ensures s[..k] + s[k..] == s
  {
  }

  lemma SortedAll<O(!new)>(log: seq<O>, le: (O, O) -> bool, good: O -> bool)
    requires All(log, good)
    ensures All(SortBy(log, le), good)
  {
    var sorted := SortBy(log, le);
    SortElements(log, le);
    forall i | 0 <= i < |sorted| ensures good(sorted[i]) {
      assert sorted[i] in sorted;
      var j :| 0 <= j < |log| && log[j] == sorted[i];
    }
  }

  lemma SortedPosition<O(!new)>(log: seq<O>, le: (O, O) -> bool, scope: O -> int, number: O -> int, x: O)
    returns (k: nat)
    requires ScopeOrder(le, scope, number) && NumberedUp(log + [x], scope, number)
    ensures var sorted := SortBy(log, le);
      && k <= |sorted|
      && (forall i :: 0 <= i < k ==> le(sorted[i], x))
      && (forall i :: k <= i < |sorted| ==> le(x, sorted[i]))
      && OtherScope(sorted[k..], scope, x)
  {
    var sorted := SortBy(log, le);
    NumberedPrefix(log, scope, number, x);
    NumberedUpAntisymmetric(log, le, scope, number);
    SortSorts(log, le);
    SortElements(log, le);
    forall i | 0 <= i < |sorted| && scope(sorted[i]) == scope(x) ensures number(sorted[i]) < number(x) {
      assert sorted[i] in sorted;
    }
    k := Position(sorted, le, scope, number, x);
    forall i | 0 <= i < |sorted[k..]| ensures scope(sorted[k..][i]) != scope(x) {
      assert sorted[k..][i] == sorted[k + i];
    }
  }

  lemma MoveIntoPlace<S(!new), O(!new), E>(
    step: (S, O) -> Result<S, E>, inv: S -> bool, good: O -> bool, scope: O -> int, s: S, lo: seq<O>, hi: seq<O>, x: O)
    requires Keeps(step, inv, good) && ScopesCommute(step, inv, good, scope)
    requires inv(s) && All(lo, good) && All(hi, good) && good(x) && OtherScope(hi, scope, x)
    requires Run(step, s, lo + hi + [x]).Ok?
    ensures Run(step, s, lo + [x] + hi) == Run(step, s, lo + hi + [x])
  {
    assert lo + hi + [x] == lo + (hi + [x]) && lo + [x] + hi == lo + ([x] + hi);
    RunAppend(step, s, lo, hi + [x]);
    RunAppend(step, s, lo, [x] + hi);
    RunKeeps(step, inv, good, s, lo);
    MoveEarlier(step, inv, good, scope, Run(step, s, lo).value, hi, x);
  }
}
