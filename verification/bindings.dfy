/**
 packages/bindings: traversal of cross-graph bindings, breadth first, limited in depth, filtered
 by time and by an authorisation predicate, with one trace step for every candidate looked at.

 The stable sort by binding id meets equal ids only for a binding from a record to itself, whose
 outgoing candidate is listed first; `ByBinding` says so directly.
 */
module Bindings {
  import opened Wrappers
  import opened Collections
  import opened Sorting

  datatype Ref = Ref(graph: int, record: int)

  datatype Binding = Binding(id: int, from: Ref, to: Ref, validFrom: int, validTo: Option<int>, recordedAt: int)

  datatype Direction = Outgoing | Incoming | Both

  datatype Side = Out | In

  datatype Candidate = Candidate(binding: Binding, target: Ref, side: Side)

  datatype Decision = Traversed | Denied | OutOfTime | AlreadyVisited

  datatype Step = Step(bindingId: int, depth: int, side: Side, decision: Decision, from: Ref, to: Ref)

  datatype Query = Query(start: Ref, direction: Direction, validAt: int, recordedAt: int)

  datatype Traversal = Traversal(records: seq<Ref>, trace: seq<Step>)

  datatype BindingError = DuplicateBinding | InvalidDepth | SelfBinding | EmptyInterval

  type Authorize = Ref -> bool

  /** createBinding: no self-reference, and a valid interval that increases. */
  function CreateBinding(id: int, from: Ref, to: Ref, validFrom: int, validTo: Option<int>, recordedAt: int): Result<Binding, BindingError> {
    if from == to then Err(SelfBinding)
    else if validTo.Some? && validTo.value <= validFrom then Err(EmptyInterval)
    else Ok(Binding(id, from, to, validFrom, validTo, recordedAt))
  }

  predicate Contains(from: int, to: Option<int>, instant: int) {
    from <= instant && (to.None? || instant < to.value)
  }

  predicate InTime(b: Binding, q: Query) {
    Contains(b.validFrom, b.validTo, q.validAt) && b.recordedAt <= q.recordedAt
  }

  predicate RefAtMost(r: Ref, s: Ref) {
    r.graph < s.graph || (r.graph == s.graph && r.record <= s.record)
  }

  predicate ByBinding(c: Candidate, d: Candidate) {
    c.binding.id < d.binding.id || (c.binding.id == d.binding.id && (c.side == Out || d.side == In))
  }

  function CandidatesOf(b: Binding, r: Ref, direction: Direction): seq<Candidate> {
    (if direction != Incoming && b.from == r then [Candidate(b, b.to, Out)] else []) +
    (if direction != Outgoing && b.to == r then [Candidate(b, b.from, In)] else [])
  }

  function AllCandidates(bindings: seq<Binding>, r: Ref, direction: Direction): seq<Candidate> {
    if bindings == [] then [] else CandidatesOf(bindings[0], r, direction) + AllCandidates(bindings[1..], r, direction)
  }

  function EdgesFor(bindings: seq<Binding>, r: Ref, direction: Direction): seq<Candidate> {
    SortBy(AllCandidates(bindings, r, direction), ByBinding)
  }

  // ----- the traversal, as a function of the candidates at each reference -----

  datatype Walk = Walk(visited: set<Ref>, records: seq<Ref>, trace: seq<Step>, next: seq<Ref>)

  predicate Usable(c: Candidate, q: Query, authorize: Authorize) {
    InTime(c.binding, q) && authorize(c.target)
  }

  function Decide(w: Walk, c: Candidate, q: Query, authorize: Authorize): Decision {
    if !InTime(c.binding, q) then OutOfTime
    else if !authorize(c.target) then Denied
    else if c.target in w.visited then AlreadyVisited
    else Traversed
  }

  function Look(w: Walk, c: Candidate, current: Ref, depth: int, q: Query, authorize: Authorize): Walk {
    var decision := Decide(w, c, q, authorize);
    var w' := w.(trace := w.trace + [Step(c.binding.id, depth, c.side, decision, current, c.target)]);
    if decision == Traversed
    then w'.(visited := w.visited + {c.target}, records := w.records + [c.target], next := w.next + [c.target])
    else w'
  }

  function Scan(w: Walk, cs: seq<Candidate>, current: Ref, depth: int, q: Query, authorize: Authorize): Walk {
    if cs == [] then w else
      Look(Scan(w, cs[..|cs| - 1], current, depth, q, authorize), cs[|cs| - 1], current, depth, q, authorize)
  }

  function ScanAll(w: Walk, frontier: seq<Ref>, depth: int, bindings: seq<Binding>, q: Query, authorize: Authorize): Walk {
    if frontier == [] then w else
      var current := frontier[|frontier| - 1];
      Scan(ScanAll(w, frontier[..|frontier| - 1], depth, bindings, q, authorize),
           EdgesFor(bindings, current, q.direction), current, depth, q, authorize)
  }

  function Level(w: Walk, depth: int, bindings: seq<Binding>, q: Query, authorize: Authorize): Walk {
    ScanAll(w.(next := []), SortBy(w.next, RefAtMost), depth, bindings, q, authorize)
  }

  function Start(start: Ref): Walk {
    Walk({start}, [], [], [start])
  }

  function LevelStep(bindings: seq<Binding>, q: Query, authorize: Authorize): (nat, Walk) -> Walk {
    (depth: nat, w: Walk) => Level(w, depth, bindings, q, authorize)
  }

  /** The walk after `n` levels; `next` is the frontier of the level to come. */
  function Levels(n: nat, bindings: seq<Binding>, q: Query, authorize: Authorize): Walk {
    Iterate(n, Start(q.start), LevelStep(bindings, q, authorize))
  }

  function Traverse(n: nat, bindings: seq<Binding>, q: Query, authorize: Authorize): Traversal {
    var w := Levels(n, bindings, q, authorize);
    Traversal(w.records, w.trace)
  }

  // ----- reachability -----

  /** A usable step from `a` to `b`: some binding joins them in the asked direction, in time, and `b` is authorised. */
  ghost predicate Edge(bindings: seq<Binding>, q: Query, authorize: Authorize, a: Ref, b: Ref) {
    authorize(b) && exists x :: x in bindings && InTime(x, q) && Joins(x, q.direction, a, b)
  }

  predicate Joins(x: Binding, direction: Direction, a: Ref, b: Ref) {
    (direction != Incoming && x.from == a && x.to == b) || (direction != Outgoing && x.to == a && x.from == b)
  }

  /** A sequence of usable steps from the start to `r`. */
  ghost predicate PathTo(bindings: seq<Binding>, q: Query, authorize: Authorize, p: seq<Ref>, r: Ref) {
    && |p| >= 1 && p[0] == q.start && p[|p| - 1] == r
    && forall i :: 0 <= i < |p| - 1 ==> Edge(bindings, q, authorize, p[i], p[i + 1])
  }

  ghost predicate ReachedWithin(bindings: seq<Binding>, q: Query, authorize: Authorize, n: int, r: Ref) {
    exists p :: PathTo(bindings, q, authorize, p, r) && |p| - 1 <= n
  }

  ghost predicate ShortestDistance(bindings: seq<Binding>, q: Query, authorize: Authorize, n: int, r: Ref) {
    ReachedWithin(bindings, q, authorize, n, r) && !ReachedWithin(bindings, q, authorize, n - 1, r)
  }

  ghost function Successors(cs: seq<Candidate>, q: Query, authorize: Authorize): set<Ref> {
    set c | c in cs && Usable(c, q, authorize) :: c.target
  }

  lemma {:induction false} CandidateMembers(bindings: seq<Binding>, r: Ref, direction: Direction, c: Candidate)
    ensures c in AllCandidates(bindings, r, direction) <==>
            c.binding in bindings && c in CandidatesOf(c.binding, r, direction)
  {
    if bindings != [] {
      CandidateMembers(bindings[1..], r, direction, c);
      assert c in CandidatesOf(bindings[0], r, direction) ==> c.binding == bindings[0];
      assert c.binding in bindings <==> c.binding == bindings[0] || c.binding in bindings[1..];
    }
  }

  lemma SuccessorsAreEdges(bindings: seq<Binding>, q: Query, authorize: Authorize, a: Ref, b: Ref)
    ensures b in Successors(EdgesFor(bindings, a, q.direction), q, authorize) <==> Edge(bindings, q, authorize, a, b)
  {
    var all := AllCandidates(bindings, a, q.direction);
    SortElements(all, ByBinding);
    if b in Successors(EdgesFor(bindings, a, q.direction), q, authorize) {
      var c :| c in EdgesFor(bindings, a, q.direction) && Usable(c, q, authorize) && c.target == b;
      CandidateMembers(bindings, a, q.direction, c);
      assert Joins(c.binding, q.direction, a, b);
    }
    if Edge(bindings, q, authorize, a, b) {
      var x :| x in bindings && InTime(x, q) && Joins(x, q.direction, a, b);
      var c := Candidate(x, b, if q.direction != Incoming && x.from == a && x.to == b then Out else In);
      CandidateMembers(bindings, a, q.direction, c);
      assert c in EdgesFor(bindings, a, q.direction) && Usable(c, q, authorize);
    }
  }

  // ----- what scanning adds -----

  function TraversedTo(steps: seq<Step>): seq<Ref> {
    if steps == [] then [] else
      TraversedTo(steps[..|steps| - 1]) +
      if steps[|steps| - 1].decision == Traversed then [steps[|steps| - 1].to] else []
  }

  /** From `w` to `v` the walk met exactly the usable targets `met`: the new ones are recorded once, in trace order. */
  ghost predicate Grown(w: Walk, v: Walk, met: set<Ref>, depth: int, added: seq<Ref>, steps: seq<Step>) {
    && v.visited == w.visited + met
    && v.records == w.records + added && v.next == w.next + added && v.trace == w.trace + steps
    && Distinct(added) && ToSet(added) == met - w.visited
    && TraversedTo(steps) == added && forall i :: 0 <= i < |steps| ==> steps[i].depth == depth
  }

  lemma {:induction false} TraversedAppend(s: seq<Step>, t: seq<Step>)
    ensures TraversedTo(s + t) == TraversedTo(s) + TraversedTo(t)
  {
    if t == [] {
      assert s + t == s;
    } else {
      var n := |t| - 1;
      assert (s + t)[..|s + t| - 1] == s + t[..n];
      TraversedAppend(s, t[..n]);
    }
  }

  lemma DistinctAppend<T>(a: seq<T>, b: seq<T>)
    requires Distinct(a) && Distinct(b) && ToSet(a) !! ToSet(b)
    ensures Distinct(a + b)
  {
    forall i, j | 0 <= i < j < |a + b| ensures (a + b)[i] != (a + b)[j] {
      if i < |a| <= j {
        assert a[i] in ToSet(a) && b[j - |a|] in ToSet(b);
      }
    }
  }

  lemma NewTargets(visited: set<Ref>, met1: set<Ref>, met2: set<Ref>)
    ensures (met1 - visited) + (met2 - (visited + met1)) == (met1 + met2) - visited
    ensures (met1 - visited) !! (met2 - (visited + met1))
    ensures visited + met1 + met2 == visited + (met1 + met2)
  {
  }

  lemma GrownTwice(u: Walk, v: Walk, w: Walk, met1: set<Ref>, met2: set<Ref>, depth: int,
                   added1: seq<Ref>, added2: seq<Ref>, steps1: seq<Step>, steps2: seq<Step>)
    requires Grown(u, v, met1, depth, added1, steps1) && Grown(v, w, met2, depth, added2, steps2)
    ensures Grown(u, w, met1 + met2, depth, added1 + added2, steps1 + steps2)
  {
    NewTargets(u.visited, met1, met2);
    TraversedAppend(steps1, steps2);
    DistinctAppend(added1, added2);
    ConcatSet(added1, added2);
  }

  lemma SuccessorsOne(c: Candidate, q: Query, authorize: Authorize)
    ensures Successors([c], q, authorize) == if Usable(c, q, authorize) then {c.target} else {}
  {
    assert c in [c];
  }

  lemma TraversedOne(s: Step)
    ensures TraversedTo([s]) == if s.decision == Traversed then [s.to] else []
  {
    assert [s][..0] == [];
  }

  lemma LookGrows(w: Walk, c: Candidate, current: Ref, depth: int, q: Query, authorize: Authorize)
    returns (added: seq<Ref>, steps: seq<Step>)
    ensures Grown(w, Look(w, c, current, depth, q, authorize), Successors([c], q, authorize), depth, added, steps)
  {
    var decision := Decide(w, c, q, authorize);
    added := if decision == Traversed then [c.target] else [];
    steps := [Step(c.binding.id, depth, c.side, decision, current, c.target)];
    TraversedOne(steps[0]);
    SuccessorsOne(c, q, authorize);
    assert ToSet(added) == if decision == Traversed then {c.target} else {};
  }

  lemma SuccessorsAppend(a: seq<Candidate>, b: seq<Candidate>, q: Query, authorize: Authorize)
    ensures Successors(a + b, q, authorize) == Successors(a, q, authorize) + Successors(b, q, authorize)
  {
  }

  lemma {:induction false} ScanGrows(w: Walk, cs: seq<Candidate>, current: Ref, depth: int, q: Query, authorize: Authorize)
    returns (added: seq<Ref>, steps: seq<Step>)
    ensures Grown(w, Scan(w, cs, current, depth, q, authorize), Successors(cs, q, authorize), depth, added, steps)
    decreases |cs|
  {
    if cs == [] {
      added, steps := [], [];
    } else {
      var init, c := cs[..|cs| - 1], cs[|cs| - 1];
      var v := Scan(w, init, current, depth, q, authorize);
      var a1, s1 := ScanGrows(w, init, current, depth, q, authorize);
      var a2, s2 := LookGrows(v, c, current, depth, q, authorize);
      SplitLast(cs);
      SuccessorsAppend(init, [c], q, authorize);
      GrownTwice(w, v, Look(v, c, current, depth, q, authorize), Successors(init, q, authorize),
                 Successors([c], q, authorize), depth, a1, a2, s1, s2);
      added, steps := a1 + a2, s1 + s2;
    }
  }

  ghost function FrontierSuccessors(frontier: seq<Ref>, bindings: seq<Binding>, q: Query, authorize: Authorize): set<Ref> {
    if frontier == [] then {} else
      FrontierSuccessors(frontier[..|frontier| - 1], bindings, q, authorize) +
      Successors(EdgesFor(bindings, frontier[|frontier| - 1], q.direction), q, authorize)
  }

  lemma {:induction false} FrontierSuccessorMembers(frontier: seq<Ref>, bindings: seq<Binding>, q: Query, authorize: Authorize, b: Ref)
    ensures b in FrontierSuccessors(frontier, bindings, q, authorize) <==>
            exists a :: a in frontier && Edge(bindings, q, authorize, a, b)
    decreases |frontier|
  {
    if frontier != [] {
      var init, last := frontier[..|frontier| - 1], frontier[|frontier| - 1];
      FrontierSuccessorMembers(init, bindings, q, authorize, b);
      SuccessorsAreEdges(bindings, q, authorize, last, b);
      SplitLast(frontier);
      assert forall a :: a in frontier <==> a in init || a == last;
    }
  }

  lemma {:induction false} ScanAllGrows(w: Walk, frontier: seq<Ref>, depth: int, bindings: seq<Binding>, q: Query, authorize: Authorize)
    returns (added: seq<Ref>, steps: seq<Step>)
    ensures Grown(w, ScanAll(w, frontier, depth, bindings, q, authorize),
                  FrontierSuccessors(frontier, bindings, q, authorize), depth, added, steps)
    decreases |frontier|
  {
    if frontier == [] {
      added, steps := [], [];
    } else {
      var init, current := frontier[..|frontier| - 1], frontier[|frontier| - 1];
      var cs := EdgesFor(bindings, current, q.direction);
      var v := ScanAll(w, init, depth, bindings, q, authorize);
      var a1, s1 := ScanAllGrows(w, init, depth, bindings, q, authorize);
      var a2, s2 := ScanGrows(v, cs, current, depth, q, authorize);
      GrownTwice(w, v, Scan(v, cs, current, depth, q, authorize), FrontierSuccessors(init, bindings, q, authorize),
                 Successors(cs, q, authorize), depth, a1, a2, s1, s2);
      added, steps := a1 + a2, s1 + s2;
    }
  }

  // ----- levels are distances -----

  lemma ReachedNow(bindings: seq<Binding>, q: Query, authorize: Authorize, r: Ref)
    ensures ReachedWithin(bindings, q, authorize, 0, r) <==> r == q.start
    ensures !ReachedWithin(bindings, q, authorize, -1, r)
  {
    if r == q.start { assert PathTo(bindings, q, authorize, [r], r); }
  }

  lemma ReachedNext(bindings: seq<Binding>, q: Query, authorize: Authorize, n: nat, r: Ref)
    ensures ReachedWithin(bindings, q, authorize, n + 1, r) <==>
            ReachedWithin(bindings, q, authorize, n, r) ||
            exists a :: ReachedWithin(bindings, q, authorize, n, a) && Edge(bindings, q, authorize, a, r)
  {
    if ReachedWithin(bindings, q, authorize, n + 1, r) && !ReachedWithin(bindings, q, authorize, n, r) {
      var p :| PathTo(bindings, q, authorize, p, r) && |p| - 1 <= n + 1;
      var init := p[..|p| - 1];
      assert PathTo(bindings, q, authorize, init, init[|init| - 1]);
      assert Edge(bindings, q, authorize, p[|p| - 2], p[|p| - 1]);
    }
    if exists a :: ReachedWithin(bindings, q, authorize, n, a) && Edge(bindings, q, authorize, a, r) {
      var a :| ReachedWithin(bindings, q, authorize, n, a) && Edge(bindings, q, authorize, a, r);
      var p :| PathTo(bindings, q, authorize, p, a) && |p| - 1 <= n;
      assert PathTo(bindings, q, authorize, p + [r], r);
    }
  }

  /** After `n` levels: visited is what `n` steps reach, the frontier what they reach and fewer do not. */
  ghost predicate AtDistance(n: nat, w: Walk, bindings: seq<Binding>, q: Query, authorize: Authorize) {
    && (forall r :: r in w.visited <==> ReachedWithin(bindings, q, authorize, n, r))
    && (forall r :: r in w.next <==> ShortestDistance(bindings, q, authorize, n, r))
    && Distinct(w.next)
  }

  ghost predicate RecordsVisited(w: Walk, start: Ref) {
    && Distinct(w.records) && ToSet(w.records) == w.visited - {start} && start in w.visited
    && TraversedTo(w.trace) == w.records
  }

  ghost predicate TraceDistances(trace: seq<Step>, bindings: seq<Binding>, q: Query, authorize: Authorize) {
    forall i :: 0 <= i < |trace| && trace[i].decision == Traversed ==>
      ShortestDistance(bindings, q, authorize, trace[i].depth, trace[i].to)
  }

  lemma FrontierReaches(n: nat, w: Walk, met: set<Ref>, bindings: seq<Binding>, q: Query, authorize: Authorize, r: Ref)
    requires AtDistance(n, w, bindings, q, authorize)
    requires met == FrontierSuccessors(SortBy(w.next, RefAtMost), bindings, q, authorize)
    ensures r in w.visited + met <==> ReachedWithin(bindings, q, authorize, n + 1, r)
  {
    ReachedNext(bindings, q, authorize, n, r);
    SortElements(w.next, RefAtMost);
    FrontierSuccessorMembers(SortBy(w.next, RefAtMost), bindings, q, authorize, r);
    forall a | ReachedWithin(bindings, q, authorize, n, a) && a !in w.next && Edge(bindings, q, authorize, a, r)
      ensures ReachedWithin(bindings, q, authorize, n, r)
    {
      assert ReachedWithin(bindings, q, authorize, n - 1, a);
      if n == 0 { ReachedNow(bindings, q, authorize, a); } else { ReachedNext(bindings, q, authorize, n - 1, r); }
    }
  }

  lemma {:induction false} TraversedMember(steps: seq<Step>, i: nat)
    requires i < |steps| && steps[i].decision == Traversed
    ensures steps[i].to in TraversedTo(steps)
    decreases |steps|
  {
    if i < |steps| - 1 { TraversedMember(steps[..|steps| - 1], i); }
  }

  lemma LevelDistance(n: nat, w: Walk, v: Walk, added: seq<Ref>, steps: seq<Step>, bindings: seq<Binding>, q: Query, authorize: Authorize)
    requires AtDistance(n, w, bindings, q, authorize)
    requires Grown(w.(next := []), v, FrontierSuccessors(SortBy(w.next, RefAtMost), bindings, q, authorize), n + 1, added, steps)
    ensures AtDistance(n + 1, v, bindings, q, authorize)
  {
    var met := FrontierSuccessors(SortBy(w.next, RefAtMost), bindings, q, authorize);
    forall r
      ensures r in v.visited <==> ReachedWithin(bindings, q, authorize, n + 1, r)
      ensures r in v.next <==> ShortestDistance(bindings, q, authorize, n + 1, r)
    {
      FrontierReaches(n, w, met, bindings, q, authorize, r);
      assert r in v.next <==> r in ToSet(added);
    }
  }

  lemma LevelRecords(w: Walk, v: Walk, met: set<Ref>, depth: int, added: seq<Ref>, steps: seq<Step>, start: Ref)
    requires RecordsVisited(w, start) && Grown(w.(next := []), v, met, depth, added, steps)
    ensures RecordsVisited(v, start)
  {
    DistinctAppend(w.records, added);
    ConcatSet(w.records, added);
    TraversedAppend(w.trace, steps);
    assert ToSet(v.records) == v.visited - {start};
  }

  lemma LevelTrace(n: nat, w: Walk, v: Walk, met: set<Ref>, added: seq<Ref>, steps: seq<Step>, bindings: seq<Binding>, q: Query, authorize: Authorize)
    requires TraceDistances(w.trace, bindings, q, authorize) && AtDistance(n, v, bindings, q, authorize)
    requires Grown(w.(next := []), v, met, n, added, steps)
    ensures TraceDistances(v.trace, bindings, q, authorize)
  {
    forall i | 0 <= i < |steps| && steps[i].decision == Traversed
      ensures ShortestDistance(bindings, q, authorize, steps[i].depth, steps[i].to)
    {
      TraversedMember(steps, i);
      assert steps[i].to in v.next;
    }
  }

  /** Everything known after `n` levels. */
  ghost predicate AtLevel(n: nat, w: Walk, bindings: seq<Binding>, q: Query, authorize: Authorize) {
    AtDistance(n, w, bindings, q, authorize) && RecordsVisited(w, q.start) && TraceDistances(w.trace, bindings, q, authorize)
  }

  lemma StartAtLevel(bindings: seq<Binding>, q: Query, authorize: Authorize)
    ensures AtLevel(0, Start(q.start), bindings, q, authorize)
  {
    forall r
      ensures ReachedWithin(bindings, q, authorize, 0, r) <==> r == q.start
      ensures !ReachedWithin(bindings, q, authorize, -1, r)
    {
      ReachedNow(bindings, q, authorize, r);
    }
  }

  lemma LevelAdvances(n: nat, w: Walk, bindings: seq<Binding>, q: Query, authorize: Authorize)
    requires AtLevel(n, w, bindings, q, authorize)
    ensures AtLevel(n + 1, Level(w, n + 1, bindings, q, authorize), bindings, q, authorize)
  {
    var frontier := SortBy(w.next, RefAtMost);
    var v := ScanAll(w.(next := []), frontier, n + 1, bindings, q, authorize);
    var met := FrontierSuccessors(frontier, bindings, q, authorize);
    var added, steps := ScanAllGrows(w.(next := []), frontier, n + 1, bindings, q, authorize);
    LevelDistance(n, w, v, added, steps, bindings, q, authorize);
    LevelRecords(w, v, met, n + 1, added, steps, q.start);
    LevelTrace(n + 1, w, v, met, added, steps, bindings, q, authorize);
  }

  ghost function LevelFacts(bindings: seq<Binding>, q: Query, authorize: Authorize): (nat, Walk) -> bool {
    (k: nat, w: Walk) => AtLevel(k, w, bindings, q, authorize)
  }

  lemma StartHolds(bindings: seq<Binding>, q: Query, authorize: Authorize)
    ensures LevelFacts(bindings, q, authorize)(0, Start(q.start))
  {
    StartAtLevel(bindings, q, authorize);
  }

  lemma LevelHolds(n: nat, w: Walk, bindings: seq<Binding>, q: Query, authorize: Authorize)
    requires LevelFacts(bindings, q, authorize)(n, w)
    ensures LevelFacts(bindings, q, authorize)(n + 1, LevelStep(bindings, q, authorize)(n + 1, w))
  {
    LevelAdvances(n, w, bindings, q, authorize);
  }

  lemma EveryLevelHolds(bindings: seq<Binding>, q: Query, authorize: Authorize, step: (nat, Walk) -> Walk, inv: (nat, Walk) -> bool)
    requires step == LevelStep(bindings, q, authorize) && inv == LevelFacts(bindings, q, authorize)
    ensures forall k: nat, l: nat, w {:trigger inv(k, w), step(l, w)} :: l == k + 1 && inv(k, w) ==> inv(l, step(l, w))
  {
    forall k: nat, l: nat, w {:trigger inv(k, w), step(l, w)} | l == k + 1 && inv(k, w) ensures inv(l, step(l, w)) { LevelHolds(k, w, bindings, q, authorize); }
  }

  lemma LevelsHold(n: nat, bindings: seq<Binding>, q: Query, authorize: Authorize)
    ensures LevelFacts(bindings, q, authorize)(n, Levels(n, bindings, q, authorize))
  {
    StartHolds(bindings, q, authorize);
    EveryLevelHolds(bindings, q, authorize, LevelStep(bindings, q, authorize), LevelFacts(bindings, q, authorize));
    IterateInvariant(n, Start(q.start), LevelStep(bindings, q, authorize), LevelFacts(bindings, q, authorize));
  }

  lemma LevelsAtLevel(n: nat, bindings: seq<Binding>, q: Query, authorize: Authorize)
    ensures AtLevel(n, Levels(n, bindings, q, authorize), bindings, q, authorize)
  {
    LevelsHold(n, bindings, q, authorize);
  }

  /** Each reference reached within the depth is returned exactly once, and its traversal step carries its distance. */
  lemma TraverseIsReachability(n: nat, bindings: seq<Binding>, q: Query, authorize: Authorize)
    ensures var t := Traverse(n, bindings, q, authorize);
      && Distinct(t.records)
      && (forall r :: r in t.records <==> r != q.start && ReachedWithin(bindings, q, authorize, n, r))
      && TraversedTo(t.trace) == t.records && TraceDistances(t.trace, bindings, q, authorize)
  {
    var w := Levels(n, bindings, q, authorize);
    LevelsAtLevel(n, bindings, q, authorize);
    forall r ensures r in w.records <==> r != q.start && ReachedWithin(bindings, q, authorize, n, r) {
      assert r in w.records <==> r in ToSet(w.records);
    }
  }

  /** Looking one level deeper only appends, to the records and to the trace. */
  lemma DeeperExtends(n: nat, bindings: seq<Binding>, q: Query, authorize: Authorize)
    ensures Traverse(n, bindings, q, authorize).records <= Traverse(n + 1, bindings, q, authorize).records
    ensures Traverse(n, bindings, q, authorize).trace <= Traverse(n + 1, bindings, q, authorize).trace
  {
    var w := Levels(n, bindings, q, authorize);
    var added, steps := ScanAllGrows(w.(next := []), SortBy(w.next, RefAtMost), n + 1, bindings, q, authorize);
  }

  /** Once the frontier is empty nothing more happens, at any depth. */
  lemma {:induction false} ExhaustedStays(m: nat, n: nat, bindings: seq<Binding>, q: Query, authorize: Authorize)
    requires m <= n && Levels(m, bindings, q, authorize).next == []
    ensures Levels(n, bindings, q, authorize) == Levels(m, bindings, q, authorize)
  {
    if m < n { ExhaustedStays(m, n - 1, bindings, q, authorize); }
  }

  // ----- the trace is complete and explains itself -----

  datatype Looked = Looked(bindingId: int, side: Side, to: Ref)

  /** The candidates the trace shows for one reference, in order. */
  function LookedFrom(trace: seq<Step>, a: Ref): seq<Looked> {
    if trace == [] then [] else
      var s := trace[|trace| - 1];
      LookedFrom(trace[..|trace| - 1], a) + if s.from == a then [Looked(s.bindingId, s.side, s.to)] else []
  }

  function Listed(cs: seq<Candidate>): seq<Looked> {
    seq(|cs|, i requires 0 <= i < |cs| => Looked(cs[i].binding.id, cs[i].side, cs[i].target))
  }

  lemma LookedSnoc(trace: seq<Step>, s: Step, a: Ref)
    ensures LookedFrom(trace + [s], a) == LookedFrom(trace, a) + if s.from == a then [Looked(s.bindingId, s.side, s.to)] else []
  {
    assert (trace + [s])[..|trace|] == trace;
  }

  lemma {:induction false} ScanLooks(w: Walk, cs: seq<Candidate>, current: Ref, depth: int, q: Query, authorize: Authorize, a: Ref)
    ensures LookedFrom(Scan(w, cs, current, depth, q, authorize).trace, a) ==
            LookedFrom(w.trace, a) + if a == current then Listed(cs) else []
    decreases |cs|
  {
    if cs != [] {
      var init, c := cs[..|cs| - 1], cs[|cs| - 1];
      var v := Scan(w, init, current, depth, q, authorize);
      ScanLooks(w, init, current, depth, q, authorize, a);
      LookedSnoc(v.trace, Step(c.binding.id, depth, c.side, Decide(v, c, q, authorize), current, c.target), a);
      assert Listed(cs) == Listed(init) + [Looked(c.binding.id, c.side, c.target)];
    }
  }

  lemma {:induction false} ScanAllLooks(w: Walk, frontier: seq<Ref>, depth: int, bindings: seq<Binding>, q: Query, authorize: Authorize, a: Ref)
    requires Distinct(frontier)
    ensures LookedFrom(ScanAll(w, frontier, depth, bindings, q, authorize).trace, a) ==
            LookedFrom(w.trace, a) + if a in frontier then Listed(EdgesFor(bindings, a, q.direction)) else []
    decreases |frontier|
  {
    if frontier != [] {
      var init, current := frontier[..|frontier| - 1], frontier[|frontier| - 1];
      var v := ScanAll(w, init, depth, bindings, q, authorize);
      ScanAllLooks(w, init, depth, bindings, q, authorize, a);
      ScanLooks(v, EdgesFor(bindings, current, q.direction), current, depth, q, authorize, a);
      DistinctLast(frontier, a);
      if a == current {
        assert LookedFrom(v.trace, a) == LookedFrom(w.trace, a);
      } else {
        assert Scan(v, EdgesFor(bindings, current, q.direction), current, depth, q, authorize) ==
               ScanAll(w, frontier, depth, bindings, q, authorize);
      }
    }
  }

  /** A reference reached in `n` steps is either on the frontier of level `n` or was expanded before, never both. */
  lemma FrontierOnce(n: nat, w: Walk, bindings: seq<Binding>, q: Query, authorize: Authorize, a: Ref)
    requires AtDistance(n, w, bindings, q, authorize)
    ensures var frontier := SortBy(w.next, RefAtMost);
      && Distinct(frontier)
      && (a in frontier <==> Expanded(n + 1, bindings, q, authorize, a) && !Expanded(n, bindings, q, authorize, a))
    ensures Expanded(n, bindings, q, authorize, a) ==> Expanded(n + 1, bindings, q, authorize, a)
  {
    var next := w.next;
    SortElements(next, RefAtMost);
    SortPermutes(next, RefAtMost);
    MultisetDistinct(next, SortBy(next, RefAtMost));
    if n == 0 { ReachedNow(bindings, q, authorize, a); } else { ReachedNext(bindings, q, authorize, n - 1, a); }
  }

  /** References whose candidates are looked at within `n` levels. */
  ghost predicate Expanded(n: nat, bindings: seq<Binding>, q: Query, authorize: Authorize, a: Ref) {
    ReachedWithin(bindings, q, authorize, n - 1, a)
  }

  ghost function LookedFacts(bindings: seq<Binding>, q: Query, authorize: Authorize, a: Ref): (nat, Walk) -> bool {
    (k: nat, w: Walk) =>
      && AtLevel(k, w, bindings, q, authorize)
      && LookedFrom(w.trace, a) == if Expanded(k, bindings, q, authorize, a) then Listed(EdgesFor(bindings, a, q.direction)) else []
  }

  lemma LevelLooks(n: nat, w: Walk, bindings: seq<Binding>, q: Query, authorize: Authorize, a: Ref)
    requires LookedFacts(bindings, q, authorize, a)(n, w)
    ensures LookedFacts(bindings, q, authorize, a)(n + 1, LevelStep(bindings, q, authorize)(n + 1, w))
  {
    LevelAdvances(n, w, bindings, q, authorize);
    FrontierOnce(n, w, bindings, q, authorize, a);
    ScanAllLooks(w.(next := []), SortBy(w.next, RefAtMost), n + 1, bindings, q, authorize, a);
  }

  lemma StartLooks(bindings: seq<Binding>, q: Query, authorize: Authorize, a: Ref)
    ensures LookedFacts(bindings, q, authorize, a)(0, Start(q.start))
  {
    StartAtLevel(bindings, q, authorize);
    ReachedNow(bindings, q, authorize, a);
  }

  lemma EveryLevelLooks(
    bindings: seq<Binding>, q: Query, authorize: Authorize, a: Ref, step: (nat, Walk) -> Walk, inv: (nat, Walk) -> bool)
    requires step == LevelStep(bindings, q, authorize) && inv == LookedFacts(bindings, q, authorize, a)
    ensures forall k: nat, l: nat, w {:trigger inv(k, w), step(l, w)} :: l == k + 1 && inv(k, w) ==> inv(l, step(l, w))
  {
    forall k: nat, l: nat, w {:trigger inv(k, w), step(l, w)} | l == k + 1 && inv(k, w) ensures inv(l, step(l, w)) { LevelLooks(k, w, bindings, q, authorize, a); }
  }

  lemma LevelsLook(n: nat, bindings: seq<Binding>, q: Query, authorize: Authorize, a: Ref)
    ensures LookedFacts(bindings, q, authorize, a)(n, Levels(n, bindings, q, authorize))
  {
    StartLooks(bindings, q, authorize, a);
    EveryLevelLooks(bindings, q, authorize, a, LevelStep(bindings, q, authorize), LookedFacts(bindings, q, authorize, a));
    IterateInvariant(n, Start(q.start), LevelStep(bindings, q, authorize), LookedFacts(bindings, q, authorize, a));
  }

  /** Every candidate of every reference expanded is shown exactly once, in binding order; nothing else is. */
  lemma TraceIsComplete(n: nat, bindings: seq<Binding>, q: Query, authorize: Authorize, a: Ref)
    ensures LookedFrom(Traverse(n, bindings, q, authorize).trace, a) ==
            if Expanded(n, bindings, q, authorize, a) then Listed(EdgesFor(bindings, a, q.direction)) else []
  {
    LevelsLook(n, bindings, q, authorize, a);
  }

  /** The start, or the target of a traversed step. */
  ghost predicate Seen(trace: seq<Step>, start: Ref, r: Ref) {
    r == start || exists k :: 0 <= k < |trace| && trace[k].decision == Traversed && trace[k].to == r
  }

  /** The decision shown on a step is the reason: time first, then authority, then whether it was seen in a step before. */
  ghost predicate Explained(before: seq<Step>, s: Step, bindings: seq<Binding>, q: Query, authorize: Authorize) {
    exists c :: c in EdgesFor(bindings, s.from, q.direction) && Shows(before, s, c, q, authorize)
  }

  ghost predicate Shows(before: seq<Step>, s: Step, c: Candidate, q: Query, authorize: Authorize) {
    && s.bindingId == c.binding.id && s.side == c.side && s.to == c.target
    && (s.decision == OutOfTime <==> !InTime(c.binding, q))
    && (s.decision == Denied <==> InTime(c.binding, q) && !authorize(c.target))
    && (s.decision == AlreadyVisited <==> Usable(c, q, authorize) && Seen(before, q.start, c.target))
    && (s.decision == Traversed <==> Usable(c, q, authorize) && !Seen(before, q.start, c.target))
  }

  ghost predicate AllExplained(trace: seq<Step>, bindings: seq<Binding>, q: Query, authorize: Authorize) {
    forall i :: 0 <= i < |trace| ==> Explained(trace[..i], trace[i], bindings, q, authorize)
  }

  /** The walk has visited what its trace shows as seen. */
  ghost predicate VisitedIsSeen(w: Walk, start: Ref) {
    forall r :: r in w.visited <==> Seen(w.trace, start, r)
  }

  lemma SeenSnoc(trace: seq<Step>, s: Step, start: Ref, r: Ref)
    ensures Seen(trace + [s], start, r) <==> Seen(trace, start, r) || (s.decision == Traversed && s.to == r)
  {
    var all := trace + [s];
    assert all[|trace|] == s && forall k :: 0 <= k < |trace| ==> all[k] == trace[k];
  }

  lemma ExplainedSnoc(trace: seq<Step>, s: Step, bindings: seq<Binding>, q: Query, authorize: Authorize)
    requires AllExplained(trace, bindings, q, authorize) && Explained(trace, s, bindings, q, authorize)
    ensures AllExplained(trace + [s], bindings, q, authorize)
  {
    var all := trace + [s];
    forall i | 0 <= i < |all| ensures Explained(all[..i], all[i], bindings, q, authorize) {
      if i < |trace| {
        assert all[..i] == trace[..i] && all[i] == trace[i];
      } else {
        assert all[..i] == trace && all[i] == s;
      }
    }
  }

  ghost predicate WalkExplained(w: Walk, bindings: seq<Binding>, q: Query, authorize: Authorize) {
    AllExplained(w.trace, bindings, q, authorize) && VisitedIsSeen(w, q.start)
  }

  lemma LookExplains(w: Walk, c: Candidate, current: Ref, depth: int, bindings: seq<Binding>, q: Query, authorize: Authorize)
    requires WalkExplained(w, bindings, q, authorize) && c in EdgesFor(bindings, current, q.direction)
    ensures WalkExplained(Look(w, c, current, depth, q, authorize), bindings, q, authorize)
  {
    var s := Step(c.binding.id, depth, c.side, Decide(w, c, q, authorize), current, c.target);
    assert Shows(w.trace, s, c, q, authorize);
    assert Explained(w.trace, s, bindings, q, authorize);
    ExplainedSnoc(w.trace, s, bindings, q, authorize);
    forall r { SeenSnoc(w.trace, s, q.start, r); }
  }

  lemma {:induction false} ScanExplains(w: Walk, cs: seq<Candidate>, current: Ref, depth: int, bindings: seq<Binding>, q: Query, authorize: Authorize)
    requires WalkExplained(w, bindings, q, authorize)
    requires forall i :: 0 <= i < |cs| ==> cs[i] in EdgesFor(bindings, current, q.direction)
    ensures WalkExplained(Scan(w, cs, current, depth, q, authorize), bindings, q, authorize)
    decreases |cs|
  {
    if cs != [] {
      var init, c := cs[..|cs| - 1], cs[|cs| - 1];
      ScanExplains(w, init, current, depth, bindings, q, authorize);
      LookExplains(Scan(w, init, current, depth, q, authorize), c, current, depth, bindings, q, authorize);
    }
  }

  lemma {:induction false} ScanAllExplains(w: Walk, frontier: seq<Ref>, depth: int, bindings: seq<Binding>, q: Query, authorize: Authorize)
    requires WalkExplained(w, bindings, q, authorize)
    ensures WalkExplained(ScanAll(w, frontier, depth, bindings, q, authorize), bindings, q, authorize)
    decreases |frontier|
  {
    if frontier != [] {
      var init, current := frontier[..|frontier| - 1], frontier[|frontier| - 1];
      ScanAllExplains(w, init, depth, bindings, q, authorize);
      ScanExplains(ScanAll(w, init, depth, bindings, q, authorize), EdgesFor(bindings, current, q.direction), current, depth, bindings, q, authorize);
    }
  }

  lemma {:induction false} LevelsExplained(n: nat, bindings: seq<Binding>, q: Query, authorize: Authorize)
    ensures WalkExplained(Levels(n, bindings, q, authorize), bindings, q, authorize)
  {
    if n > 0 {
      LevelsExplained(n - 1, bindings, q, authorize);
      var w := Levels(n - 1, bindings, q, authorize);
      ScanAllExplains(w.(next := []), SortBy(w.next, RefAtMost), n, bindings, q, authorize);
    }
  }

  lemma TraceExplains(n: nat, bindings: seq<Binding>, q: Query, authorize: Authorize)
    ensures AllExplained(Traverse(n, bindings, q, authorize).trace, bindings, q, authorize)
  {
    LevelsExplained(n, bindings, q, authorize);
  }

  // ----- the depth of a step -----

  /** Each step's depth is one more than the distance of the reference it starts from. */
  ghost predicate StepsFrom(trace: seq<Step>, bindings: seq<Binding>, q: Query, authorize: Authorize) {
    forall i :: 0 <= i < |trace| ==> ShortestDistance(bindings, q, authorize, trace[i].depth - 1, trace[i].from)
  }

  /** The steps that `v` has more than `w` start from `frontier`, at the given depth. */
  ghost predicate StepsAdded(w: Walk, v: Walk, frontier: seq<Ref>, depth: int) {
    && w.trace <= v.trace
    && forall i :: |w.trace| <= i < |v.trace| ==> v.trace[i].depth == depth && v.trace[i].from in frontier
  }

  lemma {:induction false} ScanAdds(w: Walk, cs: seq<Candidate>, current: Ref, depth: int, q: Query, authorize: Authorize)
    ensures StepsAdded(w, Scan(w, cs, current, depth, q, authorize), [current], depth)
    decreases |cs|
  {
    if cs != [] { ScanAdds(w, cs[..|cs| - 1], current, depth, q, authorize); }
  }

  lemma {:induction false} ScanAllAdds(
    w: Walk, frontier: seq<Ref>, depth: int, bindings: seq<Binding>, q: Query, authorize: Authorize)
    ensures StepsAdded(w, ScanAll(w, frontier, depth, bindings, q, authorize), frontier, depth)
    decreases |frontier|
  {
    if frontier != [] {
      var init, current := frontier[..|frontier| - 1], frontier[|frontier| - 1];
      var v := ScanAll(w, init, depth, bindings, q, authorize);
      ScanAllAdds(w, init, depth, bindings, q, authorize);
      ScanAdds(v, EdgesFor(bindings, current, q.direction), current, depth, q, authorize);
      SplitLast(frontier);
    }
  }

  lemma LevelSteps(n: nat, w: Walk, v: Walk, bindings: seq<Binding>, q: Query, authorize: Authorize)
    requires AtDistance(n, w, bindings, q, authorize) && StepsFrom(w.trace, bindings, q, authorize)
    requires StepsAdded(w.(next := []), v, SortBy(w.next, RefAtMost), n + 1)
    ensures StepsFrom(v.trace, bindings, q, authorize)
  {
    SortElements(w.next, RefAtMost);
    forall i | 0 <= i < |v.trace| ensures ShortestDistance(bindings, q, authorize, v.trace[i].depth - 1, v.trace[i].from) {
      if i < |w.trace| { assert v.trace[i] == w.trace[i]; }
    }
  }

  ghost function StepFacts(bindings: seq<Binding>, q: Query, authorize: Authorize): (nat, Walk) -> bool {
    (k: nat, w: Walk) => AtLevel(k, w, bindings, q, authorize) && StepsFrom(w.trace, bindings, q, authorize)
  }

  lemma StartSteps(bindings: seq<Binding>, q: Query, authorize: Authorize)
    ensures StepFacts(bindings, q, authorize)(0, Start(q.start))
  {
    StartAtLevel(bindings, q, authorize);
  }

  lemma LevelStepsHold(n: nat, w: Walk, bindings: seq<Binding>, q: Query, authorize: Authorize)
    requires StepFacts(bindings, q, authorize)(n, w)
    ensures StepFacts(bindings, q, authorize)(n + 1, LevelStep(bindings, q, authorize)(n + 1, w))
  {
    LevelAdvances(n, w, bindings, q, authorize);
    ScanAllAdds(w.(next := []), SortBy(w.next, RefAtMost), n + 1, bindings, q, authorize);
    LevelSteps(n, w, Level(w, n + 1, bindings, q, authorize), bindings, q, authorize);
  }

  lemma EveryLevelSteps(bindings: seq<Binding>, q: Query, authorize: Authorize, step: (nat, Walk) -> Walk, inv: (nat, Walk) -> bool)
    requires step == LevelStep(bindings, q, authorize) && inv == StepFacts(bindings, q, authorize)
    ensures forall k: nat, l: nat, w {:trigger inv(k, w), step(l, w)} :: l == k + 1 && inv(k, w) ==> inv(l, step(l, w))
  {
    forall k: nat, l: nat, w {:trigger inv(k, w), step(l, w)} | l == k + 1 && inv(k, w) ensures inv(l, step(l, w)) {
      LevelStepsHold(k, w, bindings, q, authorize);
    }
  }

  lemma LevelsStep(n: nat, bindings: seq<Binding>, q: Query, authorize: Authorize)
    ensures StepFacts(bindings, q, authorize)(n, Levels(n, bindings, q, authorize))
  {
    StartSteps(bindings, q, authorize);
    EveryLevelSteps(bindings, q, authorize, LevelStep(bindings, q, authorize), StepFacts(bindings, q, authorize));
    IterateInvariant(n, Start(q.start), LevelStep(bindings, q, authorize), StepFacts(bindings, q, authorize));
  }

  /** Every step of the trace, whatever its decision. */
  lemma StepDepths(n: nat, bindings: seq<Binding>, q: Query, authorize: Authorize)
    ensures StepsFrom(Traverse(n, bindings, q, authorize).trace, bindings, q, authorize)
  {
    LevelsStep(n, bindings, q, authorize);
  }

  // ----- the order of appends does not matter -----

  ghost predicate DistinctIds(bindings: seq<Binding>) {
    forall i, j :: 0 <= i < j < |bindings| ==> bindings[i].id != bindings[j].id
  }

  lemma {:induction false} CandidatesDistinct(bindings: seq<Binding>, r: Ref, direction: Direction)
    requires DistinctIds(bindings)
    ensures Distinct(AllCandidates(bindings, r, direction))
    ensures AntisymmetricOn(AllCandidates(bindings, r, direction), ByBinding)
    decreases |bindings|
  {
    var all := AllCandidates(bindings, r, direction);
    forall c, d | c in all && d in all && ByBinding(c, d) && ByBinding(d, c) ensures c == d {
      CandidateMembers(bindings, r, direction, c);
      CandidateMembers(bindings, r, direction, d);
      var i :| 0 <= i < |bindings| && bindings[i] == c.binding;
      var j :| 0 <= j < |bindings| && bindings[j] == d.binding;
      assert i == j;
    }
    if bindings != [] {
      var first, rest := CandidatesOf(bindings[0], r, direction), AllCandidates(bindings[1..], r, direction);
      CandidatesDistinct(bindings[1..], r, direction);
      forall c | c in ToSet(first) ensures c !in ToSet(rest) {
        CandidateMembers(bindings[1..], r, direction, c);
        assert bindings[0] !in bindings[1..];
      }
      DistinctAppend(first, rest);
    }
  }

  lemma EdgesForgetOrder(bindings: seq<Binding>, other: seq<Binding>, r: Ref, direction: Direction)
    requires DistinctIds(bindings) && DistinctIds(other) && multiset(bindings) == multiset(other)
    ensures EdgesFor(bindings, r, direction) == EdgesFor(other, r, direction)
  {
    var all, all' := AllCandidates(bindings, r, direction), AllCandidates(other, r, direction);
    CandidatesDistinct(bindings, r, direction);
    CandidatesDistinct(other, r, direction);
    SameElements(bindings, other);
    forall c ensures c in all <==> c in all' {
      CandidateMembers(bindings, r, direction, c);
      CandidateMembers(other, r, direction, c);
    }
    DistinctIsMultiset(all, all');
    SortForgetsOrder(all, all', ByBinding);
  }

  /** `createBinding` accepts it. */
  ghost predicate Created(b: Binding) {
    CreateBinding(b.id, b.from, b.to, b.validFrom, b.validTo, b.recordedAt) == Ok(b)
  }

  lemma OneCandidate(c: Candidate, d: Candidate, r: Ref, direction: Direction)
    requires c.binding == d.binding && Created(c.binding)
    requires c in CandidatesOf(c.binding, r, direction) && d in CandidatesOf(d.binding, r, direction)
    ensures c == d
  {
  }

  /**
   Among bindings that `createBinding` accepts, no two candidates of a reference share a binding id, so sorting
   them by binding id, as the code does, leaves nothing to the stability of the sort.
   */
  lemma CandidatesNeverTie(bindings: seq<Binding>, r: Ref, direction: Direction, i: nat, j: nat)
    requires DistinctIds(bindings) && (forall b :: b in bindings ==> Created(b))
    requires i < j < |EdgesFor(bindings, r, direction)|
    ensures EdgesFor(bindings, r, direction)[i].binding.id < EdgesFor(bindings, r, direction)[j].binding.id
  {
    var all, edges := AllCandidates(bindings, r, direction), EdgesFor(bindings, r, direction);
    var c, d := edges[i], edges[j];
    CandidatesDistinct(bindings, r, direction);
    SortSorts(all, ByBinding);
    SortElements(all, ByBinding);
    SortPermutes(all, ByBinding);
    MultisetDistinct(all, edges);
    assert c in edges && d in edges;
    CandidateMembers(bindings, r, direction, c);
    CandidateMembers(bindings, r, direction, d);
    assert ByBinding(c, d);
    if c.binding.id == d.binding.id {
      SameIdSameBinding(bindings, c.binding, d.binding);
      OneCandidate(c, d, r, direction);
    }
  }

  lemma SameIdSameBinding(bindings: seq<Binding>, b: Binding, c: Binding)
    requires DistinctIds(bindings) && b in bindings && c in bindings && b.id == c.id
    ensures b == c
  {
    var i :| 0 <= i < |bindings| && bindings[i] == b;
    var j :| 0 <= j < |bindings| && bindings[j] == c;
  }

  lemma {:induction false} ScanAllForgetsOrder(w: Walk, frontier: seq<Ref>, depth: int, bindings: seq<Binding>, other: seq<Binding>, q: Query, authorize: Authorize)
    requires DistinctIds(bindings) && DistinctIds(other) && multiset(bindings) == multiset(other)
    ensures ScanAll(w, frontier, depth, bindings, q, authorize) == ScanAll(w, frontier, depth, other, q, authorize)
    decreases |frontier|
  {
    if frontier != [] {
      ScanAllForgetsOrder(w, frontier[..|frontier| - 1], depth, bindings, other, q, authorize);
      EdgesForgetOrder(bindings, other, frontier[|frontier| - 1], q.direction);
    }
  }

  /** Appending the same bindings in another order changes neither the records nor the trace. */
  lemma TraverseForgetsOrder(n: nat, bindings: seq<Binding>, other: seq<Binding>, q: Query, authorize: Authorize)
    requires DistinctIds(bindings) && DistinctIds(other) && multiset(bindings) == multiset(other)
    ensures Traverse(n, bindings, q, authorize) == Traverse(n, other, q, authorize)
  {
    var step, step' := LevelStep(bindings, q, authorize), LevelStep(other, q, authorize);
    forall k: nat, w ensures step(k, w) == step'(k, w) {
      ScanAllForgetsOrder(w.(next := []), SortBy(w.next, RefAtMost), k, bindings, other, q, authorize);
    }
    IterateSame(n, Start(q.start), step, step');
  }

  // ----- the graph -----

  class BindingGraph {
    /** The values of the binding map, in insertion order. */
    var bindings: seq<Binding>

    ghost predicate Valid()
      reads this
    {
      DistinctIds(bindings)
    }

    constructor ()
      ensures Valid() && bindings == []
    {
      bindings := [];
    }

    method Append(binding: Binding) returns (failed: Option<BindingError>)
      requires Valid()
      modifies this
      ensures Valid()
      ensures failed == if exists i :: 0 <= i < |old(bindings)| && old(bindings)[i].id == binding.id
                        then Some(DuplicateBinding) else None
      ensures bindings == if failed == None then old(bindings) + [binding] else old(bindings)
    {
      if exists i :: 0 <= i < |bindings| && bindings[i].id == binding.id { return Some(DuplicateBinding); }
      bindings := bindings + [binding];
      failed := None;
    }

    /** The inner loop: every candidate of `current`, in order. */
    method LookAt(q: Query, authorize: Authorize, current: Ref, depth: int,
                  visited0: set<Ref>, records0: seq<Ref>, trace0: seq<Step>, next0: seq<Ref>)
      returns (visited: set<Ref>, records: seq<Ref>, trace: seq<Step>, next: seq<Ref>)
      ensures Walk(visited, records, trace, next) ==
              Scan(Walk(visited0, records0, trace0, next0), EdgesFor(bindings, current, q.direction), current, depth, q, authorize)
    {
      visited, records, trace, next := visited0, records0, trace0, next0;
      ghost var w := Walk(visited, records, trace, next);
      var candidates := EdgesFor(bindings, current, q.direction);
      for j := 0 to |candidates|
        invariant Walk(visited, records, trace, next) == Scan(w, candidates[..j], current, depth, q, authorize)
      {
        var candidate := candidates[j];
        var decision;
        if !InTime(candidate.binding, q) { decision := OutOfTime; }
        else if !authorize(candidate.target) { decision := Denied; }
        else if candidate.target in visited { decision := AlreadyVisited; }
        else { decision := Traversed; }
        trace := trace + [Step(candidate.binding.id, depth, candidate.side, decision, current, candidate.target)];
        if decision == Traversed {
          visited := visited + {candidate.target};
          records := records + [candidate.target];
          next := next + [candidate.target];
        }
        assert candidates[..j + 1][..j] == candidates[..j];
      }
      assert candidates[..|candidates|] == candidates;
    }

    /** The middle loop: one level, the frontier in reference order. */
    method LookAtAll(q: Query, authorize: Authorize, frontier: seq<Ref>, depth: int,
                     visited0: set<Ref>, records0: seq<Ref>, trace0: seq<Step>)
      returns (visited: set<Ref>, records: seq<Ref>, trace: seq<Step>, next: seq<Ref>)
      ensures Walk(visited, records, trace, next) ==
              Level(Walk(visited0, records0, trace0, frontier), depth, bindings, q, authorize)
    {
      visited, records, trace, next := visited0, records0, trace0, [];
      ghost var w := Walk(visited, records, trace, next);
      var sorted := SortBy(frontier, RefAtMost);
      for i := 0 to |sorted|
        invariant Walk(visited, records, trace, next) == ScanAll(w, sorted[..i], depth, bindings, q, authorize)
      {
        visited, records, trace, next := LookAt(q, authorize, sorted[i], depth, visited, records, trace, next);
        assert sorted[..i + 1][..i] == sorted[..i];
      }
      assert sorted[..|sorted|] == sorted;
    }

    method TraverseFrom(q: Query, maxDepth: int, authorize: Authorize) returns (r: Result<Traversal, BindingError>)
      requires Valid()
      ensures maxDepth < 0 ==> r == Err(InvalidDepth)
      ensures maxDepth >= 0 ==> r == Ok(Traverse(maxDepth, bindings, q, authorize))
    {
      if maxDepth < 0 { return Err(InvalidDepth); }
      var visited, records, trace: seq<Step>, frontier := {q.start}, [], [], [q.start];
      var depth := 1;
      while depth <= maxDepth && |frontier| > 0
        invariant 1 <= depth <= maxDepth + 1
        invariant Walk(visited, records, trace, frontier) == Levels(depth - 1, bindings, q, authorize)
        decreases maxDepth - depth
      {
        NextLevel(depth, bindings, q, authorize);
        visited, records, trace, frontier := LookAtAll(q, authorize, frontier, depth, visited, records, trace);
        depth := depth + 1;
      }
      ExhaustedStaysIf(depth - 1, maxDepth, bindings, q, authorize);
      r := Ok(Traversal(records, trace));
    }
  }

  lemma NextLevel(n: nat, bindings: seq<Binding>, q: Query, authorize: Authorize)
    requires n > 0
    ensures Levels(n, bindings, q, authorize) == Level(Levels(n - 1, bindings, q, authorize), n, bindings, q, authorize)
  {
  }

  lemma ExhaustedStaysIf(m: nat, n: nat, bindings: seq<Binding>, q: Query, authorize: Authorize)
    requires m <= n && (m == n || Levels(m, bindings, q, authorize).next == [])
    ensures Levels(n, bindings, q, authorize) == Levels(m, bindings, q, authorize)
  {
    if m < n { ExhaustedStays(m, n, bindings, q, authorize); }
  }
}
