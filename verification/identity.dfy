/**
 packages/identity: entities, aliases and reversible merges. `#mergedInto` points from a merged
 entity to the entity it was merged into; the canonical id is found by climbing it.
 */
module Identity {
  import opened Wrappers
  import opened Collections
  import opened Sorting
  import opened Replay

  datatype Operation =
    | EntityCreated(id: int, at: int, entity: int)
    | AliasAdded(id: int, at: int, entity: int, alias: int)
    | MatchProposed(id: int, at: int, left: int, right: int)
    | EntitiesMerged(id: int, at: int, canonical: int, merged: int, proposal: Option<int>)
    | EntitySplit(id: int, at: int, entity: int)

  datatype IdentityError =
    | DuplicateOperation(id: int)
    | DuplicateEntity(entity: int)
    | UnknownEntity(entity: int)
    | AlreadyTogether
    | UnknownProposal(proposal: int)
    | NotMerged(entity: int)
    | MergeCycle

  datatype MatchStatus = Provisional | Confirmed

  /** Sets that the code only iterates in insertion order are sequences of distinct ids. */
  datatype Registry = Registry(
    entities: set<int>, aliases: map<int, seq<int>>, proposals: set<int>, confirmed: set<int>,
    mergedInto: map<int, int>, mergeHistory: map<int, seq<Operation>>, operations: seq<Operation>,
    operationIds: set<int>)

  const EMPTY := Registry({}, map[], {}, {}, map[], map[], [], {})

  predicate ByTime(a: Operation, b: Operation) {
    a.at < b.at || (a.at == b.at && a.id <= b.id)
  }

  predicate Ascending(a: int, b: int) {
    a <= b
  }

  // ----- climbing the merge edges -----

  function Climb(m: map<int, int>, e: int, n: nat): int
    decreases n
  {
    if n == 0 || e !in m then e else Climb(m, m[e], n - 1)
  }

  lemma {:induction false} ClimbAdd(m: map<int, int>, e: int, i: nat, j: nat)
    ensures Climb(m, e, i + j) == Climb(m, Climb(m, e, i), j)
    decreases i
  {
    if i > 0 && e in m { ClimbAdd(m, m[e], i - 1, j); }
  }

  /** A node met twice on the way up is met forever. */
  lemma {:induction false} CycleNeverEnds(m: map<int, int>, e: int, i: nat, j: nat, n: nat)
    requires i < j && Climb(m, e, i) == Climb(m, e, j) && Climb(m, e, j) in m
    ensures Climb(m, e, n) in m
    decreases n
  {
    if n <= j {
      ClimbAdd(m, e, n, j - n);
    } else {
      ClimbAdd(m, e, j, n - j);
      ClimbAdd(m, e, i, n - j);
      CycleNeverEnds(m, e, i, j, i + (n - j));
    }
  }

  lemma LongClimbCycles(m: map<int, int>, e: int) returns (i: nat, j: nat)
    requires Climb(m, e, |m|) in m
    ensures i < j && Climb(m, e, i) == Climb(m, e, j) && Climb(m, e, j) in m
  {
    var p := seq(|m| + 1, k requires 0 <= k => Climb(m, e, k));
    forall k | 0 <= k < |p| ensures p[k] in m.Keys {
      ClimbAdd(m, e, k, |m| - k);
    }
    assert |m.Keys| == |m|;
    i, j := Pigeonhole(p, m.Keys);
  }

  /** A climb that ends at all ends within as many steps as there are edges. */
  lemma ClimbIsBounded(m: map<int, int>, e: int, n: nat)
    requires Climb(m, e, n) !in m
    ensures Climb(m, e, |m|) == Climb(m, e, n)
  {
    if Climb(m, e, |m|) in m {
      var i, j := LongClimbCycles(m, e);
      CycleNeverEnds(m, e, i, j, n);
    }
    if n <= |m| { ClimbAdd(m, e, n, |m| - n); } else { ClimbAdd(m, e, |m|, n - |m|); }
  }

  function Root(m: map<int, int>, e: int): int {
    Climb(m, e, |m|)
  }

  /** Every climb ends: the merge edges form a forest. */
  ghost predicate Forest(m: map<int, int>) {
    forall e :: Root(m, e) !in m
  }

  function Canonical(m: map<int, int>, e: int): Result<int, IdentityError> {
    if Root(m, e) in m then Err(MergeCycle) else Ok(Root(m, e))
  }

  /** The entity without a merge edge at the end of the climb, or a cycle if the climb has no end. */
  lemma CanonicalMeans(m: map<int, int>, e: int)
    ensures match Canonical(m, e)
      case Ok(x) => x !in m && exists n: nat :: Climb(m, e, n) == x
      case Err(error) => error == MergeCycle && forall n: nat :: Climb(m, e, n) in m
  {
    if Canonical(m, e).Ok? {
      assert Climb(m, e, |m|) == Canonical(m, e).value;
    } else {
      forall n: nat ensures Climb(m, e, n) in m {
        if Climb(m, e, n) !in m { ClimbIsBounded(m, e, n); }
      }
    }
  }

  lemma RootStep(m: map<int, int>, e: int)
    requires Forest(m)
    ensures Root(m, e) == if e in m then Root(m, m[e]) else e
  {
    if e in m {
      var n := |m|;
      assert Climb(m, e, n + 1) == Root(m, m[e]);
      ClimbIsBounded(m, e, n + 1);
    }
  }

  lemma RootAlong(m: map<int, int>, e: int, i: nat)
    requires Forest(m)
    ensures Root(m, Climb(m, e, i)) == Root(m, e)
  {
    ClimbAdd(m, e, i, |m|);
    assert Climb(m, e, i + |m|) == Root(m, Climb(m, e, i));
    ClimbIsBounded(m, e, i + |m|);
  }

  /** `x` is `e` or was merged into it, directly or through others. */
  ghost predicate Below(m: map<int, int>, x: int, e: int) {
    exists i: nat :: Climb(m, x, i) == e
  }

  lemma BelowStep(m: map<int, int>, x: int, e: int)
    ensures Below(m, x, e) <==> x == e || (x in m && Below(m, m[x], e))
  {
    if Below(m, x, e) {
      var i: nat :| Climb(m, x, i) == e;
      if i > 0 && x in m { assert Climb(m, m[x], i - 1) == e; }
    }
    if x == e { assert Climb(m, x, 0) == e; }
    if x in m && Below(m, m[x], e) {
      var i: nat :| Climb(m, m[x], i) == e;
      assert Climb(m, x, i + 1) == e;
    }
  }

  /** Below a root are exactly the entities that resolve to it. */
  lemma BelowRoot(m: map<int, int>, x: int, e: int)
    requires Forest(m) && e !in m
    ensures Below(m, x, e) <==> Root(m, x) == e
  {
    if Below(m, x, e) {
      var i: nat :| Climb(m, x, i) == e;
      RootAlong(m, x, i);
      RootStep(m, e);
    }
    if Root(m, x) == e { assert Climb(m, x, |m|) == e; }
  }

  ghost predicate Ends(m: map<int, int>, x: int, r: int) {
    exists n: nat :: Climb(m, x, n) == r && r !in m
  }

  lemma EndsAtRoot(m: map<int, int>, x: int, r: int)
    requires Ends(m, x, r)
    ensures Root(m, x) == r && r !in m
  {
    var n: nat :| Climb(m, x, n) == r && r !in m;
    ClimbIsBounded(m, x, n);
  }

  lemma EndsStep(m: map<int, int>, x: int, r: int)
    requires x in m && Ends(m, m[x], r)
    ensures Ends(m, x, r)
  {
    var n: nat :| Climb(m, m[x], n) == r && r !in m;
    assert Climb(m, x, n + 1) == r;
  }

  lemma EndsHere(m: map<int, int>, x: int)
    requires x !in m
    ensures Ends(m, x, x)
  {
    assert Climb(m, x, 0) == x;
  }

  // ----- one edge changed -----

  /** A climb that never passes `e` does not notice a change at `e`. */
  lemma {:induction false} AvoidsChange(m: map<int, int>, m': map<int, int>, e: int, x: int, n: nat)
    requires forall y :: y != e ==> (y in m <==> y in m') && (y in m ==> m[y] == m'[y])
    requires !Below(m, x, e) && Climb(m, x, n) !in m
    ensures Ends(m', x, Climb(m, x, n))
    decreases n
  {
    BelowStep(m, x, e);
    if x in m && n > 0 {
      AvoidsChange(m, m', e, m[x], n - 1);
      EndsStep(m', x, Climb(m, x, n));
    } else {
      EndsHere(m', x);
    }
  }

  /** A climb that passes `e` goes on from `e` in the changed edges. */
  lemma {:induction false} MeetsChange(m: map<int, int>, m': map<int, int>, e: int, x: int, i: nat, r: int)
    requires forall y :: y != e ==> (y in m <==> y in m') && (y in m ==> m[y] == m'[y])
    requires Climb(m, x, i) == e && Ends(m', e, r)
    ensures Ends(m', x, r)
    decreases i
  {
    if x != e {
      MeetsChange(m, m', e, m[x], i - 1, r);
      EndsStep(m', x, r);
    }
  }

  function Merge(m: map<int, int>, merged: int, canonical: int): map<int, int> {
    m[merged := canonical]
  }

  function Split(m: map<int, int>, e: int): map<int, int> {
    map x | x in m && x != e :: m[x]
  }

  lemma ApartIsNotBelow(m: map<int, int>, e: int, q: int)
    requires Forest(m) && Root(m, e) != Root(m, q)
    ensures !Below(m, q, e)
  {
    if Below(m, q, e) {
      var i: nat :| Climb(m, q, i) == e;
      RootAlong(m, q, i);
    }
  }

  lemma MergeResolves(m: map<int, int>, e: int, q: int, x: int)
    requires Forest(m) && !Below(m, q, e)
    ensures Ends(Merge(m, e, q), x, if Below(m, x, e) then Root(m, q) else Root(m, x))
  {
    var m' := Merge(m, e, q);
    assert Climb(m, q, |m|) == Root(m, q);
    AvoidsChange(m, m', e, q, |m|);
    EndsStep(m', e, Root(m, q));
    if Below(m, x, e) {
      var i: nat :| Climb(m, x, i) == e;
      MeetsChange(m, m', e, x, i, Root(m, q));
    } else {
      assert Climb(m, x, |m|) == Root(m, x);
      AvoidsChange(m, m', e, x, |m|);
    }
  }

  /** Merging what does not resolve together keeps a forest, even when it moves an already merged entity. */
  lemma MergeKeepsForest(m: map<int, int>, e: int, q: int)
    requires Forest(m) && !Below(m, q, e)
    ensures Forest(Merge(m, e, q))
    ensures forall x :: Root(Merge(m, e, q), x) == if Below(m, x, e) then Root(m, q) else Root(m, x)
  {
    forall x
      ensures Root(Merge(m, e, q), x) !in Merge(m, e, q)
      ensures Root(Merge(m, e, q), x) == if Below(m, x, e) then Root(m, q) else Root(m, x)
    {
      MergeResolves(m, e, q, x);
      EndsAtRoot(Merge(m, e, q), x, if Below(m, x, e) then Root(m, q) else Root(m, x));
    }
  }

  /** A merge closes a cycle exactly when the target is the merged entity or lies below it. */
  lemma MergeClosesIff(m: map<int, int>, e: int, q: int)
    requires Forest(m)
    ensures !Forest(Merge(m, e, q)) <==> Below(m, q, e)
  {
    var m' := Merge(m, e, q);
    if Below(m, q, e) {
      var n: nat :| Climb(m, q, n) == e;
      var i := ClimbInMerged(m, e, q, q, n);
      ClimbAdd(m', q, i, 1);
      assert Climb(m', e, 1) == Climb(m', q, 0);
      CycleNeverEnds(m', q, 0, i + 1, |m'|);
      assert Root(m', q) in m';
    } else {
      MergeKeepsForest(m, e, q);
    }
  }

  lemma {:induction false} ClimbInMerged(m: map<int, int>, e: int, q: int, x: int, n: nat) returns (i: nat)
    requires Climb(m, x, n) == e
    ensures Climb(Merge(m, e, q), x, i) == e
    decreases n
  {
    if x == e {
      i := 0;
    } else {
      i := ClimbInMerged(m, e, q, m[x], n - 1);
      i := i + 1;
    }
  }

  lemma SplitResolves(m: map<int, int>, e: int, x: int)
    requires Forest(m) && e in m
    ensures Ends(Split(m, e), x, if Below(m, x, e) then e else Root(m, x))
  {
    var m' := Split(m, e);
    if Below(m, x, e) {
      var i: nat :| Climb(m, x, i) == e;
      EndsHere(m', e);
      MeetsChange(m, m', e, x, i, e);
    } else {
      assert Climb(m, x, |m|) == Root(m, x);
      AvoidsChange(m, m', e, x, |m|);
    }
  }

  /** A split takes the entity and everything below it away from the old canonical entity, and nothing else. */
  lemma SplitKeepsForest(m: map<int, int>, e: int)
    requires Forest(m) && e in m
    ensures Forest(Split(m, e))
    ensures forall x :: Root(Split(m, e), x) == if Below(m, x, e) then e else Root(m, x)
  {
    forall x
      ensures Root(Split(m, e), x) !in Split(m, e)
      ensures Root(Split(m, e), x) == if Below(m, x, e) then e else Root(m, x)
    {
      SplitResolves(m, e, x);
      EndsAtRoot(Split(m, e), x, if Below(m, x, e) then e else Root(m, x));
    }
  }

  /** Splitting right after a merge restores every resolution exactly when the merged entity was a root. */
  lemma SplitUndoesMerge(m: map<int, int>, e: int, q: int)
    requires Forest(m) && Root(m, e) != Root(m, q)
    ensures (forall x :: Root(Split(Merge(m, e, q), e), x) == Root(m, x)) <==> e !in m
  {
    var back := Split(Merge(m, e, q), e);
    if e !in m {
      assert back == m;
    } else {
      assert back == Split(m, e);
      SplitKeepsForest(m, e);
      RootStep(back, e);
      assert Root(m, e) != e;
    }
  }

  /** The entities that stand for themselves are the ones without a merge edge. */
  lemma CanonicalIds(entities: set<int>, m: map<int, int>)
    requires Forest(m) && m.Keys <= entities && forall e :: e in m ==> m[e] in entities
    ensures (set e | e in entities :: Root(m, e)) == entities - m.Keys
    ensures |set e | e in entities :: Root(m, e)| == |entities| - |m|
  {
    var roots := set e | e in entities :: Root(m, e);
    forall e | e in entities ensures Root(m, e) in entities - m.Keys { RootInside(entities, m, e, |m|); }
    forall e | e in entities - m.Keys ensures e in roots { RootStep(m, e); }
    assert roots == entities - m.Keys;
    assert entities == roots + m.Keys;
    assert |m.Keys| == |m|;
  }

  lemma {:induction false} RootInside(entities: set<int>, m: map<int, int>, e: int, n: nat)
    requires e in entities && forall x :: x in m ==> m[x] in entities
    ensures Climb(m, e, n) in entities
    decreases n
  {
    if n > 0 && e in m { RootInside(entities, m, m[e], n - 1); }
  }

  // ----- operations -----

  function OwnersOf(r: Registry, alias: int): seq<int> {
    if alias in r.aliases then r.aliases[alias] else []
  }

  function HistoryOf(r: Registry, e: int): seq<Operation> {
    if e in r.mergeHistory then r.mergeHistory[e] else []
  }

  function WithOwner(owners: seq<int>, e: int): seq<int> {
    if e in owners then owners else owners + [e]
  }

  function ApplyMerge(r: Registry, o: Operation): Result<Registry, IdentityError>
    requires o.EntitiesMerged?
  {
    if o.canonical !in r.entities then Err(UnknownEntity(o.canonical))
    else if o.merged !in r.entities then Err(UnknownEntity(o.merged))
    else if Canonical(r.mergedInto, o.canonical).Err? || Canonical(r.mergedInto, o.merged).Err? then Err(MergeCycle)
    else if Canonical(r.mergedInto, o.canonical) == Canonical(r.mergedInto, o.merged) then Err(AlreadyTogether)
    else if o.proposal.Some? && o.proposal.value !in r.proposals then Err(UnknownProposal(o.proposal.value))
    else Ok(r.(confirmed := if o.proposal.Some? then r.confirmed + {o.proposal.value} else r.confirmed,
               mergedInto := Merge(r.mergedInto, o.merged, o.canonical),
               mergeHistory := r.mergeHistory[o.merged := HistoryOf(r, o.merged) + [o]]))
  }

  function ApplySplit(r: Registry, o: Operation): Result<Registry, IdentityError>
    requires o.EntitySplit?
  {
    if o.entity !in r.entities then Err(UnknownEntity(o.entity))
    else if o.entity !in r.mergedInto then Err(NotMerged(o.entity))
    else Ok(r.(mergedInto := Split(r.mergedInto, o.entity),
               mergeHistory := r.mergeHistory[o.entity := HistoryOf(r, o.entity) + [o]]))
  }

  function ApplyEffect(r: Registry, o: Operation): Result<Registry, IdentityError> {
    match o
    case EntityCreated(_, _, e) =>
      if e in r.entities then Err(DuplicateEntity(e)) else Ok(r.(entities := r.entities + {e}))
    case AliasAdded(_, _, e, alias) =>
      if e !in r.entities then Err(UnknownEntity(e))
      else Ok(r.(aliases := r.aliases[alias := WithOwner(OwnersOf(r, alias), e)]))
    case MatchProposed(id, _, left, right) =>
      if left !in r.entities then Err(UnknownEntity(left))
      else if right !in r.entities then Err(UnknownEntity(right))
      else Ok(r.(proposals := r.proposals + {id}))
    case EntitiesMerged(_, _, _, _, _) => ApplyMerge(r, o)
    case EntitySplit(_, _, _) => ApplySplit(r, o)
  }

  function Log(r: Registry, o: Operation): Registry {
    r.(operations := r.operations + [o], operationIds := r.operationIds + {o.id})
  }

  function Apply(r: Registry, o: Operation): Result<Registry, IdentityError> {
    if o.id in r.operationIds then Err(DuplicateOperation(o.id))
    else match ApplyEffect(r, o)
      case Err(e) => Err(e)
      case Ok(s) => Ok(Log(s, o))
  }

  // ----- what an operation asks for and what it does -----

  /** Climbing from both ends at the same entity. */
  ghost predicate Together(m: map<int, int>, a: int, b: int) {
    exists i: nat, j: nat :: Climb(m, a, i) == Climb(m, b, j)
  }

  /** Everything an operation is refused for. */
  ghost predicate Acceptable(r: Registry, o: Operation) {
    && o.id !in r.operationIds
    && match o
       case EntityCreated(_, _, e) => e !in r.entities
       case AliasAdded(_, _, e, _) => e in r.entities
       case MatchProposed(_, _, left, right) => left in r.entities && right in r.entities
       case EntitiesMerged(_, _, c, e, p) =>
         c in r.entities && e in r.entities && !Together(r.mergedInto, c, e) && (p.Some? ==> p.value in r.proposals)
       case EntitySplit(_, _, e) => e in r.entities && e in r.mergedInto
  }

  /** One more entry in the entity's history. */
  ghost predicate Notes(r: Registry, s: Registry, e: int, o: Operation) {
    && e in s.mergeHistory && s.mergeHistory == r.mergeHistory[e := s.mergeHistory[e]]
    && s.mergeHistory[e] == (if e in r.mergeHistory then r.mergeHistory[e] + [o] else [o])
  }

  /** What an accepted operation changes; nothing else does. */
  ghost predicate Changes(r: Registry, s: Registry, o: Operation) {
    && s.operations == r.operations + [o] && s.operationIds == r.operationIds + {o.id}
    && s.entities == (if o.EntityCreated? then r.entities + {o.entity} else r.entities)
    && s.proposals == (if o.MatchProposed? then r.proposals + {o.id} else r.proposals)
    && s.confirmed == (if o.EntitiesMerged? && o.proposal.Some? then r.confirmed + {o.proposal.value} else r.confirmed)
    && match o
       case AliasAdded(_, _, e, alias) =>
         && s.mergedInto == r.mergedInto && s.mergeHistory == r.mergeHistory
         && alias in s.aliases && s.aliases == r.aliases[alias := s.aliases[alias]]
         && s.aliases[alias] == (if alias !in r.aliases then [e] else if e in r.aliases[alias] then r.aliases[alias] else r.aliases[alias] + [e])
       case EntitiesMerged(_, _, c, e, _) => s.aliases == r.aliases && s.mergedInto == r.mergedInto[e := c] && Notes(r, s, e, o)
       case EntitySplit(_, _, e) => s.aliases == r.aliases && s.mergedInto == r.mergedInto - {e} && Notes(r, s, e, o)
       case _ => s.aliases == r.aliases && s.mergedInto == r.mergedInto && s.mergeHistory == r.mergeHistory
  }

  /** What an error says is so. */
  ghost predicate RefusedFor(r: Registry, o: Operation, error: IdentityError) {
    match error
    case DuplicateOperation(id) => id == o.id && id in r.operationIds
    case DuplicateEntity(e) => o.EntityCreated? && e == o.entity && e in r.entities
    case UnknownEntity(e) =>
      && e !in r.entities
      && (match o
          case EntityCreated(_, _, _) => false
          case AliasAdded(_, _, x, _) => e == x
          case MatchProposed(_, _, left, right) => e == left || e == right
          case EntitiesMerged(_, _, c, x, _) => e == c || e == x
          case EntitySplit(_, _, x) => e == x)
    case AlreadyTogether => o.EntitiesMerged? && Together(r.mergedInto, o.canonical, o.merged)
    case UnknownProposal(p) => o.EntitiesMerged? && o.proposal == Some(p) && p !in r.proposals
    case NotMerged(e) => o.EntitySplit? && e == o.entity && e !in r.mergedInto
    case MergeCycle => false
  }

  lemma TogetherIff(m: map<int, int>, a: int, b: int)
    requires Forest(m)
    ensures Together(m, a, b) <==> Root(m, a) == Root(m, b)
  {
    if Root(m, a) == Root(m, b) { assert Climb(m, a, |m|) == Climb(m, b, |m|); }
    if Together(m, a, b) {
      var i: nat, j: nat :| Climb(m, a, i) == Climb(m, b, j);
      RootAlong(m, a, i);
      RootAlong(m, b, j);
    }
  }

  /** Accepted or refused with everything as it was. */
  ghost predicate Answers(r: Registry, s: Registry, o: Operation, thrown: Option<IdentityError>) {
    && (thrown == None <==> Acceptable(r, o))
    && (thrown == None ==> Changes(r, s, o))
    && (thrown.Some? ==> s == r && RefusedFor(r, o, thrown.value))
  }

  lemma ApplyAnswers(r: Registry, o: Operation)
    requires Forest(r.mergedInto)
    ensures match Apply(r, o) case Ok(s) => Answers(r, s, o, None) case Err(e) => Answers(r, r, o, Some(e))
  {
    if o.EntitiesMerged? { TogetherIff(r.mergedInto, o.canonical, o.merged); }
  }

  // ----- what operations introduce and what they need -----

  datatype Name = Entity(entity: int) | Proposal(id: int)

  function Introduced(o: Operation): Option<Name> {
    match o
    case EntityCreated(_, _, e) => Some(Entity(e))
    case MatchProposed(id, _, _, _) => Some(Proposal(id))
    case _ => None
  }

  function NamedBy(o: Operation): set<Name> {
    match o
    case EntityCreated(_, _, _) => {}
    case AliasAdded(_, _, e, _) => {Entity(e)}
    case MatchProposed(_, _, left, right) => {Entity(left), Entity(right)}
    case EntitiesMerged(_, _, c, e, p) => {Entity(c), Entity(e)} + if p.Some? then {Proposal(p.value)} else {}
    case EntitySplit(_, _, e) => {Entity(e)}
  }

  predicate Holds(r: Registry, n: Name) {
    match n
    case Entity(e) => e in r.entities
    case Proposal(p) => p in r.proposals
  }

  function Introducing(n: Name): Operation -> bool {
    (o: Operation) => Introduced(o) == Some(n)
  }

  function WithId(id: int): Operation -> bool {
    (o: Operation) => o.id == id
  }

  function Confirming(proposal: int): Operation -> bool {
    (o: Operation) => o.EntitiesMerged? && o.proposal == Some(proposal)
  }

  function Owning(alias: int, e: int): Operation -> bool {
    (o: Operation) => o.AliasAdded? && o.alias == alias && o.entity == e
  }

  ghost predicate Said(log: seq<Operation>, p: Operation -> bool) {
    exists o :: o in log && p(o)
  }

  lemma SaidSnoc(log: seq<Operation>, o: Operation, p: Operation -> bool)
    ensures Said(log + [o], p) <==> Said(log, p) || p(o)
  {
    assert forall x :: x in log + [o] <==> x in log || x == o;
  }

  /** Merges and splits. */
  predicate IsEdge(o: Operation) {
    o.EntitiesMerged? || o.EntitySplit?
  }

  /** What a merge or a split makes of the edges, or why it is refused. */
  function EdgeStep(m: map<int, int>, o: Operation): Result<map<int, int>, IdentityError> {
    match o
    case EntitiesMerged(_, _, c, e, _) =>
      if Canonical(m, c).Err? || Canonical(m, e).Err? then Err(MergeCycle)
      else if Canonical(m, c) == Canonical(m, e) then Err(AlreadyTogether) else Ok(Merge(m, e, c))
    case EntitySplit(_, _, e) => if e !in m then Err(NotMerged(e)) else Ok(Split(m, e))
    case _ => Ok(m)
  }

  /** The edges that the merges and splits of a list make, looked at alone and in its order. */
  function EdgesAfter(log: seq<Operation>): Result<map<int, int>, IdentityError> {
    Run(EdgeStep, map[], Filter(log, IsEdge))
  }

  lemma EdgesSnoc(log: seq<Operation>, o: Operation)
    ensures EdgesAfter(log + [o]) == match EdgesAfter(log) case Err(e) => Err(e) case Ok(m) => EdgeStep(m, o)
  {
    FilterAppend(log, [o], IsEdge);
    assert [o][1..] == [];
    if IsEdge(o) {
      assert Filter([o], IsEdge) == [o];
      RunSnoc(EdgeStep, map[], Filter(log, IsEdge), o);
    } else {
      assert Filter(log + [o], IsEdge) == Filter(log, IsEdge);
    }
  }

  // ----- what every registry keeps -----

  /** Merges and splits of `e`. */
  function Touches(e: int): Operation -> bool {
    (o: Operation) => (o.EntitiesMerged? && o.merged == e) || (o.EntitySplit? && o.entity == e)
  }

  /** The current edge of each entity is what the last entry of its merge history says. */
  ghost predicate HistoryExplains(r: Registry, e: int) {
    var h := HistoryOf(r, e);
    && h == Filter(r.operations, Touches(e))
    && (e in r.mergedInto <==> h != [] && h[|h| - 1].EntitiesMerged?)
    && (e in r.mergedInto ==> h[|h| - 1].canonical == r.mergedInto[e])
  }

  ghost predicate EdgesOk(r: Registry) {
    && Forest(r.mergedInto) && r.mergedInto.Keys <= r.entities
    && forall e :: e in r.mergedInto ==> r.mergedInto[e] in r.entities
  }

  ghost predicate AliasesOk(r: Registry) {
    forall a :: a in r.aliases ==> Distinct(r.aliases[a]) && forall e :: e in r.aliases[a] ==> e in r.entities
  }

  ghost predicate NamesTold(r: Registry) {
    forall n :: Holds(r, n) <==> Said(r.operations, Introducing(n))
  }

  ghost predicate ConfirmedTold(r: Registry) {
    forall p :: p in r.confirmed <==> Said(r.operations, Confirming(p))
  }

  ghost predicate OwnersTold(r: Registry) {
    forall a, e :: e in OwnersOf(r, a) <==> Said(r.operations, Owning(a, e))
  }

  ghost predicate IdsTold(r: Registry) {
    forall id :: id in r.operationIds <==> Said(r.operations, WithId(id))
  }

  /** Everything in the registry is what the logged operations say. */
  ghost predicate LogOk(r: Registry) {
    && NamesTold(r) && ConfirmedTold(r) && OwnersTold(r) && IdsTold(r)
    && EdgesAfter(r.operations) == Ok(r.mergedInto) && forall e :: HistoryExplains(r, e)
  }

  ghost predicate Inv(r: Registry) {
    EdgesOk(r) && AliasesOk(r) && LogOk(r) && r.confirmed <= r.proposals
  }

  lemma EmptyInv()
    ensures Inv(EMPTY)
  {
    assert Run(EdgeStep, map[], []) == Ok(map[]);
  }

  lemma EffectKeepsEdges(r: Registry, o: Operation)
    requires EdgesOk(r) && ApplyEffect(r, o).Ok?
    ensures EdgesOk(ApplyEffect(r, o).value)
  {
    match o
    case EntitiesMerged(_, _, c, e, _) =>
      ApartIsNotBelow(r.mergedInto, e, c);
      MergeKeepsForest(r.mergedInto, e, c);
    case EntitySplit(_, _, e) => SplitKeepsForest(r.mergedInto, e);
    case _ =>
  }

  lemma FilteredLog(log: seq<Operation>, o: Operation, e: int)
    ensures Filter(log + [o], Touches(e)) == Filter(log, Touches(e)) + if Touches(e)(o) then [o] else []
  {
    FilterAppend(log, [o], Touches(e));
    assert [o][1..] == [];
  }

  lemma HistoryStep(r: Registry, o: Operation, e: int)
    requires Apply(r, o).Ok?
    ensures var s := Apply(r, o).value;
      && HistoryOf(s, e) == HistoryOf(r, e) + (if Touches(e)(o) then [o] else [])
      && s.operations == r.operations + [o]
      && (Touches(e)(o) ==> (e in s.mergedInto <==> o.EntitiesMerged?) && (o.EntitiesMerged? ==> s.mergedInto[e] == o.canonical))
      && (!Touches(e)(o) ==> (e in s.mergedInto <==> e in r.mergedInto) && (e in r.mergedInto ==> s.mergedInto[e] == r.mergedInto[e]))
  {
  }

  lemma ApplyExplains(r: Registry, o: Operation, e: int)
    requires Apply(r, o).Ok? && HistoryExplains(r, e)
    ensures HistoryExplains(Apply(r, o).value, e)
  {
    FilteredLog(r.operations, o, e);
    HistoryStep(r, o, e);
  }

  lemma ApplyTellsNames(r: Registry, o: Operation)
    requires NamesTold(r) && Apply(r, o).Ok?
    ensures NamesTold(Apply(r, o).value)
  {
    var s := Apply(r, o).value;
    forall n ensures Holds(s, n) <==> Said(s.operations, Introducing(n)) {
      SaidSnoc(r.operations, o, Introducing(n));
      assert Holds(s, n) <==> Holds(r, n) || Introduced(o) == Some(n);
    }
  }

  lemma ApplyTellsConfirmed(r: Registry, o: Operation)
    requires ConfirmedTold(r) && Apply(r, o).Ok?
    ensures ConfirmedTold(Apply(r, o).value)
  {
    forall p { SaidSnoc(r.operations, o, Confirming(p)); }
  }

  lemma ApplyTellsOwners(r: Registry, o: Operation)
    requires OwnersTold(r) && Apply(r, o).Ok?
    ensures OwnersTold(Apply(r, o).value)
  {
    var s := Apply(r, o).value;
    forall a, e ensures e in OwnersOf(s, a) <==> Said(s.operations, Owning(a, e)) {
      SaidSnoc(r.operations, o, Owning(a, e));
      assert e in OwnersOf(s, a) <==> e in OwnersOf(r, a) || Owning(a, e)(o);
    }
  }

  lemma ApplyTellsIds(r: Registry, o: Operation)
    requires IdsTold(r) && Apply(r, o).Ok?
    ensures IdsTold(Apply(r, o).value)
  {
    forall id { SaidSnoc(r.operations, o, WithId(id)); }
  }

  lemma ApplyTellsEdges(r: Registry, o: Operation)
    requires EdgesAfter(r.operations) == Ok(r.mergedInto) && Apply(r, o).Ok?
    ensures EdgesAfter(Apply(r, o).value.operations) == Ok(Apply(r, o).value.mergedInto)
  {
    EdgesSnoc(r.operations, o);
  }

  lemma EffectKeepsAliases(r: Registry, o: Operation)
    requires AliasesOk(r) && ApplyEffect(r, o).Ok?
    ensures AliasesOk(ApplyEffect(r, o).value)
  {
  }

  lemma ApplyKeepsLog(r: Registry, o: Operation)
    requires LogOk(r) && Apply(r, o).Ok?
    ensures LogOk(Apply(r, o).value)
  {
    ApplyTellsNames(r, o);
    ApplyTellsConfirmed(r, o);
    ApplyTellsOwners(r, o);
    ApplyTellsIds(r, o);
    ApplyTellsEdges(r, o);
    forall e ensures HistoryExplains(Apply(r, o).value, e) { ApplyExplains(r, o, e); }
  }

  lemma ApplyKeepsInv(r: Registry, o: Operation)
    requires Inv(r) && Apply(r, o).Ok?
    ensures Inv(Apply(r, o).value)
  {
    EffectKeepsEdges(r, o);
    EffectKeepsAliases(r, o);
    ApplyKeepsLog(r, o);
  }

  /** No reachable registry throws the cycle error. */
  lemma CycleUnreachable(log: seq<Operation>)
    requires Run(Apply, EMPTY, log).Ok?
    ensures var r := Run(Apply, EMPTY, log).value;
      Inv(r) && forall e :: Canonical(r.mergedInto, e) == Ok(Root(r.mergedInto, e))
  {
    var good: Operation -> bool := o => true;
    forall s, o | Inv(s) && Apply(s, o).Ok? ensures Inv(Apply(s, o).value) { ApplyKeepsInv(s, o); }
    EmptyInv();
    RunKeeps(Apply, Inv, good, EMPTY, log);
  }

  // ----- aliases -----

  function Resolve(m: map<int, int>): int -> int {
    (e: int) => Root(m, e)
  }

  function ResolveAlias(r: Registry, alias: int): seq<int> {
    SortBy(Unique(MapSeq(OwnersOf(r, alias), Resolve(r.mergedInto))), Ascending)
  }

  lemma AliasMembers(r: Registry, alias: int, x: int)
    ensures x in ResolveAlias(r, alias) <==> exists i :: 0 <= i < |OwnersOf(r, alias)| && Root(r.mergedInto, OwnersOf(r, alias)[i]) == x
  {
    var owners := OwnersOf(r, alias);
    var roots := MapSeq(owners, Resolve(r.mergedInto));
    UniqueElements(roots);
    SortElements(Unique(roots), Ascending);
    if x in roots {
      var i :| 0 <= i < |roots| && roots[i] == x;
      assert Root(r.mergedInto, owners[i]) == x;
    }
    forall i | 0 <= i < |owners| && Root(r.mergedInto, owners[i]) == x ensures x in roots { assert roots[i] == x; }
  }

  lemma AliasListed(r: Registry, alias: int)
    ensures SortedBy(ResolveAlias(r, alias), Ascending) && Distinct(ResolveAlias(r, alias))
    ensures forall i, j :: 0 <= i < j < |ResolveAlias(r, alias)| ==> ResolveAlias(r, alias)[i] < ResolveAlias(r, alias)[j]
  {
    var roots := MapSeq(OwnersOf(r, alias), Resolve(r.mergedInto));
    UniqueElements(roots);
    SortSorts(Unique(roots), Ascending);
    SortPermutes(Unique(roots), Ascending);
    MultisetDistinct(Unique(roots), ResolveAlias(r, alias));
    var list := ResolveAlias(r, alias);
    forall i, j | 0 <= i < j < |list| ensures list[i] < list[j] { assert Ascending(list[i], list[j]) && list[i] != list[j]; }
  }

  /** After merging a root, aliases resolve as before with that root replaced by where it went. */
  lemma AliasAfterMerge(r: Registry, o: Operation, alias: int, x: int)
    requires Inv(r) && o.EntitiesMerged? && Apply(r, o).Ok? && o.merged !in r.mergedInto
    ensures var s := Apply(r, o).value;
      x in ResolveAlias(s, alias) <==>
        (x in ResolveAlias(r, alias) && x != o.merged) ||
        (o.merged in ResolveAlias(r, alias) && x == Root(r.mergedInto, o.canonical))
  {
    var s := Apply(r, o).value;
    var owners := OwnersOf(r, alias);
    ApartIsNotBelow(r.mergedInto, o.merged, o.canonical);
    MergeKeepsForest(r.mergedInto, o.merged, o.canonical);
    forall e { BelowRoot(r.mergedInto, e, o.merged); }
    AliasMembers(s, alias, x);
    AliasMembers(r, alias, x);
    AliasMembers(r, alias, o.merged);
    RootStep(r.mergedInto, o.merged);
    assert OwnersOf(s, alias) == owners;
    forall i | 0 <= i < |owners|
      ensures Root(s.mergedInto, owners[i]) ==
              if Root(r.mergedInto, owners[i]) == o.merged then Root(r.mergedInto, o.canonical) else Root(r.mergedInto, owners[i])
    {
    }
  }

  // ----- replay -----

  function Until(limit: Option<int>): Operation -> bool {
    (o: Operation) => limit.None? || o.at <= limit.value
  }

  function ReplayFrom(operations: seq<Operation>, limit: Option<int>): Result<Registry, IdentityError> {
    Run(Apply, EMPTY, SortBy(Filter(operations, Until(limit)), ByTime))
  }

  ghost predicate DistinctIds(operations: seq<Operation>) {
    forall i, j :: 0 <= i < j < |operations| ==> operations[i].id != operations[j].id
  }

  lemma OperationsOrdered(operations: seq<Operation>)
    requires DistinctIds(operations)
    ensures TotalPreorder(ByTime) && AntisymmetricOn(operations, ByTime) && Distinct(operations)
  {
  }

  /** A replay is a function of the set of operations. */
  lemma ReplayForgetsOrder(a: seq<Operation>, b: seq<Operation>, limit: Option<int>)
    requires DistinctIds(a) && multiset(a) == multiset(b)
    ensures ReplayFrom(a, limit) == ReplayFrom(b, limit)
  {
    var p := Until(limit);
    OperationsOrdered(a);
    forall o ensures multiset(Filter(a, p))[o] == multiset(Filter(b, p))[o] {
      FilterMultiset(a, p, o);
      FilterMultiset(b, p, o);
    }
    forall o | o in Filter(a, p) ensures o in a { FilterMember(a, p, o); }
    SortForgetsOrder(Filter(a, p), Filter(b, p), ByTime);
  }

  lemma AcceptedPrefix(log: seq<Operation>, k: nat)
    requires k <= |log| && Run(Apply, EMPTY, log).Ok?
    ensures Run(Apply, EMPTY, log[..k]).Ok?
  {
    assert log == log[..k] + log[k..];
    RunAppend(Apply, EMPTY, log[..k], log[k..]);
  }

  /**
   A registry whose operations were applied in (time, id) order is rebuilt by replaying its history, and
   replaying it up to an instant gives the registry as it was then.
   */
  lemma ReplayRewinds(log: seq<Operation>, listed: seq<Operation>, limit: Option<int>) returns (k: nat)
    requires Run(Apply, EMPTY, log).Ok? && SortedBy(log, ByTime)
    requires multiset(listed) == multiset(log)
    ensures k <= |log| && forall i :: 0 <= i < |log| ==> (Until(limit)(log[i]) <==> i < k)
    ensures ReplayFrom(listed, limit) == Run(Apply, EMPTY, log[..k]) && ReplayFrom(listed, limit).Ok?
  {
    AcceptedIff(log);
    AdmissibleDistinct(log);
    ReplayForgetsOrder(log, listed, limit);
    FilterPrefix(log, Until(limit), ByTime);
    k := |Filter(log, Until(limit))|;
    SortKeepsSorted(log[..k], ByTime);
    AcceptedPrefix(log, k);
  }

  function Logged(): Registry -> seq<Operation> {
    (r: Registry) => r.operations
  }

  lemma ApplyLogs(r: Registry, o: Operation)
    requires Apply(r, o).Ok?
    ensures Logged()(Apply(r, o).value) == Logged()(r) + [o]
  {
  }

  lemma RunLogs(log: seq<Operation>)
    requires Run(Apply, EMPTY, log).Ok?
    ensures Logged()(Run(Apply, EMPTY, log).value) == Logged()(EMPTY) + log
  {
    forall r, o | Apply(r, o).Ok? ensures Logged()(Apply(r, o).value) == Logged()(r) + [o] { ApplyLogs(r, o); }
    RunNotes(Apply, Logged(), EMPTY, log);
  }

  lemma RunIsLogged(log: seq<Operation>)
    requires Run(Apply, EMPTY, log).Ok?
    ensures Run(Apply, EMPTY, log).value.operations == log && Inv(Run(Apply, EMPTY, log).value)
  {
    RunLogs(log);
    assert EMPTY.operations + log == log;
    CycleUnreachable(log);
  }

  // ----- which lists of operations are accepted -----

  /** A new id, a new entity, and everything named introduced before. */
  ghost predicate Admissible(log: seq<Operation>, o: Operation) {
    && !Said(log, WithId(o.id))
    && (o.EntityCreated? ==> !Said(log, Introducing(Entity(o.entity))))
    && forall n :: n in NamedBy(o) ==> Said(log, Introducing(n))
  }

  ghost predicate AllAdmissible(log: seq<Operation>) {
    forall k :: 0 <= k < |log| ==> Admissible(log[..k], log[k])
  }

  lemma AllAdmissibleSnoc(log: seq<Operation>, o: Operation)
    ensures AllAdmissible(log + [o]) <==> AllAdmissible(log) && Admissible(log, o)
  {
    var all := log + [o];
    forall k | 0 <= k <= |log| ensures all[..k] == log[..k] {}
    assert log[..|log|] == log && all[|log|] == o;
    if AllAdmissible(all) {
      assert Admissible(all[..|log|], all[|log|]);
      forall k | 0 <= k < |log| ensures Admissible(log[..k], log[k]) { assert Admissible(all[..k], all[k]); }
    }
  }

  lemma ApplyAccepts(r: Registry, o: Operation)
    requires Inv(r)
    ensures Apply(r, o).Ok? <==> Admissible(r.operations, o) && EdgeStep(r.mergedInto, o).Ok?
  {
    assert o.id in r.operationIds <==> Said(r.operations, WithId(o.id));
    forall n ensures Holds(r, n) <==> Said(r.operations, Introducing(n)) {}
    NamesHeld(r, o);
  }

  lemma NamesHeld(r: Registry, o: Operation)
    ensures (forall n :: n in NamedBy(o) ==> Holds(r, n)) <==>
      match o
      case EntityCreated(_, _, _) => true
      case AliasAdded(_, _, e, _) => e in r.entities
      case MatchProposed(_, _, left, right) => left in r.entities && right in r.entities
      case EntitiesMerged(_, _, c, e, p) => c in r.entities && e in r.entities && (p.Some? ==> p.value in r.proposals)
      case EntitySplit(_, _, e) => e in r.entities
  {
    match o
    case AliasAdded(_, _, e, _) => assert Holds(r, Entity(e)) <==> e in r.entities;
    case MatchProposed(_, _, left, right) => assert Entity(left) in NamedBy(o) && Entity(right) in NamedBy(o);
    case EntitiesMerged(_, _, c, e, p) =>
      assert Entity(c) in NamedBy(o) && Entity(e) in NamedBy(o);
      if p.Some? { assert Proposal(p.value) in NamedBy(o); }
    case EntitySplit(_, _, e) => assert Entity(e) in NamedBy(o);
    case _ =>
  }

  /**
   A list of operations is accepted exactly when each is admissible after the ones before it, and the merges
   and splits alone are accepted in their order.
   */
  lemma {:induction false} AcceptedIff(log: seq<Operation>)
    ensures Run(Apply, EMPTY, log).Ok? <==> AllAdmissible(log) && EdgesAfter(log).Ok?
    decreases |log|
  {
    if log != [] {
      var init, o := log[..|log| - 1], log[|log| - 1];
      SplitLast(log);
      AcceptedIff(init);
      RunSnoc(Apply, EMPTY, init, o);
      AllAdmissibleSnoc(init, o);
      EdgesSnoc(init, o);
      if Run(Apply, EMPTY, init).Ok? {
        RunIsLogged(init);
        ApplyAccepts(Run(Apply, EMPTY, init).value, o);
      }
    }
  }

  lemma AdmissibleDistinct(log: seq<Operation>)
    requires AllAdmissible(log)
    ensures DistinctIds(log)
  {
    forall i, j | 0 <= i < j < |log| ensures log[i].id != log[j].id {
      assert Admissible(log[..j], log[j]);
      assert log[..j][i] == log[i];
      assert WithId(log[i].id)(log[i]);
    }
  }

  /** Nothing is introduced twice. */
  lemma NotIntroducedAgain(log: seq<Operation>, i: nat, j: nat)
    requires AllAdmissible(log) && i < j < |log| && Introduced(log[i]).Some?
    ensures Introduced(log[i]) != Introduced(log[j])
  {
    AdmissibleDistinct(log);
    assert Admissible(log[..j], log[j]) && log[..j][i] == log[i];
    assert Introducing(Introduced(log[i]).value)(log[i]);
  }

  lemma IntroducedOnce(log: seq<Operation>, x: Operation, y: Operation)
    requires AllAdmissible(log) && x in log && y in log
    requires Introduced(x).Some? && Introduced(x) == Introduced(y)
    ensures x == y
  {
    var i :| 0 <= i < |log| && log[i] == x;
    var j :| 0 <= j < |log| && log[j] == y;
    if i < j { NotIntroducedAgain(log, i, j); }
    if j < i { NotIntroducedAgain(log, j, i); }
  }

  lemma EarlierByTime(s: seq<Operation>, k: nat, x: Operation)
    requires SortedBy(s, ByTime) && k < |s| && x in s[..k]
    ensures x in s && ByTime(x, s[k])
  {
    var i :| 0 <= i < k && s[..k][i] == x;
    assert s[i] == x;
  }

  lemma ByTimeEarlier(s: seq<Operation>, k: nat, x: Operation)
    requires SortedBy(s, ByTime) && DistinctIds(s) && k < |s| && x in s && x != s[k] && ByTime(x, s[k])
    ensures x in s[..k]
  {
    var i :| 0 <= i < |s| && s[i] == x;
    assert k < i ==> ByTime(s[k], s[i]);
    assert s[..k][i] == x;
  }

  lemma NamedIsIntroduced(log: seq<Operation>, o: Operation, n: Name) returns (x: Operation)
    requires AllAdmissible(log) && o in log && n in NamedBy(o)
    ensures x in log && Introduced(x) == Some(n)
  {
    var k :| 0 <= k < |log| && log[k] == o;
    assert Admissible(log[..k], log[k]);
    x :| x in log[..k] && Introducing(n)(x);
  }

  // ----- when a replay of an accepted log is accepted -----

  predicate Names(o: Operation, x: Operation) {
    Introduced(x).Some? && Introduced(x).value in NamedBy(o)
  }

  /** Every operation up to the instant comes after what it names in (time, id) order. */
  ghost predicate RefsPrecede(log: seq<Operation>, limit: Option<int>) {
    forall o, x :: o in log && x in log && Until(limit)(o) && Names(o, x) ==> ByTime(x, o)
  }

  function Ordered(log: seq<Operation>, limit: Option<int>): seq<Operation> {
    SortBy(Filter(log, Until(limit)), ByTime)
  }

  lemma OrderedFacts(log: seq<Operation>, limit: Option<int>)
    requires DistinctIds(log)
    ensures SortedBy(Ordered(log, limit), ByTime) && DistinctIds(Ordered(log, limit))
    ensures forall o :: o in Ordered(log, limit) <==> o in log && Until(limit)(o)
  {
    var kept := Filter(log, Until(limit));
    OperationsOrdered(log);
    SortSorts(kept, ByTime);
    SortElements(kept, ByTime);
    FilterElements(log, Until(limit));
    FilterDistinct(log, Until(limit));
    SortPermutes(kept, ByTime);
    MultisetDistinct(kept, Ordered(log, limit));
    ElementsDistinct(log, Ordered(log, limit));
  }

  lemma ElementsDistinct(log: seq<Operation>, s: seq<Operation>)
    requires DistinctIds(log) && Distinct(s) && forall o :: o in s ==> o in log
    ensures DistinctIds(s)
  {
    forall i, j | 0 <= i < j < |s| ensures s[i].id != s[j].id {
      assert s[i] in log && s[j] in log;
    }
  }

  lemma RefsFromAdmissible(log: seq<Operation>, limit: Option<int>, o: Operation, x: Operation)
    requires AllAdmissible(log) && AllAdmissible(Ordered(log, limit))
    requires o in log && x in log && Until(limit)(o) && Names(o, x)
    ensures ByTime(x, o)
  {
    var s := Ordered(log, limit);
    AdmissibleDistinct(log);
    OrderedFacts(log, limit);
    var k :| 0 <= k < |s| && s[k] == o;
    assert Admissible(s[..k], s[k]);
    var y :| y in s[..k] && Introducing(Introduced(x).value)(y);
    EarlierByTime(s, k, y);
    IntroducedOnce(log, x, y);
  }

  lemma NamesAnother(o: Operation, n: Name)
    requires n in NamedBy(o)
    ensures Introduced(o) != Some(n)
  {
  }

  lemma NamedBefore(log: seq<Operation>, limit: Option<int>, k: nat, n: Name)
    requires AllAdmissible(log) && RefsPrecede(log, limit)
    requires k < |Ordered(log, limit)| && n in NamedBy(Ordered(log, limit)[k])
    ensures Said(Ordered(log, limit)[..k], Introducing(n))
  {
    var s := Ordered(log, limit);
    AdmissibleDistinct(log);
    OrderedFacts(log, limit);
    var o := s[k];
    assert o in s;
    var x := NamedIsIntroduced(log, o, n);
    assert Names(o, x) && ByTime(x, o);
    NamesAnother(o, n);
    ByTimeEarlier(s, k, x);
    assert Introducing(n)(x);
  }

  lemma FreshInOrder(log: seq<Operation>, limit: Option<int>, k: nat)
    requires AllAdmissible(log) && k < |Ordered(log, limit)|
    ensures var s := Ordered(log, limit);
      && !Said(s[..k], WithId(s[k].id))
      && (s[k].EntityCreated? ==> !Said(s[..k], Introducing(Entity(s[k].entity))))
  {
    var s := Ordered(log, limit);
    AdmissibleDistinct(log);
    OrderedFacts(log, limit);
    assert s[k] in s;
    forall y | y in s[..k] ensures y.id != s[k].id && (s[k].EntityCreated? ==> Introduced(y) != Introduced(s[k])) {
      EarlierByTime(s, k, y);
      var i :| 0 <= i < k && s[..k][i] == y;
      assert s[i] == y;
      if Introduced(y) == Introduced(s[k]) && s[k].EntityCreated? { IntroducedOnce(log, s[k], y); }
    }
  }

  lemma AdmissibleInOrder(log: seq<Operation>, limit: Option<int>)
    requires AllAdmissible(log)
    ensures AllAdmissible(Ordered(log, limit)) <==> RefsPrecede(log, limit)
  {
    var s := Ordered(log, limit);
    if AllAdmissible(s) {
      forall o, x | o in log && x in log && Until(limit)(o) && Names(o, x) ensures ByTime(x, o) {
        RefsFromAdmissible(log, limit, o, x);
      }
    }
    if RefsPrecede(log, limit) {
      forall k | 0 <= k < |s| ensures Admissible(s[..k], s[k]) {
        FreshInOrder(log, limit, k);
        forall n | n in NamedBy(s[k]) ensures Said(s[..k], Introducing(n)) { NamedBefore(log, limit, k, n); }
      }
    }
  }

  /**
   Replaying an accepted log up to an instant is accepted exactly when every operation comes after what it
   names in (time, id) order, and the merges and splits alone are accepted in that order.
   */
  lemma ReplayAccepts(log: seq<Operation>, limit: Option<int>)
    requires Run(Apply, EMPTY, log).Ok?
    ensures ReplayFrom(log, limit).Ok? <==> RefsPrecede(log, limit) && EdgesAfter(Ordered(log, limit)).Ok?
  {
    AcceptedIff(log);
    AcceptedIff(Ordered(log, limit));
    AdmissibleInOrder(log, limit);
  }

  // ----- when it rebuilds the registry -----

  /**
   The two registries answer every call alike: `history` and `mergeHistory` sort what they return, and the
   owners of an alias are a set.
   */
  ghost predicate SameRegistry(r: Registry, s: Registry) {
    && r.entities == s.entities && r.proposals == s.proposals && r.confirmed == s.confirmed
    && r.operationIds == s.operationIds && r.mergedInto == s.mergedInto
    && (forall a, e :: e in OwnersOf(r, a) <==> e in OwnersOf(s, a))
    && (forall e :: SortBy(HistoryOf(r, e), ByTime) == SortBy(HistoryOf(s, e), ByTime))
    && SortBy(r.operations, ByTime) == SortBy(s.operations, ByTime)
  }

  lemma SaidAlike(a: seq<Operation>, b: seq<Operation>, p: Operation -> bool)
    requires multiset(a) == multiset(b)
    ensures Said(a, p) <==> Said(b, p)
  {
    SameElements(a, b);
  }

  lemma SameSorted(a: seq<Operation>, b: seq<Operation>, p: Operation -> bool)
    requires DistinctIds(a) && multiset(a) == multiset(b)
    ensures SortBy(Filter(a, p), ByTime) == SortBy(Filter(b, p), ByTime)
  {
    OperationsOrdered(a);
    forall o ensures multiset(Filter(a, p))[o] == multiset(Filter(b, p))[o] {
      FilterMultiset(a, p, o);
      FilterMultiset(b, p, o);
    }
    forall o | o in Filter(a, p) ensures o in a { FilterMember(a, p, o); }
    SortForgetsOrder(Filter(a, p), Filter(b, p), ByTime);
  }

  lemma SameSets(r: Registry, s: Registry)
    requires Inv(r) && Inv(s) && multiset(r.operations) == multiset(s.operations)
    ensures r.entities == s.entities && r.proposals == s.proposals
    ensures r.confirmed == s.confirmed && r.operationIds == s.operationIds
  {
    forall e ensures e in r.entities <==> e in s.entities {
      SaidAlike(r.operations, s.operations, Introducing(Entity(e)));
      assert Holds(r, Entity(e)) <==> Holds(s, Entity(e));
    }
    forall p ensures p in r.proposals <==> p in s.proposals {
      SaidAlike(r.operations, s.operations, Introducing(Proposal(p)));
      assert Holds(r, Proposal(p)) <==> Holds(s, Proposal(p));
    }
    forall p ensures p in r.confirmed <==> p in s.confirmed { SaidAlike(r.operations, s.operations, Confirming(p)); }
    forall id ensures id in r.operationIds <==> id in s.operationIds { SaidAlike(r.operations, s.operations, WithId(id)); }
  }

  /** Two registries with the same operations differ at most in their merge edges. */
  lemma SameIffEdges(r: Registry, s: Registry)
    requires Inv(r) && Inv(s) && multiset(r.operations) == multiset(s.operations) && DistinctIds(r.operations)
    ensures SameRegistry(r, s) <==> r.mergedInto == s.mergedInto
  {
    SameSets(r, s);
    forall a, e ensures e in OwnersOf(r, a) <==> e in OwnersOf(s, a) {
      SaidAlike(r.operations, s.operations, Owning(a, e));
    }
    forall e ensures SortBy(HistoryOf(r, e), ByTime) == SortBy(HistoryOf(s, e), ByTime) {
      assert HistoryExplains(r, e) && HistoryExplains(s, e);
      SameSorted(r.operations, s.operations, Touches(e));
    }
    OperationsOrdered(r.operations);
    SortForgetsOrder(r.operations, s.operations, ByTime);
  }

  lemma AllOrdered(log: seq<Operation>)
    ensures Ordered(log, None) == SortBy(log, ByTime) && multiset(Ordered(log, None)) == multiset(log)
  {
    FilterAll(log, Until(None));
    SortPermutes(log, ByTime);
  }

  /**
   Replaying its history rebuilds the registry exactly when every operation comes after what it names in
   (time, id) order, and the merges and splits alone make the same edges in that order as in the order applied.
   */
  lemma ReplayRebuilds(log: seq<Operation>)
    requires Run(Apply, EMPTY, log).Ok?
    ensures var r := ReplayFrom(log, None);
      r.Ok? && SameRegistry(r.value, Run(Apply, EMPTY, log).value) <==>
      RefsPrecede(log, None) && EdgesAfter(SortBy(log, ByTime)) == EdgesAfter(log)
  {
    ReplayAccepts(log, None);
    AllOrdered(log);
    AcceptedIff(log);
    AdmissibleDistinct(log);
    RunIsLogged(log);
    if ReplayFrom(log, None).Ok? {
      RunIsLogged(SortBy(log, ByTime));
      SameIffEdges(Run(Apply, EMPTY, log).value, ReplayFrom(log, None).value);
      SameIsSymmetric(Run(Apply, EMPTY, log).value, ReplayFrom(log, None).value);
    }
  }

  lemma SameIsSymmetric(r: Registry, s: Registry)
    ensures SameRegistry(r, s) <==> SameRegistry(s, r)
  {
  }

  /** The entity that the last merge or split of `e` in the list leaves it merged into. */
  function LastEdge(log: seq<Operation>, e: int): Option<int> {
    var h := Filter(log, Touches(e));
    if h != [] && h[|h| - 1].EntitiesMerged? then Some(h[|h| - 1].canonical) else None
  }

  lemma EdgesAreLast(r: Registry, e: int)
    requires Inv(r)
    ensures LastEdge(r.operations, e) == if e in r.mergedInto then Some(r.mergedInto[e]) else None
  {
    assert HistoryExplains(r, e);
  }

  /**
   The same on the log alone: every operation comes after what it names in (time, id) order, the merges and
   splits are accepted in it, and the last one of each entity in it leaves the entity where the last one
   applied left it.
   */
  lemma ReplayRebuildsByLast(log: seq<Operation>)
    requires Run(Apply, EMPTY, log).Ok?
    ensures var r, sorted := ReplayFrom(log, None), SortBy(log, ByTime);
      r.Ok? && SameRegistry(r.value, Run(Apply, EMPTY, log).value) <==>
      RefsPrecede(log, None) && EdgesAfter(sorted).Ok? && forall e :: LastEdge(sorted, e) == LastEdge(log, e)
  {
    ReplayRebuilds(log);
    ReplayAccepts(log, None);
    AllOrdered(log);
    RunIsLogged(log);
    if ReplayFrom(log, None).Ok? {
      RunIsLogged(SortBy(log, ByTime));
      SameEdgesIffLast(ReplayFrom(log, None).value, Run(Apply, EMPTY, log).value);
    }
  }

  lemma SameEdgesIffLast(r: Registry, s: Registry)
    requires Inv(r) && Inv(s)
    ensures r.mergedInto == s.mergedInto <==> forall e :: LastEdge(r.operations, e) == LastEdge(s.operations, e)
  {
    forall e
      ensures LastEdge(r.operations, e) == if e in r.mergedInto then Some(r.mergedInto[e]) else None
      ensures LastEdge(s.operations, e) == if e in s.mergedInto then Some(s.mergedInto[e]) else None
    {
      EdgesAreLast(r, e);
      EdgesAreLast(s, e);
    }
    if forall e :: LastEdge(r.operations, e) == LastEdge(s.operations, e) {
      forall e ensures e in r.mergedInto <==> e in s.mergedInto {
        assert LastEdge(r.operations, e) == LastEdge(s.operations, e);
      }
      forall e | e in r.mergedInto ensures r.mergedInto[e] == s.mergedInto[e] {
        assert LastEdge(r.operations, e) == LastEdge(s.operations, e);
      }
    }
  }

  /** So when merges and splits were applied in time order, it rebuilds it exactly when nothing precedes what it names. */
  lemma ReplayRebuildsInOrder(log: seq<Operation>)
    requires Run(Apply, EMPTY, log).Ok? && SortedBy(Filter(log, IsEdge), ByTime)
    ensures var r := ReplayFrom(log, None);
      r.Ok? && SameRegistry(r.value, Run(Apply, EMPTY, log).value) <==> RefsPrecede(log, None)
  {
    ReplayRebuilds(log);
    AcceptedIff(log);
    AdmissibleDistinct(log);
    OperationsOrdered(log);
    SortFilter(log, IsEdge, ByTime);
    SortKeepsSorted(Filter(log, IsEdge), ByTime);
  }

  lemma SameAliases(r: Registry, s: Registry, alias: int)
    requires SameRegistry(r, s)
    ensures ResolveAlias(r, alias) == ResolveAlias(s, alias)
  {
    var a, b := ResolveAlias(r, alias), ResolveAlias(s, alias);
    SameIsSymmetric(r, s);
    forall x ensures x in a <==> x in b {
      if x in a { AliasAlike(r, s, alias, x); }
      if x in b { AliasAlike(s, r, alias, x); }
    }
    AliasListed(r, alias);
    AliasListed(s, alias);
    DistinctIsMultiset(a, b);
    SortedUnique(a, b, Ascending);
  }

  lemma AliasAlike(r: Registry, s: Registry, alias: int, x: int)
    requires SameRegistry(r, s) && x in ResolveAlias(r, alias)
    ensures x in ResolveAlias(s, alias)
  {
    AliasMembers(r, alias, x);
    AliasMembers(s, alias, x);
    var i :| 0 <= i < |OwnersOf(r, alias)| && Root(r.mergedInto, OwnersOf(r, alias)[i]) == x;
    assert OwnersOf(r, alias)[i] in OwnersOf(s, alias);
    var j :| 0 <= j < |OwnersOf(s, alias)| && OwnersOf(s, alias)[j] == OwnersOf(r, alias)[i];
  }

  /** Operations are applied in any order of time; a history with a back-dated one need not replay. */
  lemma BackdatedOperationBreaksReplay(created: Operation, added: Operation)
    requires created.EntityCreated? && added.AliasAdded? && added.entity == created.entity
    requires added.id != created.id && added.at < created.at
    ensures Run(Apply, EMPTY, [created, added]).Ok?
    ensures ReplayFrom([created, added], None) == Err(UnknownEntity(created.entity))
  {
    var log, swapped := [created, added], [added, created];
    assert log[1..] == [added] && [added][1..] == [];
    assert swapped[1..] == [created];
    var s := Apply(EMPTY, created).value;
    assert Apply(s, added).Ok?;
    assert Run(Apply, s, [added]) == Run(Apply, Apply(s, added).value, []);
    FilterAll(log, Until(None));
    assert SortBy([added], ByTime) == [added];
    assert SortBy(log, ByTime) == Insert(created, [added], ByTime) == [added] + Insert(created, [], ByTime) == swapped;
    assert Apply(EMPTY, added) == Err(UnknownEntity(created.entity));
  }

  // ----- the registry object -----

  class IdentityRegistry {
    var entities: set<int>
    var aliases: map<int, seq<int>>
    var proposals: set<int>
    var confirmedProposals: set<int>
    var mergedInto: map<int, int>
    var history: map<int, seq<Operation>>
    var operations: seq<Operation>
    var operationIds: set<int>

    ghost function State(): Registry
      reads this
    {
      Registry(entities, aliases, proposals, confirmedProposals, mergedInto, history, operations, operationIds)
    }

    constructor ()
      ensures State() == EMPTY && Inv(State())
    {
      entities, aliases, proposals, confirmedProposals := {}, map[], {}, {};
      mergedInto, history, operations, operationIds := map[], map[], [], {};
      new;
      EmptyInv();
    }

    /** The loop that climbs; it ends for any edges, and reports a cycle exactly when there is no root above. */
    method FindCanonical(entity: int) returns (r: Result<int, IdentityError>)
      ensures r == Canonical(mergedInto, entity)
      ensures match r
        case Ok(x) => x !in mergedInto && exists n: nat :: Climb(mergedInto, entity, n) == x
        case Err(error) => error == MergeCycle && forall n: nat :: Climb(mergedInto, entity, n) in mergedInto
    {
      CanonicalMeans(mergedInto, entity);
      var m := mergedInto;
      var visited: set<int> := {};
      var current := entity;
      ghost var climbed: seq<int> := [];
      while current in m
        invariant visited <= m.Keys && |visited| == |climbed|
        invariant current == Climb(m, entity, |climbed|)
        invariant forall i :: 0 <= i < |climbed| ==> climbed[i] == Climb(m, entity, i)
        invariant forall v :: v in visited ==> v in climbed
        decreases m.Keys - visited
      {
        if current in visited {
          ghost var i :| 0 <= i < |climbed| && climbed[i] == current;
          CycleNeverEnds(m, entity, i, |climbed|, |m|);
          return Err(MergeCycle);
        }
        ClimbAdd(m, entity, |climbed|, 1);
        visited := visited + {current};
        climbed := climbed + [current];
        current := m[current];
      }
      ClimbIsBounded(m, entity, |climbed|);
      return Ok(current);
    }

    method MergeEntities(o: Operation) returns (thrown: Option<IdentityError>)
      requires o.EntitiesMerged?
      modifies this
      ensures match ApplyMerge(old(State()), o)
        case Ok(s) => thrown == None && State() == s
        case Err(e) => thrown == Some(e) && State() == old(State())
    {
      if o.canonical !in entities { return Some(UnknownEntity(o.canonical)); }
      if o.merged !in entities { return Some(UnknownEntity(o.merged)); }
      var left := FindCanonical(o.canonical);
      if left.Err? { return Some(left.error); }
      var right := FindCanonical(o.merged);
      if right.Err? { return Some(right.error); }
      if left == right { return Some(AlreadyTogether); }
      if o.proposal.Some? {
        if o.proposal.value !in proposals { return Some(UnknownProposal(o.proposal.value)); }
        confirmedProposals := confirmedProposals + {o.proposal.value};
      }
      mergedInto := mergedInto[o.merged := o.canonical];
      AppendMergeHistory(o.merged, o);
      return None;
    }

    method AppendMergeHistory(entity: int, o: Operation)
      modifies this`history
      ensures history == old(history)[entity := (if entity in old(history) then old(history)[entity] else []) + [o]]
    {
      var entries := if entity in history then history[entity] else [];
      history := history[entity := entries + [o]];
    }

    method SplitEntity(o: Operation) returns (thrown: Option<IdentityError>)
      requires o.EntitySplit?
      modifies this
      ensures match ApplySplit(old(State()), o)
        case Ok(s) => thrown == None && State() == s
        case Err(e) => thrown == Some(e) && State() == old(State())
    {
      if o.entity !in entities { return Some(UnknownEntity(o.entity)); }
      if o.entity !in mergedInto { return Some(NotMerged(o.entity)); }
      mergedInto := Split(mergedInto, o.entity);
      AppendMergeHistory(o.entity, o);
      return None;
    }

    method ApplyKind(o: Operation) returns (thrown: Option<IdentityError>)
      modifies this
      ensures match ApplyEffect(old(State()), o)
        case Ok(s) => thrown == None && State() == s
        case Err(e) => thrown == Some(e) && State() == old(State())
    {
      thrown := None;
      match o {
        case EntityCreated(_, _, e) =>
          if e in entities { return Some(DuplicateEntity(e)); }
          entities := entities + {e};
        case AliasAdded(_, _, e, alias) =>
          if e !in entities { return Some(UnknownEntity(e)); }
          var owners := if alias in aliases then aliases[alias] else [];
          aliases := aliases[alias := WithOwner(owners, e)];
        case MatchProposed(id, _, left, right) =>
          if left !in entities { return Some(UnknownEntity(left)); }
          if right !in entities { return Some(UnknownEntity(right)); }
          proposals := proposals + {id};
        case EntitiesMerged(_, _, _, _, _) => thrown := MergeEntities(o);
        case EntitySplit(_, _, _) => thrown := SplitEntity(o);
      }
    }

    method ApplyOperation(o: Operation) returns (thrown: Option<IdentityError>)
      modifies this
      ensures match Apply(old(State()), o)
        case Ok(s) => thrown == None && State() == s
        case Err(e) => thrown == Some(e) && State() == old(State())
      ensures old(Inv(State())) ==> Inv(State()) && Answers(old(State()), State(), o, thrown)
    {
      ghost var before := State();
      if o.id in operationIds {
        thrown := Some(DuplicateOperation(o.id));
      } else {
        thrown := ApplyKind(o);
        if thrown.None? {
          operationIds := operationIds + {o.id};
          operations := operations + [o];
          if Inv(before) { ApplyKeepsInv(before, o); }
        }
      }
      if Inv(before) { ApplyAnswers(before, o); }
    }

    method FindAll(owners: seq<int>) returns (r: Result<seq<int>, IdentityError>)
      ensures r.Ok? ==> r.value == MapSeq(owners, Resolve(mergedInto))
      ensures r.Ok? <==> forall i :: 0 <= i < |owners| ==> Canonical(mergedInto, owners[i]).Ok?
    {
      var roots: seq<int> := [];
      for i := 0 to |owners|
        invariant forall j :: 0 <= j < i ==> Canonical(mergedInto, owners[j]).Ok?
        invariant roots == MapSeq(owners, Resolve(mergedInto))[..i]
      {
        var canonical := FindCanonical(owners[i]);
        if canonical.Err? { return Err(canonical.error); }
        roots := roots + [canonical.value];
      }
      assert roots == MapSeq(owners, Resolve(mergedInto));
      return Ok(roots);
    }

    method ListOwners(alias: int) returns (r: Result<seq<int>, IdentityError>)
      ensures Inv(State()) ==> r == Ok(ResolveAlias(State(), alias))
      ensures Inv(State()) ==>
        && r.Ok? && (forall i, j :: 0 <= i < j < |r.value| ==> r.value[i] < r.value[j])
        && forall x :: x in r.value <==>
             exists i :: 0 <= i < |OwnersOf(State(), alias)| && Root(mergedInto, OwnersOf(State(), alias)[i]) == x
    {
      AliasListed(State(), alias);
      forall x { AliasMembers(State(), alias, x); }
      var owners := if alias in aliases then aliases[alias] else [];
      var roots := FindAll(owners);
      if roots.Err? { return roots; }
      return Ok(SortBy(Unique(roots.value), Ascending));
    }

    method StatusOf(proposalId: int) returns (status: Option<MatchStatus>)
      ensures Inv(State()) ==> (status.None? <==> !Said(operations, Introducing(Proposal(proposalId))))
      ensures Inv(State()) ==> (status == Some(Confirmed) <==> Said(operations, Confirming(proposalId)))
    {
      assert Inv(State()) ==> (Holds(State(), Proposal(proposalId)) <==> proposalId in proposals);
      if proposalId !in proposals { return None; }
      return Some(if proposalId in confirmedProposals then Confirmed else Provisional);
    }

    /** Builds a registry from operations in any order; a rejected one ends the replay. */
    static method FromOperations(input: seq<Operation>, until: Option<int>)
      returns (registry: IdentityRegistry, thrown: Option<IdentityError>)
      ensures fresh(registry) && Inv(registry.State())
      ensures match ReplayFrom(input, until)
        case Ok(s) => thrown == None && registry.State() == s
        case Err(e) => thrown == Some(e)
    {
      registry := new IdentityRegistry();
      thrown := None;
      var ordered := SortBy(Filter(input, Until(until)), ByTime);
      assert ordered[0..] == ordered;
      for i := 0 to |ordered|
        invariant fresh(registry) && Inv(registry.State()) && thrown.None?
        invariant Run(Apply, EMPTY, ordered) == Run(Apply, registry.State(), ordered[i..])
      {
        assert ordered[i..][0] == ordered[i] && ordered[i..][1..] == ordered[i + 1..];
        thrown := registry.ApplyOperation(ordered[i]);
        if thrown.Some? { return; }
      }
    }
  }
}
