/**
 packages/permissions: capabilities, delegation and authorization. Lists that are sorted and free of
 duplicates once defined are sets here; workspaces, prefixes and resources are strings.
 */
module Permissions {
  import opened Wrappers
  import opened Collections
  import opened Sorting
  import opened Replay

  datatype Sensitivity = Public | Internal | Confidential | Restricted

  datatype Capability = Capability(
    id: int, workspace: string, principal: int, issuer: int, prefixes: set<string>, graphs: set<int>, entities: set<int>,
    operations: set<int>, purposes: set<int>, sensitivity: Sensitivity, conditions: map<int, int>,
    validFrom: int, expiresAt: int, canDelegate: bool, parent: Option<int>, depth: int, maxDepth: int)

  /** The input of `defineCapability`: the same, with the lists as they were given. */
  datatype Draft = Draft(
    id: int, workspace: string, principal: int, issuer: int, prefixes: seq<string>, graphs: seq<int>, entities: seq<int>,
    operations: seq<int>, purposes: seq<int>, sensitivity: Sensitivity, conditions: map<int, int>,
    validFrom: int, expiresAt: int, canDelegate: bool, parent: Option<int>, depth: int, maxDepth: int)

  datatype Request = Request(
    principal: int, resource: string, graph: int, entity: int, operation: int, purpose: int, sensitivity: Sensitivity,
    context: map<int, int>, workspace: string, contextPrincipal: int)

  datatype Failure =
    | Revoked | OutsideTime | WorkspaceOut | ContextMismatch | ResourceMismatch | OperationOut | PurposeOut
    | ResourceOut | GraphOut | EntityOut | SensitivityExceeds

  datatype Evaluation = Evaluation(capability: int, failures: seq<Failure>, failedConditions: set<int>)

  datatype PermissionError =
    | ExpiryNotAfterStart | NegativeDepth | DepthExceedsMaximum | RootDepth | DelegatedDepth | ListEmpty | ListDuplicates
    | ResourceOutsideWorkspace | DuplicateCapability | UnknownParent | CannotDelegate | IssuerNotParent | WorkspaceDiffers
    | ParentAtMaximum | DepthNotNext | MaximumRaised | TimeExceeds | OperationsExceed | PurposesExceed | GraphsExceed
    | EntitiesExceed | ResourcesExceed | SensitivityRaised | ConditionWeakened | NotNarrower

  function Rank(s: Sensitivity): nat {
    match s case Public => 0 case Internal => 1 case Confidential => 2 case Restricted => 3
  }

  /** `value === root || value.startsWith(root + "/")`. */
  predicate InBoundary(value: string, root: string) {
    value == root || root + "/" <= value
  }

  lemma BoundaryTransitive(a: string, b: string, c: string)
    requires InBoundary(a, b) && InBoundary(b, c)
    ensures InBoundary(a, c)
  {
    if a != b && b != c {
      assert b[..|c| + 1] == c + "/";
      assert a[..|b| + 1] == b + "/";
      assert a[..|c| + 1] == b[..|c| + 1];
    }
  }

  /** The same, letter by letter: the root itself, or the root followed by a slash. */
  ghost predicate Inside(value: string, root: string) {
    value == root || (|value| > |root| && value[|root|] == '/' && forall i :: 0 <= i < |root| ==> value[i] == root[i])
  }

  lemma BoundaryIsInside(value: string, root: string)
    ensures InBoundary(value, root) <==> Inside(value, root)
  {
    if root + "/" <= value {
      assert forall i :: 0 <= i <= |root| ==> value[i] == (root + "/")[i];
    }
    if value != root && Inside(value, root) { assert value[..|root| + 1] == root + "/"; }
  }

  /** What a bound on sensitivity admits. */
  function UpTo(s: Sensitivity): set<Sensitivity> {
    match s
    case Public => {Public}
    case Internal => {Public, Internal}
    case Confidential => {Public, Internal, Confidential}
    case Restricted => {Public, Internal, Confidential, Restricted}
  }

  lemma RankOrders(s: Sensitivity, t: Sensitivity)
    ensures Rank(s) <= Rank(t) <==> s in UpTo(t)
  {
  }

  // ----- defining -----

  predicate NoRepeats<T(==)>(s: seq<T>) {
    forall i, j :: 0 <= i < j < |s| ==> s[i] != s[j]
  }

  predicate AllInside(prefixes: seq<string>, workspace: string) {
    forall i :: 0 <= i < |prefixes| ==> InBoundary(prefixes[i], workspace)
  }

  function SetOf<T>(s: seq<T>): set<T> {
    set x | x in s
  }

  function Define(d: Draft): Result<Capability, PermissionError> {
    if d.expiresAt <= d.validFrom then Err(ExpiryNotAfterStart)
    else if d.depth < 0 || d.maxDepth < 0 then Err(NegativeDepth)
    else if d.depth > d.maxDepth then Err(DepthExceedsMaximum)
    else if d.parent.None? && d.depth != 0 then Err(RootDepth)
    else if d.parent.Some? && d.depth == 0 then Err(DelegatedDepth)
    else if !NoRepeats(d.prefixes) then Err(ListDuplicates)
    else if d.prefixes == [] then Err(ListEmpty)
    else if !AllInside(d.prefixes, d.workspace) then Err(ResourceOutsideWorkspace)
    else if !NoRepeats(d.graphs) || !NoRepeats(d.entities) then Err(ListDuplicates)
    else if !NoRepeats(d.operations) then Err(ListDuplicates)
    else if d.operations == [] then Err(ListEmpty)
    else if !NoRepeats(d.purposes) then Err(ListDuplicates)
    else if d.purposes == [] then Err(ListEmpty)
    else Ok(Capability(d.id, d.workspace, d.principal, d.issuer, SetOf(d.prefixes), SetOf(d.graphs), SetOf(d.entities),
                       SetOf(d.operations), SetOf(d.purposes), d.sensitivity, d.conditions,
                       d.validFrom, d.expiresAt, d.canDelegate, d.parent, d.depth, d.maxDepth))
  }

  /** What `defineCapability` guarantees of every capability it returns. */
  ghost predicate Defined(c: Capability) {
    && c.validFrom < c.expiresAt && 0 <= c.depth <= c.maxDepth && (c.parent.None? <==> c.depth == 0)
    && c.prefixes != {} && c.operations != {} && c.purposes != {}
    && forall p :: p in c.prefixes ==> Inside(p, c.workspace)
  }

  ghost predicate NoneTwice<T>(list: seq<T>) {
    forall i, j :: 0 <= i < j < |list| ==> list[i] != list[j]
  }

  /** What a draft has to meet. */
  ghost predicate Definable(d: Draft) {
    && d.validFrom < d.expiresAt && 0 <= d.depth <= d.maxDepth && (d.parent.Some? <==> d.depth > 0)
    && NoneTwice(d.prefixes) && NoneTwice(d.graphs) && NoneTwice(d.entities) && NoneTwice(d.operations) && NoneTwice(d.purposes)
    && d.prefixes != [] && d.operations != [] && d.purposes != [] && forall p :: p in d.prefixes ==> Inside(p, d.workspace)
  }

  /** The capability says what its draft says, its lists as sets. */
  ghost predicate Defines(d: Draft, c: Capability) {
    && c.id == d.id && c.workspace == d.workspace && c.principal == d.principal && c.issuer == d.issuer
    && (forall x :: x in c.prefixes <==> x in d.prefixes) && (forall x :: x in c.graphs <==> x in d.graphs)
    && (forall x :: x in c.entities <==> x in d.entities) && (forall x :: x in c.operations <==> x in d.operations)
    && (forall x :: x in c.purposes <==> x in d.purposes)
    && c.sensitivity == d.sensitivity && c.conditions == d.conditions && c.validFrom == d.validFrom && c.expiresAt == d.expiresAt
    && c.canDelegate == d.canDelegate && c.parent == d.parent && c.depth == d.depth && c.maxDepth == d.maxDepth
  }

  /** What the error of a refused draft says is so. */
  ghost predicate Undefinable(d: Draft, e: PermissionError) {
    match e
    case ExpiryNotAfterStart => d.expiresAt <= d.validFrom
    case NegativeDepth => d.depth < 0 || d.maxDepth < 0
    case DepthExceedsMaximum => d.depth > d.maxDepth
    case RootDepth => d.parent == None && d.depth != 0
    case DelegatedDepth => d.parent.Some? && d.depth == 0
    case ListDuplicates =>
      !NoneTwice(d.prefixes) || !NoneTwice(d.graphs) || !NoneTwice(d.entities) || !NoneTwice(d.operations) || !NoneTwice(d.purposes)
    case ListEmpty => d.prefixes == [] || d.operations == [] || d.purposes == []
    case ResourceOutsideWorkspace => exists p :: p in d.prefixes && !Inside(p, d.workspace)
    case _ => false
  }

  lemma AllInsideIff(prefixes: seq<string>, workspace: string)
    ensures AllInside(prefixes, workspace) <==> forall p :: p in prefixes ==> Inside(p, workspace)
  {
    forall p { BoundaryIsInside(p, workspace); }
    if AllInside(prefixes, workspace) {
      forall p | p in prefixes ensures Inside(p, workspace) {
        var i :| 0 <= i < |prefixes| && prefixes[i] == p;
        BoundaryIsInside(p, workspace);
      }
    } else {
      var i :| 0 <= i < |prefixes| && !InBoundary(prefixes[i], workspace);
      BoundaryIsInside(prefixes[i], workspace);
      assert prefixes[i] in prefixes;
    }
  }

  /** A draft is accepted if and only if it meets all of that; then the capability is what the draft says. */
  lemma DefineMeans(d: Draft)
    ensures Define(d).Ok? <==> Definable(d)
    ensures match Define(d) case Ok(c) => Defines(d, c) case Err(e) => Undefinable(d, e)
  {
    AllInsideIff(d.prefixes, d.workspace);
  }

  lemma DefinedByDefine(d: Draft)
    requires Define(d).Ok?
    ensures Defined(Define(d).value)
  {
    AllInsideIff(d.prefixes, d.workspace);
    assert d.prefixes[0] in SetOf(d.prefixes) && d.operations[0] in SetOf(d.operations) && d.purposes[0] in SetOf(d.purposes);
  }

  // ----- evaluating -----

  predicate Covers(prefixes: set<string>, value: string) {
    exists p :: p in prefixes && InBoundary(value, p)
  }

  predicate Meets(context: map<int, int>, name: int, value: int) {
    name in context && context[name] == value
  }

  /** The failures of a list of checks, in its order. */
  function Failed(checks: seq<(bool, Failure)>): seq<Failure> {
    if checks == [] then [] else (if checks[0].0 then [checks[0].1] else []) + Failed(checks[1..])
  }

  function Checks(c: Capability, r: Request, at: int, revokedAt: Option<int>): seq<(bool, Failure)> {
    [(revokedAt.Some? && at >= revokedAt.value, Revoked),
     (at < c.validFrom || at >= c.expiresAt, OutsideTime),
     (c.workspace != r.workspace, WorkspaceOut),
     (r.contextPrincipal != r.principal, ContextMismatch),
     (!InBoundary(r.resource, r.workspace), ResourceMismatch),
     (r.operation !in c.operations, OperationOut),
     (r.purpose !in c.purposes, PurposeOut),
     (!Covers(c.prefixes, r.resource), ResourceOut),
     (c.graphs != {} && r.graph !in c.graphs, GraphOut),
     (c.entities != {} && r.entity !in c.entities, EntityOut),
     (Rank(r.sensitivity) > Rank(c.sensitivity), SensitivityExceeds)]
  }

  function Evaluate(c: Capability, r: Request, at: int, revokedAt: Option<int>): Evaluation {
    Evaluation(c.id, Failed(Checks(c, r, at, revokedAt)),
      set name | name in c.conditions && !Meets(r.context, name, c.conditions[name]))
  }

  predicate Passed(e: Evaluation) {
    e.failures == [] && e.failedConditions == {}
  }

  predicate Allows(scope: set<int>, x: int) {
    scope == {} || x in scope
  }

  /** The capability as it is grants the request at the instant. */
  ghost predicate Grants(c: Capability, r: Request, at: int) {
    && c.validFrom <= at < c.expiresAt
    && c.workspace == r.workspace && r.contextPrincipal == r.principal && Inside(r.resource, r.workspace)
    && r.operation in c.operations && r.purpose in c.purposes && (exists p :: p in c.prefixes && Inside(r.resource, p))
    && (c.graphs == {} || r.graph in c.graphs) && (c.entities == {} || r.entity in c.entities)
    && r.sensitivity in UpTo(c.sensitivity)
    && forall name :: name in c.conditions ==> name in r.context && r.context[name] == c.conditions[name]
  }

  /** When an evaluation lists a failure. */
  ghost predicate FailsFor(c: Capability, r: Request, at: int, revokedAt: Option<int>, f: Failure) {
    match f
    case Revoked => revokedAt.Some? && at >= revokedAt.value
    case OutsideTime => !(c.validFrom <= at < c.expiresAt)
    case WorkspaceOut => c.workspace != r.workspace
    case ContextMismatch => r.contextPrincipal != r.principal
    case ResourceMismatch => !Inside(r.resource, r.workspace)
    case OperationOut => r.operation !in c.operations
    case PurposeOut => r.purpose !in c.purposes
    case ResourceOut => forall p :: p in c.prefixes ==> !Inside(r.resource, p)
    case GraphOut => c.graphs != {} && r.graph !in c.graphs
    case EntityOut => c.entities != {} && r.entity !in c.entities
    case SensitivityExceeds => r.sensitivity !in UpTo(c.sensitivity)
  }

  lemma CoversIff(prefixes: set<string>, value: string)
    ensures Covers(prefixes, value) <==> exists p :: p in prefixes && Inside(value, p)
  {
    forall p ensures InBoundary(value, p) <==> Inside(value, p) { BoundaryIsInside(value, p); }
  }

  /** It lists exactly the failures that there are, and the conditions that the context does not meet. */
  ghost predicate Evaluates(c: Capability, r: Request, at: int, revokedAt: Option<int>, e: Evaluation) {
    && e.capability == c.id && (forall f :: f in e.failures <==> FailsFor(c, r, at, revokedAt, f))
    && forall name :: name in e.failedConditions <==> name in c.conditions && (name in r.context ==> r.context[name] != c.conditions[name])
  }

  lemma {:induction false} FailedIff(checks: seq<(bool, Failure)>, f: Failure)
    ensures f in Failed(checks) <==> (true, f) in checks
    decreases |checks|
  {
    if checks != [] { FailedIff(checks[1..], f); }
  }

  lemma FailureMeans(c: Capability, r: Request, at: int, revokedAt: Option<int>, f: Failure)
    ensures f in Evaluate(c, r, at, revokedAt).failures <==> FailsFor(c, r, at, revokedAt, f)
  {
    FailedIff(Checks(c, r, at, revokedAt), f);
    BoundaryIsInside(r.resource, r.workspace);
    CoversIff(c.prefixes, r.resource);
    RankOrders(r.sensitivity, c.sensitivity);
  }

  lemma EvaluationMeans(c: Capability, r: Request, at: int, revokedAt: Option<int>)
    ensures Evaluates(c, r, at, revokedAt, Evaluate(c, r, at, revokedAt))
  {
    forall f { FailureMeans(c, r, at, revokedAt, f); }
  }

  lemma HasMember(failures: seq<Failure>)
    ensures failures == [] || exists f :: f in failures
  {
    if failures != [] { assert failures[0] in failures; }
  }

  /** It passes if and only if it is granted and not revoked by then. */
  lemma PassedMeansGranted(c: Capability, r: Request, at: int, revokedAt: Option<int>)
    ensures Passed(Evaluate(c, r, at, revokedAt)) <==> Grants(c, r, at) && (revokedAt.Some? ==> at < revokedAt.value)
  {
    var e := Evaluate(c, r, at, revokedAt);
    forall f { FailureMeans(c, r, at, revokedAt, f); }
    if e.failures == [] && e.failedConditions == {} {
      assert !FailsFor(c, r, at, revokedAt, Revoked) && !FailsFor(c, r, at, revokedAt, OutsideTime);
      assert !FailsFor(c, r, at, revokedAt, WorkspaceOut) && !FailsFor(c, r, at, revokedAt, ContextMismatch);
      assert !FailsFor(c, r, at, revokedAt, ResourceMismatch) && !FailsFor(c, r, at, revokedAt, OperationOut);
      assert !FailsFor(c, r, at, revokedAt, PurposeOut) && !FailsFor(c, r, at, revokedAt, ResourceOut);
      assert !FailsFor(c, r, at, revokedAt, GraphOut) && !FailsFor(c, r, at, revokedAt, EntityOut);
      assert !FailsFor(c, r, at, revokedAt, SensitivityExceeds);
      forall name | name in c.conditions ensures name in r.context && r.context[name] == c.conditions[name] {
        assert name !in e.failedConditions;
      }
    }
    if Grants(c, r, at) && (revokedAt.Some? ==> at < revokedAt.value) {
      HasMember(e.failures);
    }
  }

  // ----- delegating -----

  predicate Within(child: set<int>, parent: set<int>) {
    parent == {} || (child != {} && child <= parent)
  }

  predicate PrefixesWithin(child: set<string>, parent: set<string>) {
    forall p {:trigger Covers(parent, p)} :: p in child ==> Covers(parent, p)
  }

  predicate ConditionsKept(child: map<int, int>, parent: map<int, int>) {
    forall name :: name in parent ==> Meets(child, name, parent[name])
  }

  predicate StrictlyNarrows(child: Capability, parent: Capability) {
    || child.validFrom > parent.validFrom || child.expiresAt < parent.expiresAt
    || Rank(child.sensitivity) < Rank(parent.sensitivity)
    || child.operations != parent.operations || child.purposes != parent.purposes || child.prefixes != parent.prefixes
    || child.graphs != parent.graphs || child.entities != parent.entities
    || |child.conditions| > |parent.conditions|
  }

  /** The checks against the parent, in order. */
  function DelegationProblem(child: Capability, parent: Capability): Option<PermissionError> {
    if !parent.canDelegate then Some(CannotDelegate)
    else if child.issuer != parent.principal then Some(IssuerNotParent)
    else if child.workspace != parent.workspace then Some(WorkspaceDiffers)
    else if parent.depth >= parent.maxDepth then Some(ParentAtMaximum)
    else if child.depth != parent.depth + 1 then Some(DepthNotNext)
    else if child.maxDepth > parent.maxDepth then Some(MaximumRaised)
    else if child.validFrom < parent.validFrom || child.expiresAt > parent.expiresAt then Some(TimeExceeds)
    else if !(child.operations <= parent.operations) then Some(OperationsExceed)
    else if !(child.purposes <= parent.purposes) then Some(PurposesExceed)
    else if !Within(child.graphs, parent.graphs) then Some(GraphsExceed)
    else if !Within(child.entities, parent.entities) then Some(EntitiesExceed)
    else if !PrefixesWithin(child.prefixes, parent.prefixes) then Some(ResourcesExceed)
    else if Rank(child.sensitivity) > Rank(parent.sensitivity) then Some(SensitivityRaised)
    else if !ConditionsKept(child.conditions, parent.conditions) then Some(ConditionWeakened)
    else if !StrictlyNarrows(child, parent) then Some(NotNarrower)
    else None
  }

  ghost predicate ScopeKept(child: set<int>, parent: set<int>) {
    parent != {} ==> child != {} && forall x :: x in child ==> x in parent
  }

  /** The child widens nothing of the parent and is not the same in every respect. */
  ghost predicate Attenuates(child: Capability, parent: Capability) {
    && parent.canDelegate && child.issuer == parent.principal && child.workspace == parent.workspace
    && parent.depth < parent.maxDepth && child.depth == parent.depth + 1 && child.maxDepth <= parent.maxDepth
    && parent.validFrom <= child.validFrom && child.expiresAt <= parent.expiresAt
    && (forall o :: o in child.operations ==> o in parent.operations) && (forall p :: p in child.purposes ==> p in parent.purposes)
    && ScopeKept(child.graphs, parent.graphs) && ScopeKept(child.entities, parent.entities)
    && (forall p {:trigger p in child.prefixes} :: p in child.prefixes ==> exists q :: q in parent.prefixes && Inside(p, q))
    && child.sensitivity in UpTo(parent.sensitivity)
    && (forall name :: name in parent.conditions ==> name in child.conditions && child.conditions[name] == parent.conditions[name])
    && !SameGrant(child, parent)
  }

  ghost predicate SameGrant(child: Capability, parent: Capability) {
    && child.validFrom == parent.validFrom && child.expiresAt == parent.expiresAt && child.sensitivity == parent.sensitivity
    && child.operations == parent.operations && child.purposes == parent.purposes && child.prefixes == parent.prefixes
    && child.graphs == parent.graphs && child.entities == parent.entities && child.conditions == parent.conditions
  }

  /** What the error of a refused delegation says is so. */
  ghost predicate Exceeds(child: Capability, parent: Capability, e: PermissionError) {
    match e
    case CannotDelegate => !parent.canDelegate
    case IssuerNotParent => child.issuer != parent.principal
    case WorkspaceDiffers => child.workspace != parent.workspace
    case ParentAtMaximum => parent.depth >= parent.maxDepth
    case DepthNotNext => child.depth != parent.depth + 1
    case MaximumRaised => child.maxDepth > parent.maxDepth
    case TimeExceeds => child.validFrom < parent.validFrom || child.expiresAt > parent.expiresAt
    case OperationsExceed => exists o :: o in child.operations && o !in parent.operations
    case PurposesExceed => exists p :: p in child.purposes && p !in parent.purposes
    case GraphsExceed => !ScopeKept(child.graphs, parent.graphs)
    case EntitiesExceed => !ScopeKept(child.entities, parent.entities)
    case ResourcesExceed => exists p {:trigger p in child.prefixes} :: p in child.prefixes && forall q :: q in parent.prefixes ==> !Inside(p, q)
    case SensitivityRaised => child.sensitivity !in UpTo(parent.sensitivity)
    case ConditionWeakened =>
      exists name :: name in parent.conditions && (name in child.conditions ==> child.conditions[name] != parent.conditions[name])
    case NotNarrower => SameGrant(child, parent)
    case _ => false
  }

  lemma PrefixesWithinIff(child: set<string>, parent: set<string>)
    ensures PrefixesWithin(child, parent) <==>
      forall p {:trigger p in child} :: p in child ==> exists q :: q in parent && Inside(p, q)
  {
    forall p ensures Covers(parent, p) <==> exists q :: q in parent && Inside(p, q) { CoversIff(parent, p); }
    if PrefixesWithin(child, parent) {
      forall p | p in child ensures exists q :: q in parent && Inside(p, q) { assert Covers(parent, p); }
    }
  }

  lemma NotSubset(a: set<int>, b: set<int>)
    ensures a <= b <==> forall x :: x in a ==> x in b
    ensures a <= b || exists x :: x in a && x !in b
  {
    if forall x :: x in a ==> x in b {
      forall x | x in a ensures x in b {}
      assert a <= b;
    }
  }

  lemma ScopeKeptIff(child: set<int>, parent: set<int>)
    ensures Within(child, parent) <==> ScopeKept(child, parent)
  {
    NotSubset(child, parent);
  }

  lemma MoreConditions(child: map<int, int>, parent: map<int, int>)
    requires ConditionsKept(child, parent)
    ensures |child| > |parent| <==> child != parent
  {
    assert parent.Keys <= child.Keys by {
      forall name | name in parent ensures name in child { assert Meets(child, name, parent[name]); }
    }
    assert |child| == |child.Keys| && |parent| == |parent.Keys|;
    SubsetCardinality(parent.Keys, child.Keys);
    if child != parent {
      if child.Keys == parent.Keys {
        forall name | name in parent ensures child[name] == parent[name] { assert Meets(child, name, parent[name]); }
      } else {
        NotSubset(child.Keys, parent.Keys);
        var name :| name in child.Keys && name !in parent.Keys;
        SubsetCardinality(parent.Keys + {name}, child.Keys);
      }
    }
  }

  lemma DelegationMeans(child: Capability, parent: Capability)
    ensures DelegationProblem(child, parent).None? <==> Attenuates(child, parent)
  {
    PrefixesWithinIff(child.prefixes, parent.prefixes);
    NotSubset(child.operations, parent.operations);
    NotSubset(child.purposes, parent.purposes);
    ScopeKeptIff(child.graphs, parent.graphs);
    ScopeKeptIff(child.entities, parent.entities);
    RankOrders(parent.sensitivity, child.sensitivity);
    RankOrders(child.sensitivity, parent.sensitivity);
    KeptIff(child.conditions, parent.conditions);
    if ConditionsKept(child.conditions, parent.conditions) { MoreConditions(child.conditions, parent.conditions); }
  }

  lemma RefusalMeans(child: Capability, parent: Capability)
    ensures DelegationProblem(child, parent).Some? ==> Exceeds(child, parent, DelegationProblem(child, parent).value)
  {
    PrefixesWithinIff(child.prefixes, parent.prefixes);
    NotSubset(child.operations, parent.operations);
    NotSubset(child.purposes, parent.purposes);
    ScopeKeptIff(child.graphs, parent.graphs);
    ScopeKeptIff(child.entities, parent.entities);
    RankOrders(parent.sensitivity, child.sensitivity);
    RankOrders(child.sensitivity, parent.sensitivity);
    KeptIff(child.conditions, parent.conditions);
    if ConditionsKept(child.conditions, parent.conditions) { MoreConditions(child.conditions, parent.conditions); }
  }

  lemma KeptIff(child: map<int, int>, parent: map<int, int>)
    ensures ConditionsKept(child, parent) <==> forall name :: name in parent ==> name in child && child[name] == parent[name]
  {
    if ConditionsKept(child, parent) {
      forall name | name in parent ensures name in child && child[name] == parent[name] { assert Meets(child, name, parent[name]); }
    }
  }

  datatype Engine = Engine(capabilities: map<int, Capability>, order: seq<int>, revocations: map<int, int>)

  function Register(e: Engine, c: Capability): Result<Engine, PermissionError> {
    if c.id in e.capabilities then Err(DuplicateCapability)
    else if c.parent.Some? && c.parent.value !in e.capabilities then Err(UnknownParent)
    else if c.parent.Some? && DelegationProblem(c, e.capabilities[c.parent.value]).Some?
      then Err(DelegationProblem(c, e.capabilities[c.parent.value]).value)
    else Ok(e.(capabilities := e.capabilities[c.id := c], order := e.order + [c.id]))
  }

  function RegisterDraft(e: Engine, d: Draft): Result<Engine, PermissionError> {
    match Define(d) case Err(x) => Err(x) case Ok(c) => Register(e, c)
  }

  const EMPTY := Engine(map[], [], map[])

  // ----- attenuation -----

  lemma CoverageNarrows(child: set<string>, parent: set<string>, value: string)
    requires PrefixesWithin(child, parent) && Covers(child, value)
    ensures Covers(parent, value)
  {
    var p :| p in child && InBoundary(value, p);
    assert Covers(parent, p);
    var q :| q in parent && InBoundary(p, q);
    BoundaryTransitive(value, p, q);
  }

  /** Whatever an accepted child grants, its parent grants at the same instant. */
  lemma ChildWithinParent(child: Capability, parent: Capability, r: Request, at: int)
    requires DelegationProblem(child, parent).None? && Grants(child, r, at)
    ensures Grants(parent, r, at)
  {
    CoverageNarrows(child.prefixes, parent.prefixes, r.resource);
    forall name | name in parent.conditions ensures Meets(r.context, name, parent.conditions[name]) {
      assert Meets(child.conditions, name, parent.conditions[name]);
    }
  }

  /** Every registered capability was defined, and every delegated one accepted against its registered parent. */
  ghost predicate WellDelegated(e: Engine, id: int) {
    id in e.capabilities ==>
      var c := e.capabilities[id];
      && c.id == id && Defined(c)
      && (c.parent.Some? ==> c.parent.value in e.capabilities && DelegationProblem(c, e.capabilities[c.parent.value]).None?)
  }

  ghost predicate Inv(e: Engine) {
    (forall id :: WellDelegated(e, id)) && Distinct(e.order) && forall id :: id in e.order <==> id in e.capabilities
  }

  lemma RegisterKeepsInv(e: Engine, d: Draft)
    requires Inv(e) && RegisterDraft(e, d).Ok?
    ensures Inv(RegisterDraft(e, d).value)
  {
    var f := RegisterDraft(e, d).value;
    DefinedByDefine(d);
    forall id ensures WellDelegated(f, id) { assert WellDelegated(e, id); }
  }

  lemma {:induction false} RegisteredInv(e: Engine, drafts: seq<Draft>)
    requires Inv(e) && Run(RegisterDraft, e, drafts).Ok?
    ensures Inv(Run(RegisterDraft, e, drafts).value)
    decreases |drafts|
  {
    if drafts != [] {
      RegisterKeepsInv(e, drafts[0]);
      RegisteredInv(RegisterDraft(e, drafts[0]).value, drafts[1..]);
    }
  }

  /** The `n`-th ancestor, the capability itself being the 0-th. */
  function Ancestor(e: Engine, id: int, n: nat): Option<Capability>
    decreases n
  {
    if id !in e.capabilities then None
    else if n == 0 then Some(e.capabilities[id])
    else if e.capabilities[id].parent.None? then None
    else Ancestor(e, e.capabilities[id].parent.value, n - 1)
  }

  /** A delegation chain is as long as its depth, ends at a root, and no longer than the root allows. */
  lemma {:induction false} ChainIsFinite(e: Engine, id: int)
    requires Inv(e) && id in e.capabilities
    ensures var c := e.capabilities[id];
      && c.depth >= 0 && Ancestor(e, id, c.depth).Some? && Ancestor(e, id, c.depth + 1).None?
      && var root := Ancestor(e, id, c.depth).value; root.parent.None? && c.depth <= c.maxDepth <= root.maxDepth
    decreases if id in e.capabilities then e.capabilities[id].depth else 0
  {
    assert WellDelegated(e, id);
    if e.capabilities[id].parent.Some? {
      var parent := e.capabilities[id].parent.value;
      assert WellDelegated(e, parent);
      ChainIsFinite(e, parent);
    }
  }

  lemma ParentGrants(e: Engine, id: int, r: Request, at: int)
    requires Inv(e) && id in e.capabilities && e.capabilities[id].parent.Some? && Grants(e.capabilities[id], r, at)
    ensures var parent := e.capabilities[id].parent.value; parent in e.capabilities && Grants(e.capabilities[parent], r, at)
  {
    assert WellDelegated(e, id);
    ChildWithinParent(e.capabilities[id], e.capabilities[e.capabilities[id].parent.value], r, at);
  }

  /** Authority only shrinks down a chain: what a capability grants, all its ancestors grant. */
  lemma {:induction false} AncestorsGrant(e: Engine, id: int, n: nat, r: Request, at: int)
    requires Inv(e) && id in e.capabilities && Ancestor(e, id, n).Some? && Grants(e.capabilities[id], r, at)
    ensures Grants(Ancestor(e, id, n).value, r, at)
    decreases n
  {
    if n > 0 {
      ParentGrants(e, id, r, at);
      AncestorsGrant(e, e.capabilities[id].parent.value, n - 1, r, at);
    }
  }

  /** The same for runs of `register`, in terms of `evaluate` with revocations aside. */
  lemma Attenuation(drafts: seq<Draft>, id: int, n: nat, r: Request, at: int)
    requires Run(RegisterDraft, EMPTY, drafts).Ok?
    requires var e := Run(RegisterDraft, EMPTY, drafts).value; id in e.capabilities && Ancestor(e, id, n).Some?
    ensures var e := Run(RegisterDraft, EMPTY, drafts).value;
      Passed(Evaluate(e.capabilities[id], r, at, None)) ==> Passed(Evaluate(Ancestor(e, id, n).value, r, at, None))
  {
    var e := Run(RegisterDraft, EMPTY, drafts).value;
    RegisteredInv(EMPTY, drafts);
    PassedMeansGranted(e.capabilities[id], r, at, None);
    PassedMeansGranted(Ancestor(e, id, n).value, r, at, None);
    if Grants(e.capabilities[id], r, at) { AncestorsGrant(e, id, n, r, at); }
  }

  // ----- is a delegation really narrower? -----

  predicate ScopeNarrows(child: set<int>, parent: set<int>) {
    child != {} && (parent == {} || exists x :: x in parent && x !in child)
  }

  /** The child refuses something its parent grants, in one of the respects that a request can show. */
  predicate Refuses(child: Capability, parent: Capability) {
    || child.validFrom > parent.validFrom || child.expiresAt < parent.expiresAt
    || Rank(child.sensitivity) < Rank(parent.sensitivity)
    || (exists o :: o in parent.operations && o !in child.operations)
    || (exists p :: p in parent.purposes && p !in child.purposes)
    || !PrefixesWithin(parent.prefixes, child.prefixes)
    || ScopeNarrows(child.graphs, parent.graphs) || ScopeNarrows(child.entities, parent.entities)
    || (exists name :: name in child.conditions && name !in parent.conditions)
  }

  /** A request that `c` grants at `at`, with the given particulars. */
  function RequestOn(c: Capability, resource: string, graph: int, entity: int, operation: int, purpose: int, s: Sensitivity): Request {
    Request(c.principal, resource, graph, entity, operation, purpose, s, c.conditions, c.workspace, c.principal)
  }

  lemma Unlisted(s: set<int>) returns (x: int)
    ensures x !in s
  {
    x := AboveAll(s);
  }

  lemma {:induction false} AboveAll(s: set<int>) returns (x: int)
    ensures forall y :: y in s ==> y < x
    decreases |s|
  {
    if s == {} {
      x := 0;
    } else {
      var y := Member(s);
      var z := AboveAll(s - {y});
      x := if z > y then z else y + 1;
      forall w | w in s ensures w < x { assert w == y || w in s - {y}; }
    }
  }

  lemma Listed(s: set<int>) returns (x: int)
    ensures Allows(s, x)
  {
    if s == {} { x := 0; } else { x := Member(s); }
  }

  lemma Refused(s: set<int>, parent: set<int>) returns (x: int)
    requires ScopeNarrows(s, parent)
    ensures Allows(parent, x) && !Allows(s, x)
  {
    if parent == {} { x := Unlisted(s); } else { x :| x in parent && x !in s; }
  }

  lemma OwnPrefix(c: Capability, p: string)
    requires p in c.prefixes
    ensures Covers(c.prefixes, p)
  {
    assert InBoundary(p, p);
  }

  lemma RequestGranted(c: Capability, resource: string, graph: int, entity: int, operation: int, purpose: int, s: Sensitivity, at: int)
    requires Defined(c) && c.validFrom <= at < c.expiresAt && resource in c.prefixes
    requires Allows(c.graphs, graph) && Allows(c.entities, entity) && operation in c.operations && purpose in c.purposes
    requires Rank(s) <= Rank(c.sensitivity)
    ensures Grants(c, RequestOn(c, resource, graph, entity, operation, purpose, s), at)
  {
    OwnPrefix(c, resource);
  }

  lemma RefusalShows(child: Capability, parent: Capability) returns (r: Request, at: int)
    requires Defined(child) && Defined(parent) && Refuses(child, parent)
    ensures Grants(parent, r, at) && !Grants(child, r, at)
  {
    var resource := Member(parent.prefixes);
    var operation := Member(parent.operations);
    var purpose := Member(parent.purposes);
    var graph := Listed(parent.graphs);
    var entity := Listed(parent.entities);
    var s := parent.sensitivity;
    at := if child.validFrom > parent.validFrom then parent.validFrom else parent.expiresAt - 1;
    if o :| o in parent.operations && o !in child.operations { operation := o; }
    if p :| p in parent.purposes && p !in child.purposes { purpose := p; }
    if !PrefixesWithin(parent.prefixes, child.prefixes) { resource :| resource in parent.prefixes && !Covers(child.prefixes, resource); }
    if ScopeNarrows(child.graphs, parent.graphs) { graph := Refused(child.graphs, parent.graphs); }
    if ScopeNarrows(child.entities, parent.entities) { entity := Refused(child.entities, parent.entities); }
    r := RequestOn(parent, resource, graph, entity, operation, purpose, s);
    RequestGranted(parent, resource, graph, entity, operation, purpose, s, at);
    if name :| name in child.conditions && name !in parent.conditions {
      assert !Meets(r.context, name, child.conditions[name]);
    }
  }

  lemma NoRefusalMeansSame(child: Capability, parent: Capability, r: Request, at: int)
    requires DelegationProblem(child, parent).None? && !Refuses(child, parent) && Grants(parent, r, at)
    ensures Grants(child, r, at)
  {
    CoverageNarrows(parent.prefixes, child.prefixes, r.resource);
    forall name | name in child.conditions ensures Meets(r.context, name, child.conditions[name]) {
      assert name in parent.conditions;
      assert Meets(child.conditions, name, parent.conditions[name]);
      assert Meets(r.context, name, parent.conditions[name]);
    }
  }

  /**
   "Delegation must strictly narrow authority": an accepted child refuses some request its parent grants exactly
   when it narrows a respect other than the mere list of prefixes.
   */
  lemma ReallyNarrowerIff(child: Capability, parent: Capability)
    requires Defined(child) && Defined(parent) && DelegationProblem(child, parent).None?
    ensures (exists r, at :: Grants(parent, r, at) && !Grants(child, r, at)) <==> Refuses(child, parent)
  {
    if Refuses(child, parent) {
      var r, at := RefusalShows(child, parent);
    } else {
      forall r, at | Grants(parent, r, at) ensures Grants(child, r, at) { NoRefusalMeansSame(child, parent, r, at); }
    }
  }

  lemma SameConditions(child: map<int, int>, parent: map<int, int>)
    requires ConditionsKept(child, parent) && forall name :: name in child ==> name in parent
    ensures child == parent
  {
    forall name | name in parent ensures name in child && child[name] == parent[name] {
      assert Meets(child, name, parent[name]);
    }
    forall name | name in child.Keys ensures name in parent.Keys {}
    forall name | name in parent.Keys ensures name in child.Keys { assert Meets(child, name, parent[name]); }
    assert child.Keys == parent.Keys;
  }

  lemma SameScope(child: set<int>, parent: set<int>)
    requires Within(child, parent) && !ScopeNarrows(child, parent)
    ensures child == parent
  {
    if parent != {} { SameSet(child, parent); }
  }

  lemma SameSet(child: set<int>, parent: set<int>)
    requires child <= parent && !exists x :: x in parent && x !in child
    ensures child == parent
  {
    forall x | x in parent ensures x in child {}
    assert parent <= child;
  }

  /** The strictness check is passed without narrowing anything only by relisting prefixes inside the parent's. */
  lemma NominalOnlyByPrefixes(child: Capability, parent: Capability)
    requires DelegationProblem(child, parent).None? && !Refuses(child, parent)
    ensures child.prefixes != parent.prefixes
    ensures child == parent.(id := child.id, principal := child.principal, issuer := child.issuer, prefixes := child.prefixes,
                             canDelegate := child.canDelegate, parent := child.parent, depth := child.depth,
                             maxDepth := child.maxDepth)
  {
    SameConditions(child.conditions, parent.conditions);
    SameScope(child.graphs, parent.graphs);
    SameScope(child.entities, parent.entities);
    SameSet(child.operations, parent.operations);
    SameSet(child.purposes, parent.purposes);
  }

  lemma InnerInside(prefix: string)
    ensures InBoundary(prefix + "/x", prefix)
  {
    assert (prefix + "/x")[..|prefix| + 1] == prefix + "/";
  }

  lemma RelistedPrefixes(prefixes: set<string>, prefix: string)
    requires prefix in prefixes
    ensures var more := prefixes + {prefix + "/x"};
      PrefixesWithin(more, prefixes) && PrefixesWithin(prefixes, more)
  {
    var more := prefixes + {prefix + "/x"};
    InnerInside(prefix);
    forall p | p in prefixes ensures Covers(prefixes, p) && Covers(more, p) {
      assert InBoundary(p, p) && p in more;
    }
    assert Covers(prefixes, prefix + "/x");
  }

  /** A copy of the parent one step down, with other prefixes that cover the same resources. */
  predicate CopyDown(child: Capability, parent: Capability) {
    child == parent.(id := child.id, principal := child.principal, issuer := parent.principal, parent := Some(parent.id),
                     depth := parent.depth + 1, prefixes := child.prefixes)
  }

  ghost predicate Relists(child: Capability, parent: Capability) {
    && CopyDown(child, parent)
    && child.prefixes != parent.prefixes && PrefixesWithin(child.prefixes, parent.prefixes)
    && PrefixesWithin(parent.prefixes, child.prefixes)
  }

  lemma RelistAccepted(child: Capability, parent: Capability)
    requires parent.canDelegate && parent.depth < parent.maxDepth && Relists(child, parent)
    ensures DelegationProblem(child, parent).None?
  {
    forall name | name in parent.conditions ensures Meets(child.conditions, name, parent.conditions[name]) {}
  }

  lemma RelistRefusesNothing(child: Capability, parent: Capability)
    requires Relists(child, parent)
    ensures !Refuses(child, parent)
  {
  }

  lemma RelistDefined(child: Capability, parent: Capability, inner: string)
    requires Defined(parent) && parent.depth < parent.maxDepth && CopyDown(child, parent)
    requires child.prefixes == parent.prefixes + {inner} && InBoundary(inner, parent.workspace)
    ensures Defined(child)
  {
    assert inner in child.prefixes;
  }

  /** Such a delegation exists: the parent's prefix listed again with one inside it. */
  lemma NominalDelegation(parent: Capability, id: int, principal: int, prefix: string)
    returns (child: Capability)
    requires Defined(parent) && parent.canDelegate && parent.depth < parent.maxDepth
    requires prefix in parent.prefixes && prefix + "/x" !in parent.prefixes
    ensures child.id == id && child.principal == principal && child.parent == Some(parent.id)
    ensures Defined(child) && DelegationProblem(child, parent).None? && !Refuses(child, parent)
  {
    var inner := prefix + "/x";
    child := parent.(id := id, principal := principal, issuer := parent.principal, parent := Some(parent.id),
                     depth := parent.depth + 1, prefixes := parent.prefixes + {inner});
    InnerInside(prefix);
    BoundaryTransitive(inner, prefix, parent.workspace);
    RelistDefined(child, parent, inner);
    assert inner in child.prefixes;
    RelistedPrefixes(parent.prefixes, prefix);
    RelistAccepted(child, parent);
    RelistRefusesNothing(child, parent);
  }

  // ----- authorizing -----

  predicate ById(a: int, b: int) {
    a <= b
  }

  function HeldBy(e: Engine, principal: int): int -> bool {
    (id: int) => id in e.capabilities && e.capabilities[id].principal == principal
  }

  function RevokedAt(e: Engine, id: int): Option<int> {
    if id in e.revocations then Some(e.revocations[id]) else None
  }

  function Considered(e: Engine, r: Request): seq<int> {
    SortBy(Filter(e.order, HeldBy(e, r.principal)), ById)
  }

  function FirstPassing(e: Engine, ids: seq<int>, r: Request, at: int): Option<int> {
    if ids == [] then None
    else if ids[0] in e.capabilities && Passed(Evaluate(e.capabilities[ids[0]], r, at, RevokedAt(e, ids[0]))) then Some(ids[0])
    else FirstPassing(e, ids[1..], r, at)
  }

  function EvaluateIn(e: Engine, r: Request, at: int): int -> Evaluation {
    (id: int) =>
      if id in e.capabilities then Evaluate(e.capabilities[id], r, at, RevokedAt(e, id)) else Evaluation(id, [Revoked], {})
  }

  function Authorize(e: Engine, r: Request, at: int): Option<int> {
    FirstPassing(e, Considered(e, r), r, at)
  }

  /** A capability that grants the request to the requesting principal and is not revoked yet. */
  ghost predicate Holds(e: Engine, id: int, r: Request, at: int) {
    && id in e.capabilities && e.capabilities[id].principal == r.principal && Grants(e.capabilities[id], r, at)
    && (id in e.revocations ==> at < e.revocations[id])
  }

  lemma {:induction false} FirstPassingIsFirst(e: Engine, ids: seq<int>, r: Request, at: int)
    requires forall i :: 0 <= i < |ids| ==> ids[i] in e.capabilities && e.capabilities[ids[i]].principal == r.principal
    ensures match FirstPassing(e, ids, r, at)
      case None => forall i :: 0 <= i < |ids| ==> !Holds(e, ids[i], r, at)
      case Some(id) => exists k :: 0 <= k < |ids| && ids[k] == id && Holds(e, id, r, at) &&
                         forall i :: 0 <= i < k ==> !Holds(e, ids[i], r, at)
    decreases |ids|
  {
    if ids != [] {
      PassedMeansGranted(e.capabilities[ids[0]], r, at, RevokedAt(e, ids[0]));
      if !Holds(e, ids[0], r, at) {
        FirstPassingIsFirst(e, ids[1..], r, at);
        var f := FirstPassing(e, ids[1..], r, at);
        if f.Some? {
          var k :| 0 <= k < |ids[1..]| && ids[1..][k] == f.value && Holds(e, f.value, r, at) &&
            forall i :: 0 <= i < k ==> !Holds(e, ids[1..][i], r, at);
          assert ids[k + 1] == f.value;
          forall i | 0 <= i < k + 1 ensures !Holds(e, ids[i], r, at) {
            if i > 0 { assert ids[i] == ids[1..][i - 1]; }
          }
        } else {
          forall i | 0 <= i < |ids| ensures !Holds(e, ids[i], r, at) {
            if i > 0 { assert ids[i] == ids[1..][i - 1]; }
          }
        }
      }
    }
  }

  lemma SmallerIsEarlier(ids: seq<int>, i: nat, k: nat)
    requires SortedBy(ids, ById) && i < |ids| && k < |ids| && ids[i] < ids[k]
    ensures i < k
  {
    assert k < i ==> ById(ids[k], ids[i]);
  }

  lemma ConsideredIds(e: Engine, r: Request)
    requires Inv(e)
    ensures var ids := Considered(e, r);
      && SortedBy(ids, ById)
      && (forall i :: 0 <= i < |ids| ==> ids[i] in e.capabilities && e.capabilities[ids[i]].principal == r.principal)
      && forall x :: x in e.capabilities && e.capabilities[x].principal == r.principal ==> x in ids
  {
    var ids := Considered(e, r);
    forall x ensures x in ids <==> x in e.capabilities && e.capabilities[x].principal == r.principal {
      FilterMember(e.order, HeldBy(e, r.principal), x);
      SortElements(Filter(e.order, HeldBy(e, r.principal)), ById);
    }
    SortSorts(Filter(e.order, HeldBy(e, r.principal)), ById);
    forall i | 0 <= i < |ids| ensures ids[i] in e.capabilities && e.capabilities[ids[i]].principal == r.principal {
      assert ids[i] in ids;
    }
  }

  lemma LeastHolds(e: Engine, r: Request, at: int, x: int)
    requires Inv(e) && Holds(e, x, r, at)
    ensures Authorize(e, r, at).Some? && Authorize(e, r, at).value <= x && Holds(e, Authorize(e, r, at).value, r, at)
  {
    var ids := Considered(e, r);
    ConsideredIds(e, r);
    FirstPassingIsFirst(e, ids, r, at);
    var i :| 0 <= i < |ids| && ids[i] == x;
    var k :| 0 <= k < |ids| && Authorize(e, r, at) == Some(ids[k]) && Holds(e, ids[k], r, at) &&
      forall j :: 0 <= j < k ==> !Holds(e, ids[j], r, at);
    if ids[i] < ids[k] { SmallerIsEarlier(ids, i, k); }
  }

  lemma GrantedHolds(e: Engine, r: Request, at: int)
    requires Inv(e) && Authorize(e, r, at).Some?
    ensures Holds(e, Authorize(e, r, at).value, r, at)
  {
    ConsideredIds(e, r);
    FirstPassingIsFirst(e, Considered(e, r), r, at);
  }

  /** Deny by default: a request is allowed exactly when some capability holds, and the least such id is named. */
  lemma AuthorizedIff(e: Engine, r: Request, at: int, id: int)
    requires Inv(e)
    ensures Authorize(e, r, at) == Some(id) <==> Holds(e, id, r, at) && forall x :: x < id ==> !Holds(e, x, r, at)
    ensures Authorize(e, r, at) == None <==> forall x :: !Holds(e, x, r, at)
  {
    forall x | Holds(e, x, r, at)
      ensures Authorize(e, r, at).Some? && Authorize(e, r, at).value <= x && Holds(e, Authorize(e, r, at).value, r, at)
    {
      LeastHolds(e, r, at, x);
    }
    if Authorize(e, r, at).Some? { GrantedHolds(e, r, at); }
  }

  /** One evaluation for each capability of the principal, by id. */
  ghost predicate Explains(e: Engine, r: Request, at: int, evaluations: seq<Evaluation>) {
    && (forall i :: 0 <= i < |evaluations| ==>
          var id := evaluations[i].capability;
          && id in e.capabilities && e.capabilities[id].principal == r.principal
          && Evaluates(e.capabilities[id], r, at, if id in e.revocations then Some(e.revocations[id]) else None, evaluations[i]))
    && (forall i, j :: 0 <= i < j < |evaluations| ==> evaluations[i].capability < evaluations[j].capability)
    && forall id :: id in e.capabilities && e.capabilities[id].principal == r.principal ==>
         exists i :: 0 <= i < |evaluations| && evaluations[i].capability == id
  }

  lemma AuthorizeExplains(e: Engine, r: Request, at: int)
    requires Inv(e)
    ensures Explains(e, r, at, MapSeq(Considered(e, r), EvaluateIn(e, r, at)))
  {
    var ids := Considered(e, r);
    var evaluations := MapSeq(ids, EvaluateIn(e, r, at));
    ConsideredIds(e, r);
    ConsideredDistinct(e, r);
    forall i | 0 <= i < |ids|
      ensures evaluations[i].capability == ids[i]
      ensures Evaluates(e.capabilities[ids[i]], r, at, RevokedAt(e, ids[i]), evaluations[i])
    {
      assert WellDelegated(e, ids[i]);
      EvaluationMeans(e.capabilities[ids[i]], r, at, RevokedAt(e, ids[i]));
    }
    forall i, j | 0 <= i < j < |ids| ensures ids[i] < ids[j] { assert ById(ids[i], ids[j]) && ids[i] != ids[j]; }
    forall id | id in e.capabilities && e.capabilities[id].principal == r.principal
      ensures exists i :: 0 <= i < |evaluations| && evaluations[i].capability == id
    {
      var i :| 0 <= i < |ids| && ids[i] == id;
      assert evaluations[i].capability == id;
    }
  }

  lemma ConsideredDistinct(e: Engine, r: Request)
    requires Inv(e)
    ensures Distinct(Considered(e, r))
  {
    var held := Filter(e.order, HeldBy(e, r.principal));
    FilterDistinct(e.order, HeldBy(e, r.principal));
    SortPermutes(held, ById);
    MultisetDistinct(held, Considered(e, r));
  }

  // ----- the engine object -----

  class CapabilityEngine {
    var capabilities: map<int, Capability>
    var order: seq<int>
    var revocations: map<int, int>

    function State(): Engine
      reads this
    {
      Engine(capabilities, order, revocations)
    }

    constructor ()
      ensures State() == EMPTY && Inv(State())
    {
      capabilities, order, revocations := map[], [], map[];
    }

    method RegisterCapability(c: Capability) returns (thrown: Option<PermissionError>)
      modifies this
      ensures match Register(old(State()), c)
        case Ok(e) => thrown == None && State() == e
        case Err(x) => thrown == Some(x) && State() == old(State())
      ensures thrown == None <==>
        && c.id !in old(capabilities)
        && (c.parent.Some? ==> c.parent.value in old(capabilities) && Attenuates(c, old(capabilities)[c.parent.value]))
      ensures capabilities == (if thrown == None then old(capabilities)[c.id := c] else old(capabilities)) && revocations == old(revocations)
      ensures match thrown
        case None => true
        case Some(DuplicateCapability) => c.id in old(capabilities)
        case Some(UnknownParent) => c.parent.Some? && c.parent.value !in old(capabilities)
        case Some(x) => c.parent.Some? && c.parent.value in old(capabilities) && Exceeds(c, old(capabilities)[c.parent.value], x)
    {
      if c.parent.Some? && c.parent.value in capabilities {
        DelegationMeans(c, capabilities[c.parent.value]);
        RefusalMeans(c, capabilities[c.parent.value]);
      }
      if c.id in capabilities { return Some(DuplicateCapability); }
      if c.parent.Some? {
        if c.parent.value !in capabilities { return Some(UnknownParent); }
        var problem := DelegationProblem(c, capabilities[c.parent.value]);
        if problem.Some? { return problem; }
      }
      capabilities := capabilities[c.id := c];
      order := order + [c.id];
      return None;
    }

    /** A revocation is recorded once and never changed. */
    method Revoke(id: int, at: int) returns (revoked: bool)
      modifies this
      ensures revoked <==> id in old(capabilities) && id !in old(revocations)
      ensures State() == if revoked then old(State()).(revocations := old(revocations)[id := at]) else old(State())
    {
      revoked := id in capabilities && id !in revocations;
      if revoked { revocations := revocations[id := at]; }
    }

    method EvaluateAll(ids: seq<int>, r: Request, at: int) returns (granted: Option<int>, evaluations: seq<Evaluation>)
      requires forall i :: 0 <= i < |ids| ==> ids[i] in capabilities
      ensures granted == FirstPassing(State(), ids, r, at)
      ensures evaluations == MapSeq(ids, EvaluateIn(State(), r, at))
    {
      evaluations, granted := [], None;
      assert ids[0..] == ids;
      for i := 0 to |ids|
        invariant evaluations == MapSeq(ids, EvaluateIn(State(), r, at))[..i]
        invariant FirstPassing(State(), ids, r, at) == if granted.Some? then granted else FirstPassing(State(), ids[i..], r, at)
      {
        assert ids[i..][1..] == ids[i + 1..];
        var evaluation := Evaluate(capabilities[ids[i]], r, at, RevokedAt(State(), ids[i]));
        if granted.None? && Passed(evaluation) { granted := Some(ids[i]); }
        evaluations := evaluations + [evaluation];
      }
    }

    method AuthorizeRequest(r: Request, at: int) returns (granted: Option<int>, evaluations: seq<Evaluation>)
      requires Inv(State())
      ensures granted == Authorize(State(), r, at)
      ensures evaluations == MapSeq(Considered(State(), r), EvaluateIn(State(), r, at))
      ensures match granted
        case Some(id) => Holds(State(), id, r, at) && forall x :: x < id ==> !Holds(State(), x, r, at)
        case None => forall x :: !Holds(State(), x, r, at)
      ensures Explains(State(), r, at, evaluations)
    {
      AuthorizeExplains(State(), r, at);
      if Authorize(State(), r, at).Some? {
        AuthorizedIff(State(), r, at, Authorize(State(), r, at).value);
      } else {
        AuthorizedIff(State(), r, at, 0);
      }
      ConsideredIds(State(), r);
      granted, evaluations := EvaluateAll(Considered(State(), r), r, at);
    }
  }
}
