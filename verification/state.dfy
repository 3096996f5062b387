/**
 packages/state: the bitemporal claim ledger. A projection answers "what was known at recordedAt
 about the world at validAt"; replay rebuilds a ledger from its canonical records up to an instant.

 `object` stands for the canonical text of a claim's value, which is all the projection compares.
 */
module State {
  import opened Wrappers
  import opened Collections
  import opened Sorting

  datatype Lifecycle = Provisional | Verified | Rejected | Superseded | Retracted | Invalidated | Archived

  datatype Interval = Interval(from: int, to: Option<int>)

  datatype Claim = Claim(
    id: int, subject: int, predicateId: int, object': int, validTime: Interval, transactionTime: Interval,
    confidence: int, authority: int, lifecycle: Lifecycle)

  datatype Transition = Transition(id: int, targetId: int, status: Lifecycle, at: int)

  datatype Record = ClaimRecord(claim: Claim) | TransitionRecord(transition: Transition)

  /** Claims and transitions in the order they were appended. */
  datatype Ledger = Ledger(claims: seq<Claim>, transitions: seq<Transition>)

  datatype LedgerError = DuplicateRecord(id: int) | MissingTarget(id: int)

  datatype Query = Query(subject: int, predicateId: int, validAt: int, recordedAt: int)

  datatype Projected = Projected(claim: Claim, effective: Lifecycle)

  datatype Projection = Projection(selected: Option<Projected>, candidates: seq<Projected>, conflicts: seq<Projected>)

  /** The counts of the projection trace, stage by stage. */
  datatype Counts = Counts(discovered: nat, known: nat, valid: nat, governing: nat)

  predicate Contains(i: Interval, at: int) {
    i.from <= at && (i.to.None? || at < i.to.value)
  }

  predicate Before(time1: int, id1: int, time2: int, id2: int) {
    time1 < time2 || (time1 == time2 && id1 < id2)
  }

  predicate ByRecorded(a: Claim, b: Claim) {
    !Before(b.transactionTime.from, b.id, a.transactionTime.from, a.id)
  }

  predicate ByTransition(a: Transition, b: Transition) {
    !Before(b.at, b.id, a.at, a.id)
  }

  function TimeOf(r: Record): int {
    match r case ClaimRecord(c) => c.transactionTime.from case TransitionRecord(t) => t.at
  }

  function IdOf(r: Record): int {
    match r case ClaimRecord(c) => c.id case TransitionRecord(t) => t.id
  }

  predicate ByRecord(a: Record, b: Record) {
    !Before(TimeOf(b), IdOf(b), TimeOf(a), IdOf(a))
  }

  function LifecycleRank(s: Lifecycle): int {
    if s == Verified then 2 else if s == Provisional then 1 else 0
  }

  /** Lifecycle, authority, valid time, transaction time and confidence descending, then id ascending. */
  predicate ByPriority(a: Projected, b: Projected) {
    var x, y := LifecycleRank(a.effective), LifecycleRank(b.effective);
    x > y || (x == y && (a.claim.authority > b.claim.authority || (a.claim.authority == b.claim.authority &&
      LaterFirst(a.claim, b.claim))))
  }

  predicate LaterFirst(a: Claim, b: Claim) {
    a.validTime.from > b.validTime.from || (a.validTime.from == b.validTime.from &&
      (a.transactionTime.from > b.transactionTime.from || (a.transactionTime.from == b.transactionTime.from &&
        (a.confidence > b.confidence || (a.confidence == b.confidence && a.id <= b.id)))))
  }

  // ----- projection -----

  function About(q: Query): Claim -> bool {
    (c: Claim) => c.subject == q.subject && c.predicateId == q.predicateId
  }

  function KnownAt(at: int): Claim -> bool {
    (c: Claim) => Contains(c.transactionTime, at)
  }

  function ValidAt(at: int): Claim -> bool {
    (c: Claim) => Contains(c.validTime, at)
  }

  function OnTarget(id: int): Transition -> bool {
    (t: Transition) => t.targetId == id
  }

  function ByThen(at: int): Transition -> bool {
    (t: Transition) => t.at <= at
  }

  function Governs(): Projected -> bool {
    (p: Projected) => p.effective == Verified || p.effective == Provisional
  }

  function ConflictsWith(selected: Projected): Projected -> bool {
    (p: Projected) => p.claim.id != selected.claim.id && p.claim.object' != selected.claim.object'
  }

  function History(l: Ledger, q: Query): seq<Claim> {
    SortBy(Filter(l.claims, About(q)), ByRecorded)
  }

  function LifecycleHistory(l: Ledger, id: int): seq<Transition> {
    SortBy(Filter(l.transitions, OnTarget(id)), ByTransition)
  }

  function EffectiveLifecycle(l: Ledger, c: Claim, at: int): Lifecycle {
    var applicable := Filter(LifecycleHistory(l, c.id), ByThen(at));
    if applicable == [] then c.lifecycle else applicable[|applicable| - 1].status
  }

  function WithLifecycle(l: Ledger, claims: seq<Claim>, at: int): (r: seq<Projected>)
    ensures |r| == |claims|
    ensures forall i :: 0 <= i < |claims| ==> r[i] == Projected(claims[i], EffectiveLifecycle(l, claims[i], at))
  {
    seq(|claims|, i requires 0 <= i < |claims| => Projected(claims[i], EffectiveLifecycle(l, claims[i], at)))
  }

  function KnownClaims(l: Ledger, q: Query): seq<Claim> {
    Filter(History(l, q), KnownAt(q.recordedAt))
  }

  function ValidClaims(l: Ledger, q: Query): seq<Claim> {
    Filter(KnownClaims(l, q), ValidAt(q.validAt))
  }

  function Governing(l: Ledger, q: Query): seq<Projected> {
    SortBy(Filter(WithLifecycle(l, ValidClaims(l, q), q.recordedAt), Governs()), ByPriority)
  }

  function Select(governing: seq<Projected>): Projection {
    if governing == [] then Projection(None, [], [])
    else Projection(Some(governing[0]), governing, Filter(governing, ConflictsWith(governing[0])))
  }

  function ProjectAt(l: Ledger, q: Query): Projection {
    Select(Governing(l, q))
  }

  function TraceCounts(l: Ledger, q: Query): Counts {
    Counts(|History(l, q)|, |KnownClaims(l, q)|, |ValidClaims(l, q)|, |Governing(l, q)|)
  }

  // ----- appending and replaying -----

  predicate HasId(l: Ledger, id: int) {
    (exists i :: 0 <= i < |l.claims| && l.claims[i].id == id) ||
    (exists i :: 0 <= i < |l.transitions| && l.transitions[i].id == id)
  }

  predicate HasClaim(l: Ledger, id: int) {
    exists i :: 0 <= i < |l.claims| && l.claims[i].id == id
  }

  function Append(l: Ledger, r: Record): Result<Ledger, LedgerError> {
    if HasId(l, IdOf(r)) then Err(DuplicateRecord(IdOf(r)))
    else match r
      case ClaimRecord(c) => Ok(l.(claims := l.claims + [c]))
      case TransitionRecord(t) =>
        if !HasClaim(l, t.targetId) then Err(MissingTarget(t.targetId))
        else Ok(l.(transitions := l.transitions + [t]))
  }

  function AppendAll(records: seq<Record>): Result<Ledger, LedgerError> {
    if records == [] then Ok(Ledger([], [])) else
      match AppendAll(records[..|records| - 1])
      case Err(e) => Err(e)
      case Ok(l) => Append(l, records[|records| - 1])
  }

  function Until(limit: Option<int>): Record -> bool {
    (r: Record) => limit.None? || TimeOf(r) <= limit.value
  }

  function ReplayOrder(records: seq<Record>, limit: Option<int>): seq<Record> {
    SortBy(Filter(records, Until(limit)), ByRecord)
  }

  function Replay(records: seq<Record>, limit: Option<int>): Result<Ledger, LedgerError> {
    AppendAll(ReplayOrder(records, limit))
  }

  function ClaimRecords(claims: seq<Claim>): (r: seq<Record>)
    ensures |r| == |claims| && forall i :: 0 <= i < |r| ==> r[i] == ClaimRecord(claims[i])
  {
    seq(|claims|, i requires 0 <= i < |claims| => ClaimRecord(claims[i]))
  }

  function TransitionRecords(transitions: seq<Transition>): (r: seq<Record>)
    ensures |r| == |transitions| && forall i :: 0 <= i < |r| ==> r[i] == TransitionRecord(transitions[i])
  {
    seq(|transitions|, i requires 0 <= i < |transitions| => TransitionRecord(transitions[i]))
  }

  function CanonicalRecords(l: Ledger): seq<Record> {
    SortBy(ClaimRecords(l.claims) + TransitionRecords(l.transitions), ByRecord)
  }

  ghost predicate UsesId(l: Ledger, id: int) {
    (exists c :: c in l.claims && c.id == id) || exists t :: t in l.transitions && t.id == id
  }

  lemma IdsUsed(l: Ledger, id: int)
    ensures HasId(l, id) <==> UsesId(l, id)
    ensures HasClaim(l, id) <==> exists c :: c in l.claims && c.id == id
  {
    if i :| 0 <= i < |l.claims| && l.claims[i].id == id { assert l.claims[i] in l.claims; }
    if i :| 0 <= i < |l.transitions| && l.transitions[i].id == id { assert l.transitions[i] in l.transitions; }
  }

  /** A record is refused if its id is in use, a transition also if its target is not a claim. */
  lemma AppendMeans(l: Ledger, r: Record)
    ensures Append(l, r) == match r
      case ClaimRecord(c) => if UsesId(l, c.id) then Err(DuplicateRecord(c.id)) else Ok(Ledger(l.claims + [c], l.transitions))
      case TransitionRecord(t) =>
        if UsesId(l, t.id) then Err(DuplicateRecord(t.id))
        else if forall c :: c in l.claims ==> c.id != t.targetId then Err(MissingTarget(t.targetId))
        else Ok(Ledger(l.claims, l.transitions + [t]))
  {
    IdsUsed(l, IdOf(r));
    if r.TransitionRecord? { IdsUsed(l, r.transition.targetId); }
  }

  // ----- ledgers reached by appends -----

  ghost predicate DistinctClaims(claims: seq<Claim>) {
    forall i, j :: 0 <= i < j < |claims| ==> claims[i].id != claims[j].id
  }

  ghost predicate DistinctTransitions(transitions: seq<Transition>) {
    forall i, j :: 0 <= i < j < |transitions| ==> transitions[i].id != transitions[j].id
  }

  ghost predicate WellFormed(l: Ledger) {
    && DistinctClaims(l.claims) && DistinctTransitions(l.transitions)
    && (forall c, t :: c in l.claims && t in l.transitions ==> c.id != t.id)
    && forall t :: t in l.transitions ==> HasClaim(l, t.targetId)
  }

  lemma AppendKeepsWellFormed(l: Ledger, r: Record)
    requires WellFormed(l) && Append(l, r).Ok?
    ensures WellFormed(Append(l, r).value)
  {
    var m := Append(l, r).value;
    forall t | t in m.transitions ensures HasClaim(m, t.targetId) {
      if t in l.transitions {
        var i :| 0 <= i < |l.claims| && l.claims[i].id == t.targetId;
        assert m.claims[i].id == t.targetId;
      }
    }
  }

  lemma {:induction false} AppendAllWellFormed(records: seq<Record>)
    requires AppendAll(records).Ok?
    ensures WellFormed(AppendAll(records).value)
    decreases |records|
  {
    if records != [] {
      AppendAllWellFormed(records[..|records| - 1]);
      AppendKeepsWellFormed(AppendAll(records[..|records| - 1]).value, records[|records| - 1]);
    }
  }

  // ----- the orders are strict on distinct records -----

  lemma ClaimsOrdered(claims: seq<Claim>)
    requires DistinctClaims(claims)
    ensures TotalPreorder(ByRecorded) && AntisymmetricOn(claims, ByRecorded) && Distinct(claims)
  {
    forall c, d | c in claims && d in claims && ByRecorded(c, d) && ByRecorded(d, c) ensures c == d {
      var i :| 0 <= i < |claims| && claims[i] == c;
      var j :| 0 <= j < |claims| && claims[j] == d;
    }
  }

  lemma TransitionsOrdered(transitions: seq<Transition>)
    requires DistinctTransitions(transitions)
    ensures TotalPreorder(ByTransition) && AntisymmetricOn(transitions, ByTransition) && Distinct(transitions)
  {
    forall c, d | c in transitions && d in transitions && ByTransition(c, d) && ByTransition(d, c) ensures c == d {
      var i :| 0 <= i < |transitions| && transitions[i] == c;
      var j :| 0 <= j < |transitions| && transitions[j] == d;
    }
  }

  lemma SubClaimsOrdered(claims: seq<Claim>, p: Claim -> bool)
    requires DistinctClaims(claims)
    ensures Distinct(Filter(claims, p)) && AntisymmetricOn(Filter(claims, p), ByRecorded) && TotalPreorder(ByRecorded)
  {
    ClaimsOrdered(claims);
    FilterDistinct(claims, p);
    forall c | c in Filter(claims, p) ensures c in claims { FilterMember(claims, p, c); }
  }

  lemma SubTransitionsOrdered(transitions: seq<Transition>, p: Transition -> bool)
    requires DistinctTransitions(transitions)
    ensures Distinct(Filter(transitions, p)) && AntisymmetricOn(Filter(transitions, p), ByTransition) && TotalPreorder(ByTransition)
  {
    TransitionsOrdered(transitions);
    FilterDistinct(transitions, p);
    forall c | c in Filter(transitions, p) ensures c in transitions { FilterMember(transitions, p, c); }
  }

  // ----- ledgers that agree up to an instant -----

  /** The same claims and transitions were recorded by `at`, in whatever order they were appended. */
  ghost predicate AgreeUpTo(l: Ledger, m: Ledger, at: int) {
    && (forall c: Claim :: c.transactionTime.from <= at ==> (c in l.claims <==> c in m.claims))
    && forall t: Transition :: t.at <= at ==> (t in l.transitions <==> t in m.transitions)
  }

  lemma KnownElements(l: Ledger, q: Query, c: Claim)
    ensures c in KnownClaims(l, q) <==> c in l.claims && About(q)(c) && KnownAt(q.recordedAt)(c)
  {
    FilterMember(l.claims, About(q), c);
    SortElements(Filter(l.claims, About(q)), ByRecorded);
    FilterMember(History(l, q), KnownAt(q.recordedAt), c);
  }

  lemma KnownIsSorted(l: Ledger, q: Query)
    requires WellFormed(l)
    ensures Distinct(KnownClaims(l, q)) && Sorted(KnownClaims(l, q), ByRecorded)
  {
    var about := Filter(l.claims, About(q));
    SubClaimsOrdered(l.claims, About(q));
    SortedMeansSorted(about, about, ByRecorded);
    SortPermutes(about, ByRecorded);
    MultisetDistinct(about, History(l, q));
    FilterDistinct(History(l, q), KnownAt(q.recordedAt));
    FilterKeepsSorted(History(l, q), KnownAt(q.recordedAt), ByRecorded);
  }

  lemma KnownAgree(l: Ledger, m: Ledger, q: Query)
    requires WellFormed(l) && WellFormed(m) && AgreeUpTo(l, m, q.recordedAt)
    ensures KnownClaims(l, q) == KnownClaims(m, q)
  {
    KnownIsSorted(l, q);
    KnownIsSorted(m, q);
    forall c ensures c in KnownClaims(l, q) <==> c in KnownClaims(m, q) {
      KnownElements(l, q, c);
      KnownElements(m, q, c);
    }
    DistinctIsMultiset(KnownClaims(l, q), KnownClaims(m, q));
    SortedUnique(KnownClaims(l, q), KnownClaims(m, q), ByRecorded);
  }

  function Applicable(l: Ledger, id: int, at: int): seq<Transition> {
    Filter(LifecycleHistory(l, id), ByThen(at))
  }

  lemma ApplicableElements(l: Ledger, id: int, at: int, t: Transition)
    ensures t in Applicable(l, id, at) <==> t in l.transitions && t.targetId == id && t.at <= at
  {
    FilterMember(l.transitions, OnTarget(id), t);
    SortElements(Filter(l.transitions, OnTarget(id)), ByTransition);
    FilterMember(LifecycleHistory(l, id), ByThen(at), t);
  }

  lemma ApplicableIsSorted(l: Ledger, id: int, at: int)
    requires WellFormed(l)
    ensures Distinct(Applicable(l, id, at)) && Sorted(Applicable(l, id, at), ByTransition)
  {
    var mine := Filter(l.transitions, OnTarget(id));
    SubTransitionsOrdered(l.transitions, OnTarget(id));
    SortedMeansSorted(mine, mine, ByTransition);
    SortPermutes(mine, ByTransition);
    MultisetDistinct(mine, LifecycleHistory(l, id));
    FilterDistinct(LifecycleHistory(l, id), ByThen(at));
    FilterKeepsSorted(LifecycleHistory(l, id), ByThen(at), ByTransition);
  }

  lemma EffectiveAgree(l: Ledger, m: Ledger, c: Claim, at: int)
    requires WellFormed(l) && WellFormed(m) && AgreeUpTo(l, m, at)
    ensures EffectiveLifecycle(l, c, at) == EffectiveLifecycle(m, c, at)
  {
    ApplicableIsSorted(l, c.id, at);
    ApplicableIsSorted(m, c.id, at);
    forall t ensures t in Applicable(l, c.id, at) <==> t in Applicable(m, c.id, at) {
      ApplicableElements(l, c.id, at, t);
      ApplicableElements(m, c.id, at, t);
    }
    DistinctIsMultiset(Applicable(l, c.id, at), Applicable(m, c.id, at));
    SortedUnique(Applicable(l, c.id, at), Applicable(m, c.id, at), ByTransition);
  }

  lemma WithLifecycleAgree(l: Ledger, m: Ledger, claims: seq<Claim>, at: int)
    requires WellFormed(l) && WellFormed(m) && AgreeUpTo(l, m, at)
    ensures WithLifecycle(l, claims, at) == WithLifecycle(m, claims, at)
  {
    forall i | 0 <= i < |claims| ensures WithLifecycle(l, claims, at)[i] == WithLifecycle(m, claims, at)[i] {
      EffectiveAgree(l, m, claims[i], at);
    }
  }

  /** What was recorded by an instant is all that a projection at that instant depends on. */
  lemma AgreeingLedgersProjectAlike(l: Ledger, m: Ledger, q: Query)
    requires WellFormed(l) && WellFormed(m) && AgreeUpTo(l, m, q.recordedAt)
    ensures ProjectAt(l, q) == ProjectAt(m, q)
    ensures TraceCounts(l, q).(discovered := 0) == TraceCounts(m, q).(discovered := 0)
  {
    KnownAgree(l, m, q);
    WithLifecycleAgree(l, m, ValidClaims(l, q), q.recordedAt);
  }

  /** Appending anything recorded after `recordedAt` leaves the view at `recordedAt` as it was. */
  lemma LaterRecordsChangeNothing(l: Ledger, r: Record, q: Query)
    requires WellFormed(l) && Append(l, r).Ok? && TimeOf(r) > q.recordedAt
    ensures ProjectAt(Append(l, r).value, q) == ProjectAt(l, q)
  {
    AppendKeepsWellFormed(l, r);
    AgreeingLedgersProjectAlike(Append(l, r).value, l, q);
  }

  // ----- the history behind a view -----

  /** The same records, whatever the order they were appended in. */
  ghost predicate SameRecords(l: Ledger, m: Ledger) {
    && (forall c :: c in l.claims <==> c in m.claims)
    && forall t :: t in l.transitions <==> t in m.transitions
  }

  lemma HistoryAgree(l: Ledger, m: Ledger, q: Query)
    requires WellFormed(l) && WellFormed(m) && SameRecords(l, m)
    ensures History(l, q) == History(m, q)
  {
    var a, b := Filter(l.claims, About(q)), Filter(m.claims, About(q));
    SubClaimsOrdered(l.claims, About(q));
    SubClaimsOrdered(m.claims, About(q));
    forall c ensures c in a <==> c in b {
      FilterMember(l.claims, About(q), c);
      FilterMember(m.claims, About(q), c);
    }
    DistinctIsMultiset(a, b);
    SortForgetsOrder(a, b, ByRecorded);
  }

  /** A projection, with its whole trace, is a function of the set of records. */
  lemma ProjectionForgetsAppendOrder(l: Ledger, m: Ledger, q: Query)
    requires WellFormed(l) && WellFormed(m) && SameRecords(l, m)
    ensures ProjectAt(l, q) == ProjectAt(m, q) && TraceCounts(l, q) == TraceCounts(m, q)
  {
    AgreeingLedgersProjectAlike(l, m, q);
    HistoryAgree(l, m, q);
  }

  // ----- what a projection says -----

  lemma ByPriorityIsTotal()
    ensures TotalPreorder(ByPriority)
  {
  }

  lemma ValidElements(l: Ledger, q: Query, c: Claim)
    ensures c in ValidClaims(l, q) <==>
            c in l.claims && About(q)(c) && KnownAt(q.recordedAt)(c) && ValidAt(q.validAt)(c)
  {
    KnownElements(l, q, c);
    FilterMember(KnownClaims(l, q), ValidAt(q.validAt), c);
  }

  lemma WithLifecycleElements(l: Ledger, claims: seq<Claim>, at: int, p: Projected)
    ensures p in WithLifecycle(l, claims, at) <==> p.claim in claims && p.effective == EffectiveLifecycle(l, p.claim, at)
  {
    var r := WithLifecycle(l, claims, at);
    if p.claim in claims && p.effective == EffectiveLifecycle(l, p.claim, at) {
      var i :| 0 <= i < |claims| && claims[i] == p.claim;
      assert r[i] == p;
    }
  }

  /** The candidates are exactly the governing claims on the subject, known then and valid then. */
  lemma CandidatesAreGoverning(l: Ledger, q: Query, p: Projected)
    ensures p in ProjectAt(l, q).candidates <==>
            && p.claim in l.claims && p.claim.subject == q.subject && p.claim.predicateId == q.predicateId
            && p.claim.transactionTime.from <= q.recordedAt
            && (p.claim.transactionTime.to.Some? ==> q.recordedAt < p.claim.transactionTime.to.value)
            && p.claim.validTime.from <= q.validAt && (p.claim.validTime.to.Some? ==> q.validAt < p.claim.validTime.to.value)
            && p.effective == EffectiveLifecycle(l, p.claim, q.recordedAt)
            && (p.effective == Verified || p.effective == Provisional)
  {
    ValidElements(l, q, p.claim);
    WithLifecycleElements(l, ValidClaims(l, q), q.recordedAt, p);
    var all := WithLifecycle(l, ValidClaims(l, q), q.recordedAt);
    FilterMember(all, Governs(), p);
    SortElements(Filter(all, Governs()), ByPriority);
  }

  lemma ValidDistinct(l: Ledger, q: Query)
    requires WellFormed(l)
    ensures Distinct(ValidClaims(l, q))
  {
    KnownIsSorted(l, q);
    FilterDistinct(KnownClaims(l, q), ValidAt(q.validAt));
  }

  lemma CandidatesDistinct(l: Ledger, q: Query)
    requires WellFormed(l)
    ensures Distinct(ProjectAt(l, q).candidates)
  {
    ValidDistinct(l, q);
    var all := WithLifecycle(l, ValidClaims(l, q), q.recordedAt);
    FilterDistinct(all, Governs());
    SortPermutes(Filter(all, Governs()), ByPriority);
    MultisetDistinct(Filter(all, Governs()), Governing(l, q));
  }

  lemma DistinctIds(l: Ledger, c: Claim, d: Claim)
    requires WellFormed(l) && c in l.claims && d in l.claims && c.id == d.id
    ensures c == d
  {
    var i :| 0 <= i < |l.claims| && l.claims[i] == c;
    var j :| 0 <= j < |l.claims| && l.claims[j] == d;
  }

  /**
   A candidate that is listed before another is verified where that one is provisional; with the same status it
   has the greater authority, then the later valid time, the later transaction time, the greater confidence, and
   in the end the smaller id.
   */
  ghost predicate Outranks(a: Projected, b: Projected) {
    && (a.effective == Verified || b.effective == Provisional)
    && (a.effective == b.effective ==> a.claim.authority >= b.claim.authority)
    && (a.effective == b.effective && a.claim.authority == b.claim.authority ==> a.claim.validTime.from >= b.claim.validTime.from)
    && (a.effective == b.effective && a.claim.authority == b.claim.authority && a.claim.validTime.from == b.claim.validTime.from ==>
          && a.claim.transactionTime.from >= b.claim.transactionTime.from
          && (a.claim.transactionTime.from == b.claim.transactionTime.from ==>
                && a.claim.confidence >= b.claim.confidence
                && (a.claim.confidence == b.claim.confidence ==> a.claim.id < b.claim.id)))
  }

  /** The priority never ties: candidates are listed strictly, each once, and the selected one beats all others. */
  lemma SelectedWins(l: Ledger, q: Query, i: nat, j: nat)
    requires WellFormed(l) && i < j < |ProjectAt(l, q).candidates|
    ensures var p := ProjectAt(l, q);
      p.selected == Some(p.candidates[0]) && Outranks(p.candidates[i], p.candidates[j])
  {
    var p := ProjectAt(l, q);
    var a, b := p.candidates[i], p.candidates[j];
    ByPriorityIsTotal();
    SortSorts(Filter(WithLifecycle(l, ValidClaims(l, q), q.recordedAt), Governs()), ByPriority);
    CandidatesDistinct(l, q);
    CandidatesAreGoverning(l, q, a);
    CandidatesAreGoverning(l, q, b);
    if a.claim.id == b.claim.id { DistinctIds(l, a.claim, b.claim); }
    assert ByPriority(a, b);
  }

  /** Conflicts are not hidden: every candidate either agrees with the selected value or is reported. */
  lemma NoHiddenConflicts(l: Ledger, q: Query, p: Projected)
    requires WellFormed(l) && ProjectAt(l, q).selected.Some?
    ensures var v := ProjectAt(l, q);
      && v.selected.value in v.candidates
      && (p in v.conflicts <==> p in v.candidates && p.claim.object' != v.selected.value.claim.object')
  {
    var v := ProjectAt(l, q);
    var chosen := v.candidates[0];
    FilterMember(v.candidates, ConflictsWith(chosen), p);
    if p in v.candidates && p.claim.id == chosen.claim.id {
      CandidatesAreGoverning(l, q, p);
      CandidatesAreGoverning(l, q, chosen);
      DistinctIds(l, p.claim, chosen.claim);
    }
  }

  /** A claim's effective state is its own until a transition applies, then that of the latest one. */
  lemma EffectiveIsLatest(l: Ledger, c: Claim, at: int, t: Transition)
    requires WellFormed(l) && t in l.transitions && t.targetId == c.id && t.at <= at
    requires forall u :: u in l.transitions && u.targetId == c.id && u.at <= at ==> u.at < t.at || (u.at == t.at && u.id <= t.id)
    ensures EffectiveLifecycle(l, c, at) == t.status
  {
    var applicable := Applicable(l, c.id, at);
    ApplicableIsSorted(l, c.id, at);
    ApplicableElements(l, c.id, at, t);
    var last := applicable[|applicable| - 1];
    ApplicableElements(l, c.id, at, last);
    var k :| 0 <= k < |applicable| && applicable[k] == t;
    assert ByTransition(last, t) && ByTransition(t, last);
  }

  lemma EffectiveIsOwn(l: Ledger, c: Claim, at: int)
    requires forall u :: u in l.transitions && u.targetId == c.id ==> u.at > at
    ensures EffectiveLifecycle(l, c, at) == c.lifecycle
  {
    var applicable := Applicable(l, c.id, at);
    if applicable != [] { ApplicableElements(l, c.id, at, applicable[0]); }
  }

  /** The status of the latest transition recorded by then, or the claim's own if there is none. */
  ghost predicate IsEffective(l: Ledger, c: Claim, at: int, status: Lifecycle) {
    || (status == c.lifecycle && forall u :: u in l.transitions && u.targetId == c.id ==> u.at > at)
    || exists t :: t in l.transitions && t.targetId == c.id && t.at <= at && t.status == status &&
         forall u :: u in l.transitions && u.targetId == c.id && u.at <= at ==> u.at < t.at || (u.at == t.at && u.id <= t.id)
  }

  lemma EffectiveIff(l: Ledger, c: Claim, at: int, status: Lifecycle)
    requires WellFormed(l)
    ensures IsEffective(l, c, at, status) <==> status == EffectiveLifecycle(l, c, at)
  {
    var applicable := Applicable(l, c.id, at);
    if applicable == [] {
      forall u | u in l.transitions && u.targetId == c.id ensures u.at > at { ApplicableElements(l, c.id, at, u); }
    } else {
      var t := applicable[|applicable| - 1];
      ApplicableElements(l, c.id, at, t);
      ApplicableIsSorted(l, c.id, at);
      forall u | u in l.transitions && u.targetId == c.id && u.at <= at ensures u.at < t.at || (u.at == t.at && u.id <= t.id) {
        ApplicableElements(l, c.id, at, u);
        var k :| 0 <= k < |applicable| && applicable[k] == u;
        assert k < |applicable| - 1 ==> ByTransition(applicable[k], applicable[|applicable| - 1]);
      }
      assert IsEffective(l, c, at, t.status);
      if IsEffective(l, c, at, status) {
        var v :| v in l.transitions && v.targetId == c.id && v.at <= at && v.status == status &&
          forall u :: u in l.transitions && u.targetId == c.id && u.at <= at ==> u.at < v.at || (u.at == v.at && u.id <= v.id);
        EffectiveIsLatest(l, c, at, v);
      }
    }
  }

  /** A claim that the query is about, known then, valid then, and in force. */
  ghost predicate IsCandidate(l: Ledger, q: Query, p: Projected) {
    && p.claim in l.claims && p.claim.subject == q.subject && p.claim.predicateId == q.predicateId
    && p.claim.transactionTime.from <= q.recordedAt
    && (p.claim.transactionTime.to.Some? ==> q.recordedAt < p.claim.transactionTime.to.value)
    && p.claim.validTime.from <= q.validAt && (p.claim.validTime.to.Some? ==> q.validAt < p.claim.validTime.to.value)
    && IsEffective(l, p.claim, q.recordedAt, p.effective)
    && (p.effective == Verified || p.effective == Provisional)
  }

  /** The candidates by rank, the first of them selected, and those with another value in conflict with it. */
  ghost predicate Projects(l: Ledger, q: Query, p: Projection) {
    && (forall c :: c in p.candidates <==> IsCandidate(l, q, c))
    && (forall i, j :: 0 <= i < j < |p.candidates| ==> Outranks(p.candidates[i], p.candidates[j]))
    && p.selected == (if p.candidates == [] then None else Some(p.candidates[0]))
    && (forall c :: c in p.conflicts <==> c in p.candidates && c.claim.object' != p.candidates[0].claim.object')
    && (forall i, j :: 0 <= i < j < |p.conflicts| ==> Outranks(p.conflicts[i], p.conflicts[j]))
  }

  ghost predicate Ranked(s: seq<Projected>) {
    forall i, j :: 0 <= i < j < |s| ==> Outranks(s[i], s[j])
  }

  lemma {:induction false} FilterRanked(s: seq<Projected>, p: Projected -> bool)
    requires Ranked(s)
    ensures Ranked(Filter(s, p))
    decreases |s|
  {
    if s != [] {
      forall i, j | 0 <= i < j < |s[1..]| ensures Outranks(s[1..][i], s[1..][j]) { assert s[1..][i] == s[i + 1] && s[1..][j] == s[j + 1]; }
      FilterRanked(s[1..], p);
      forall x | x in Filter(s[1..], p) ensures Outranks(s[0], x) {
        FilterMember(s[1..], p, x);
        var i :| 0 <= i < |s[1..]| && s[1..][i] == x;
        assert s[i + 1] == x;
      }
    }
  }

  /** What a projection is, in the fields of the records. */
  lemma ProjectionMeans(l: Ledger, q: Query)
    requires WellFormed(l)
    ensures Projects(l, q, ProjectAt(l, q))
  {
    var p := ProjectAt(l, q);
    forall c ensures c in p.candidates <==> IsCandidate(l, q, c) {
      CandidatesAreGoverning(l, q, c);
      EffectiveIff(l, c.claim, q.recordedAt, c.effective);
    }
    forall i, j | 0 <= i < j < |p.candidates| ensures Outranks(p.candidates[i], p.candidates[j]) { SelectedWins(l, q, i, j); }
    if p.candidates != [] {
      forall c { NoHiddenConflicts(l, q, c); }
      assert Ranked(p.candidates);
      FilterRanked(p.candidates, ConflictsWith(p.candidates[0]));
    }
  }

  ghost function ClaimsAbout(l: Ledger, q: Query): set<Claim> {
    set c | c in l.claims && c.subject == q.subject && c.predicateId == q.predicateId
  }

  ghost function ClaimsKnown(l: Ledger, q: Query): set<Claim> {
    set c | c in ClaimsAbout(l, q) && c.transactionTime.from <= q.recordedAt &&
            (c.transactionTime.to.Some? ==> q.recordedAt < c.transactionTime.to.value)
  }

  ghost function ClaimsValid(l: Ledger, q: Query): set<Claim> {
    set c | c in ClaimsKnown(l, q) && c.validTime.from <= q.validAt && (c.validTime.to.Some? ==> q.validAt < c.validTime.to.value)
  }

  /** The trace counts the claims that the query is about, those known then, those also valid then, and the candidates. */
  ghost predicate Traces(l: Ledger, q: Query, p: Projection, counts: Counts) {
    counts == Counts(|ClaimsAbout(l, q)|, |ClaimsKnown(l, q)|, |ClaimsValid(l, q)|, |p.candidates|)
  }

  lemma DiscoveredCount(l: Ledger, q: Query)
    requires WellFormed(l)
    ensures |History(l, q)| == |ClaimsAbout(l, q)|
  {
    var about := Filter(l.claims, About(q));
    SubClaimsOrdered(l.claims, About(q));
    SortPermutes(about, ByRecorded);
    MultisetDistinct(about, History(l, q));
    SortElements(about, ByRecorded);
    forall c ensures c in ToSet(History(l, q)) <==> c in ClaimsAbout(l, q) { FilterMember(l.claims, About(q), c); }
    assert ToSet(History(l, q)) == ClaimsAbout(l, q);
    DistinctCardinality(History(l, q));
  }

  lemma KnownCount(l: Ledger, q: Query)
    requires WellFormed(l)
    ensures |KnownClaims(l, q)| == |ClaimsKnown(l, q)|
  {
    KnownIsSorted(l, q);
    forall c ensures c in ToSet(KnownClaims(l, q)) <==> c in ClaimsKnown(l, q) { KnownElements(l, q, c); }
    assert ToSet(KnownClaims(l, q)) == ClaimsKnown(l, q);
    DistinctCardinality(KnownClaims(l, q));
  }

  lemma TraceMeans(l: Ledger, q: Query)
    requires WellFormed(l)
    ensures Traces(l, q, ProjectAt(l, q), TraceCounts(l, q))
  {
    DiscoveredCount(l, q);
    KnownCount(l, q);
    ValidDistinct(l, q);
    forall c ensures c in ToSet(ValidClaims(l, q)) <==> c in ClaimsValid(l, q) { ValidElements(l, q, c); }
    assert ToSet(ValidClaims(l, q)) == ClaimsValid(l, q);
    DistinctCardinality(ValidClaims(l, q));
  }

  // ----- time travel -----

  ghost predicate FreshIds(records: seq<Record>) {
    forall i, j :: 0 <= i < j < |records| ==> IdOf(records[i]) != IdOf(records[j])
  }

  ghost predicate TargetBefore(records: seq<Record>, i: nat, id: int)
    requires i <= |records|
  {
    exists j :: 0 <= j < i && records[j].ClaimRecord? && records[j].claim.id == id
  }

  ghost predicate TargetsFirst(records: seq<Record>) {
    forall i :: 0 <= i < |records| && records[i].TransitionRecord? ==> TargetBefore(records, i, records[i].transition.targetId)
  }

  ghost predicate Holds(l: Ledger, records: seq<Record>) {
    && (forall c :: c in l.claims <==> ClaimRecord(c) in records)
    && forall t :: t in l.transitions <==> TransitionRecord(t) in records
  }

  lemma AppendHolds(l: Ledger, records: seq<Record>, r: Record)
    requires Holds(l, records) && Append(l, r).Ok?
    ensures Holds(Append(l, r).value, records + [r])
  {
  }

  lemma HoldsIds(l: Ledger, records: seq<Record>, id: int)
    requires Holds(l, records)
    ensures HasId(l, id) <==> exists i :: 0 <= i < |records| && IdOf(records[i]) == id
    ensures HasClaim(l, id) <==> TargetBefore(records, |records|, id)
  {
    forall i | 0 <= i < |l.claims| ensures ClaimRecord(l.claims[i]) in records { assert l.claims[i] in l.claims; }
    forall i | 0 <= i < |l.transitions| ensures TransitionRecord(l.transitions[i]) in records {
      assert l.transitions[i] in l.transitions;
    }
    forall i | 0 <= i < |records|
      ensures match records[i] case ClaimRecord(c) => c in l.claims case TransitionRecord(t) => t in l.transitions
    {
      assert records[i] in records;
    }
  }

  lemma PrefixConditions(records: seq<Record>, r: Record)
    ensures FreshIds(records + [r]) <==> FreshIds(records) && forall i :: 0 <= i < |records| ==> IdOf(records[i]) != IdOf(r)
    ensures TargetsFirst(records + [r]) <==>
            TargetsFirst(records) && (r.TransitionRecord? ==> TargetBefore(records, |records|, r.transition.targetId))
  {
    var all := records + [r];
    assert forall i :: 0 <= i < |records| ==> all[i] == records[i];
    assert all[|records|] == r;
    forall i, id | 0 <= i <= |records| ensures TargetBefore(all, i, id) <==> TargetBefore(records, i, id) {
      if TargetBefore(all, i, id) {
        var j :| 0 <= j < i && all[j].ClaimRecord? && all[j].claim.id == id;
        assert records[j].claim.id == id;
      }
      if TargetBefore(records, i, id) {
        var j :| 0 <= j < i && records[j].ClaimRecord? && records[j].claim.id == id;
        assert all[j].claim.id == id;
      }
    }
  }

  /** A list of records is accepted exactly when ids are fresh and every target comes first. */
  lemma {:induction false} AppendAllAccepts(records: seq<Record>)
    ensures AppendAll(records).Ok? <==> FreshIds(records) && TargetsFirst(records)
    ensures AppendAll(records).Ok? ==> Holds(AppendAll(records).value, records)
    decreases |records|
  {
    if records != [] {
      var init, r := records[..|records| - 1], records[|records| - 1];
      SplitLast(records);
      AppendAllAccepts(init);
      PrefixConditions(init, r);
      if AppendAll(init).Ok? {
        HoldsIds(AppendAll(init).value, init, IdOf(r));
        if r.TransitionRecord? { HoldsIds(AppendAll(init).value, init, r.transition.targetId); }
        if AppendAll(records).Ok? { AppendHolds(AppendAll(init).value, init, r); }
      }
    }
  }

  /** Records of a well-formed ledger, sorted, up to a limit. */
  lemma ReplayedElements(l: Ledger, limit: Option<int>, r: Record)
    ensures r in ReplayOrder(CanonicalRecords(l), limit) <==>
            Until(limit)(r) && match r case ClaimRecord(c) => c in l.claims case TransitionRecord(t) => t in l.transitions
  {
    var all := ClaimRecords(l.claims) + TransitionRecords(l.transitions);
    SortElements(all, ByRecord);
    FilterMember(CanonicalRecords(l), Until(limit), r);
    SortElements(Filter(CanonicalRecords(l), Until(limit)), ByRecord);
    match r
    case ClaimRecord(c) =>
      if c in l.claims {
        var i :| 0 <= i < |l.claims| && l.claims[i] == c;
        assert all[i] == r;
      }
    case TransitionRecord(t) =>
      if t in l.transitions {
        var i :| 0 <= i < |l.transitions| && l.transitions[i] == t;
        assert all[|l.claims| + i] == r;
      }
  }

  lemma RecordsFresh(l: Ledger)
    requires WellFormed(l)
    ensures FreshIds(ClaimRecords(l.claims) + TransitionRecords(l.transitions))
  {
    var all := ClaimRecords(l.claims) + TransitionRecords(l.transitions);
    forall i, j | 0 <= i < j < |all| ensures IdOf(all[i]) != IdOf(all[j]) {
      if i < |l.claims| <= j {
        assert l.claims[i] in l.claims && l.transitions[j - |l.claims|] in l.transitions;
      }
    }
  }

  lemma FreshIsDistinct(records: seq<Record>)
    requires FreshIds(records)
    ensures Distinct(records)
    ensures forall r, s :: r in records && s in records && IdOf(r) == IdOf(s) ==> r == s
  {
  }

  lemma DistinctIsFresh(records: seq<Record>)
    requires Distinct(records)
    requires forall r, s :: r in records && s in records && IdOf(r) == IdOf(s) ==> r == s
    ensures FreshIds(records)
  {
    forall i, j | 0 <= i < j < |records| ensures IdOf(records[i]) != IdOf(records[j]) {
      assert records[i] in records && records[j] in records;
    }
  }

  lemma ReplayOrderFresh(l: Ledger, limit: Option<int>)
    requires WellFormed(l)
    ensures FreshIds(ReplayOrder(CanonicalRecords(l), limit))
    ensures SortedBy(ReplayOrder(CanonicalRecords(l), limit), ByRecord)
  {
    var all := ClaimRecords(l.claims) + TransitionRecords(l.transitions);
    var kept := Filter(CanonicalRecords(l), Until(limit));
    var rs := ReplayOrder(CanonicalRecords(l), limit);
    RecordsFresh(l);
    FreshIsDistinct(all);
    SortPermutes(all, ByRecord);
    MultisetDistinct(all, CanonicalRecords(l));
    FilterDistinct(CanonicalRecords(l), Until(limit));
    SortPermutes(kept, ByRecord);
    MultisetDistinct(kept, rs);
    SortSorts(kept, ByRecord);
    forall r | r in rs ensures r in all {
      SortElements(kept, ByRecord);
      FilterMember(CanonicalRecords(l), Until(limit), r);
      SortElements(all, ByRecord);
    }
    DistinctIsFresh(rs);
  }

  /** Every transition recorded by the limit comes after the claim it targets in (time, id) order. */
  ghost predicate TargetsPrecede(l: Ledger, limit: Option<int>) {
    forall c, t :: c in l.claims && t in l.transitions && t.targetId == c.id && (limit.None? || t.at <= limit.value) ==>
      c.transactionTime.from < t.at || (c.transactionTime.from == t.at && c.id < t.id)
  }

  lemma PrecedeFromFirst(l: Ledger, limit: Option<int>, c: Claim, t: Transition)
    requires WellFormed(l) && TargetsFirst(ReplayOrder(CanonicalRecords(l), limit))
    requires c in l.claims && t in l.transitions && t.targetId == c.id && (limit.None? || t.at <= limit.value)
    ensures Before(c.transactionTime.from, c.id, t.at, t.id)
  {
    var rs := ReplayOrder(CanonicalRecords(l), limit);
    ReplayOrderFresh(l, limit);
    ReplayedElements(l, limit, TransitionRecord(t));
    var i :| 0 <= i < |rs| && rs[i] == TransitionRecord(t);
    var j :| 0 <= j < i && rs[j].ClaimRecord? && rs[j].claim.id == t.targetId;
    ReplayedElements(l, limit, rs[j]);
    DistinctIds(l, c, rs[j].claim);
    assert ByRecord(rs[j], rs[i]);
  }

  lemma InOrder(records: seq<Record>, i: nat, j: nat)
    requires SortedBy(records, ByRecord) && i < |records| && j < |records|
    ensures j <= i || ByRecord(records[i], records[j])
  {
  }

  lemma FirstFromPrecede(l: Ledger, limit: Option<int>, i: nat)
    requires WellFormed(l) && TargetsPrecede(l, limit)
    requires i < |ReplayOrder(CanonicalRecords(l), limit)| && ReplayOrder(CanonicalRecords(l), limit)[i].TransitionRecord?
    ensures var rs := ReplayOrder(CanonicalRecords(l), limit); TargetBefore(rs, i, rs[i].transition.targetId)
  {
    var rs := ReplayOrder(CanonicalRecords(l), limit);
    var t := rs[i].transition;
    ReplayOrderFresh(l, limit);
    assert rs[i] in rs;
    ReplayedElements(l, limit, rs[i]);
    var k :| 0 <= k < |l.claims| && l.claims[k].id == t.targetId;
    var c := l.claims[k];
    assert Before(c.transactionTime.from, c.id, t.at, t.id);
    ReplayedElements(l, limit, ClaimRecord(c));
    var j :| 0 <= j < |rs| && rs[j] == ClaimRecord(c);
    InOrder(rs, i, j);
  }

  /** Replaying a ledger's records up to an instant succeeds exactly when targets precede their transitions. */
  lemma ReplayAccepts(l: Ledger, limit: Option<int>)
    requires WellFormed(l)
    ensures Replay(CanonicalRecords(l), limit).Ok? <==> TargetsPrecede(l, limit)
  {
    var rs := ReplayOrder(CanonicalRecords(l), limit);
    AppendAllAccepts(rs);
    ReplayOrderFresh(l, limit);
    if TargetsFirst(rs) {
      forall c, t | c in l.claims && t in l.transitions && t.targetId == c.id && (limit.None? || t.at <= limit.value)
        ensures c.transactionTime.from < t.at || (c.transactionTime.from == t.at && c.id < t.id)
      {
        PrecedeFromFirst(l, limit, c, t);
      }
    }
    if TargetsPrecede(l, limit) {
      forall i | 0 <= i < |rs| && rs[i].TransitionRecord? ensures TargetBefore(rs, i, rs[i].transition.targetId) {
        FirstFromPrecede(l, limit, i);
      }
    }
  }

  lemma ReplayHolds(l: Ledger, limit: Option<int>)
    requires WellFormed(l) && Replay(CanonicalRecords(l), limit).Ok?
    ensures var m := Replay(CanonicalRecords(l), limit).value;
      && WellFormed(m)
      && (forall c :: c in m.claims <==> c in l.claims && (limit.None? || c.transactionTime.from <= limit.value))
      && forall t :: t in m.transitions <==> t in l.transitions && (limit.None? || t.at <= limit.value)
  {
    var rs := ReplayOrder(CanonicalRecords(l), limit);
    AppendAllAccepts(rs);
    AppendAllWellFormed(rs);
    forall r: Record { ReplayedElements(l, limit, r); }
  }

  /** Time travel: the view at an instant is the view of the ledger replayed up to any later limit. */
  lemma TimeTravel(l: Ledger, limit: Option<int>, q: Query)
    requires WellFormed(l) && TargetsPrecede(l, limit) && (limit.None? || q.recordedAt <= limit.value)
    ensures var m := Replay(CanonicalRecords(l), limit);
      && m.Ok? && ProjectAt(m.value, q) == ProjectAt(l, q)
      && TraceCounts(m.value, q).(discovered := 0) == TraceCounts(l, q).(discovered := 0)
  {
    ReplayAccepts(l, limit);
    ReplayHolds(l, limit);
    AgreeingLedgersProjectAlike(Replay(CanonicalRecords(l), limit).value, l, q);
  }

  lemma CanonicalAgree(l: Ledger, m: Ledger)
    requires WellFormed(l) && WellFormed(m) && SameRecords(l, m)
    ensures CanonicalRecords(l) == CanonicalRecords(m)
  {
    var a, b := ClaimRecords(l.claims) + TransitionRecords(l.transitions), ClaimRecords(m.claims) + TransitionRecords(m.transitions);
    RecordsFresh(l);
    RecordsFresh(m);
    FreshIsDistinct(a);
    FreshIsDistinct(b);
    forall r ensures r in a <==> r in b {
      SortElements(a, ByRecord);
      SortElements(b, ByRecord);
      FilterMember(CanonicalRecords(l), Until(None), r);
      FilterMember(CanonicalRecords(m), Until(None), r);
      SortElements(Filter(CanonicalRecords(l), Until(None)), ByRecord);
      SortElements(Filter(CanonicalRecords(m), Until(None)), ByRecord);
      ReplayedElements(l, None, r);
      ReplayedElements(m, None, r);
    }
    DistinctIsMultiset(a, b);
    SortForgetsOrder(a, b, ByRecord);
  }

  /** A full replay writes back the records it was built from. */
  lemma ReplayRoundTrip(l: Ledger)
    requires WellFormed(l) && TargetsPrecede(l, None)
    ensures var m := Replay(CanonicalRecords(l), None);
      m.Ok? && SameRecords(m.value, l) && CanonicalRecords(m.value) == CanonicalRecords(l)
  {
    ReplayAccepts(l, None);
    ReplayHolds(l, None);
    CanonicalAgree(Replay(CanonicalRecords(l), None).value, l);
  }

  /** `append` never compares times, so a ledger can be built whose own records do not replay. */
  lemma BackdatedTransitionBreaksReplay(c: Claim, t: Transition)
    requires t.targetId == c.id && t.id != c.id && t.at < c.transactionTime.from
    ensures var l := Ledger([c], [t]);
      && AppendAll([ClaimRecord(c), TransitionRecord(t)]) == Ok(l)
      && !Replay(CanonicalRecords(l), None).Ok?
  {
    var l := Ledger([c], [t]);
    var first, records := [ClaimRecord(c)], [ClaimRecord(c), TransitionRecord(t)];
    assert records[..1] == first && first[..0] == [];
    var empty := Ledger([], []);
    assert AppendAll(first[..0]) == Ok(empty) && !HasId(empty, c.id) && empty.claims + [c] == [c];
    assert AppendAll(first) == Append(empty, ClaimRecord(c)) == Ok(Ledger([c], []));
    assert HasClaim(Ledger([c], []), t.targetId) by { assert Ledger([c], []).claims[0].id == t.targetId; }
    assert !HasId(Ledger([c], []), t.id) && Ledger([c], []).transitions + [t] == [t];
    assert AppendAll(records) == Append(Ledger([c], []), TransitionRecord(t));
    AppendAllWellFormed(records);
    ReplayAccepts(l, None);
    assert c in l.claims && t in l.transitions;
  }

  // ----- replaying any list of records -----

  /** When the record was made, and its id. */
  function Stamp(r: Record): (int, int) {
    match r case ClaimRecord(c) => (c.transactionTime.from, c.id) case TransitionRecord(t) => (t.at, t.id)
  }

  ghost predicate Chronological(records: seq<Record>) {
    forall i, j :: 0 <= i < j < |records| ==>
      Stamp(records[i]).0 < Stamp(records[j]).0 || (Stamp(records[i]).0 == Stamp(records[j]).0 && Stamp(records[i]).1 <= Stamp(records[j]).1)
  }

  predicate InTime(r: Record, limit: Option<int>) {
    limit.Some? ==> Stamp(r).0 <= limit.value
  }

  ghost predicate FreshInTime(records: seq<Record>, limit: Option<int>) {
    forall i, j :: 0 <= i < j < |records| && InTime(records[i], limit) && InTime(records[j], limit) ==>
      Stamp(records[i]).1 != Stamp(records[j]).1
  }

  /** The transition's target is a claim of the list that comes before it. */
  ghost predicate Grounded(records: seq<Record>, t: Transition) {
    exists c :: ClaimRecord(c) in records && c.id == t.targetId &&
      (c.transactionTime.from < t.at || (c.transactionTime.from == t.at && c.id < t.id))
  }

  ghost predicate Avoids(records: seq<Record>, id: int) {
    forall s :: s in records ==> IdOf(s) != id
  }

  ghost predicate AvoidsInTime(records: seq<Record>, limit: Option<int>, id: int) {
    forall s :: s in records && InTime(s, limit) ==> Stamp(s).1 != id
  }

  lemma FreshCons(r: Record, kept: seq<Record>)
    ensures FreshIds([r] + kept) <==> FreshIds(kept) && Avoids(kept, IdOf(r))
  {
    var all := [r] + kept;
    if FreshIds(all) {
      forall i, j | 0 <= i < j < |kept| ensures IdOf(kept[i]) != IdOf(kept[j]) { assert all[i + 1] == kept[i] && all[j + 1] == kept[j]; }
      forall s | s in kept ensures IdOf(s) != IdOf(r) {
        var k :| 0 <= k < |kept| && kept[k] == s;
        assert all[k + 1] == s && all[0] == r;
      }
    }
  }

  lemma FreshInTimeCons(records: seq<Record>, limit: Option<int>)
    requires records != []
    ensures FreshInTime(records, limit) <==>
      FreshInTime(records[1..], limit) && (InTime(records[0], limit) ==> AvoidsInTime(records[1..], limit, Stamp(records[0]).1))
  {
    var rest := records[1..];
    assert forall i :: 0 <= i < |rest| ==> rest[i] == records[i + 1];
    assert forall i :: 0 < i < |records| ==> records[i] == rest[i - 1] && records[i] in rest;
  }

  lemma FilterAvoids(records: seq<Record>, limit: Option<int>, id: int)
    ensures Avoids(Filter(records, Until(limit)), id) <==> AvoidsInTime(records, limit, id)
  {
    forall s ensures s in Filter(records, Until(limit)) <==> s in records && InTime(s, limit) {
      FilterMember(records, Until(limit), s);
    }
    assert forall s :: IdOf(s) == Stamp(s).1;
  }

  lemma FilterCons(records: seq<Record>, limit: Option<int>)
    requires records != []
    ensures var kept := Filter(records[1..], Until(limit));
      Filter(records, Until(limit)) == if InTime(records[0], limit) then [records[0]] + kept else kept
  {
  }

  lemma {:induction false} FilterFresh(records: seq<Record>, limit: Option<int>)
    ensures FreshIds(Filter(records, Until(limit))) <==> FreshInTime(records, limit)
    decreases |records|
  {
    if records != [] {
      FilterFresh(records[1..], limit);
      FreshInTimeCons(records, limit);
      FilterCons(records, limit);
      FreshCons(records[0], Filter(records[1..], Until(limit)));
      FilterAvoids(records[1..], limit, Stamp(records[0]).1);
    }
  }

  lemma PermutationFresh(a: seq<Record>, b: seq<Record>)
    requires multiset(a) == multiset(b) && FreshIds(a)
    ensures FreshIds(b)
  {
    FreshIsDistinct(a);
    MultisetDistinct(a, b);
    SameElements(a, b);
    DistinctIsFresh(b);
  }

  lemma OrderFresh(records: seq<Record>, limit: Option<int>)
    ensures FreshIds(ReplayOrder(records, limit)) <==> FreshInTime(records, limit)
  {
    var kept := Filter(records, Until(limit));
    FilterFresh(records, limit);
    SortPermutes(kept, ByRecord);
    if FreshIds(kept) { PermutationFresh(kept, ReplayOrder(records, limit)); }
    if FreshIds(ReplayOrder(records, limit)) { PermutationFresh(ReplayOrder(records, limit), kept); }
  }

  lemma OrderMembers(records: seq<Record>, limit: Option<int>, r: Record)
    ensures r in ReplayOrder(records, limit) <==> r in records && InTime(r, limit)
  {
    FilterMember(records, Until(limit), r);
    SortElements(Filter(records, Until(limit)), ByRecord);
  }

  lemma FirstMeansGrounded(records: seq<Record>, limit: Option<int>, t: Transition)
    requires FreshIds(ReplayOrder(records, limit)) && TargetsFirst(ReplayOrder(records, limit))
    requires TransitionRecord(t) in records && InTime(TransitionRecord(t), limit)
    ensures Grounded(records, t)
  {
    var rs := ReplayOrder(records, limit);
    OrderMembers(records, limit, TransitionRecord(t));
    SortSorts(Filter(records, Until(limit)), ByRecord);
    var i :| 0 <= i < |rs| && rs[i] == TransitionRecord(t);
    var j :| 0 <= j < i && rs[j].ClaimRecord? && rs[j].claim.id == t.targetId;
    OrderMembers(records, limit, rs[j]);
    assert ByRecord(rs[j], rs[i]) && IdOf(rs[j]) != IdOf(rs[i]);
    assert rs[j] == ClaimRecord(rs[j].claim);
  }

  lemma GroundedMeansFirst(records: seq<Record>, limit: Option<int>, i: nat)
    requires var rs := ReplayOrder(records, limit); i < |rs| && rs[i].TransitionRecord? && Grounded(records, rs[i].transition)
    ensures var rs := ReplayOrder(records, limit); TargetBefore(rs, i, rs[i].transition.targetId)
  {
    var rs := ReplayOrder(records, limit);
    var t := rs[i].transition;
    var c :| ClaimRecord(c) in records && c.id == t.targetId &&
      (c.transactionTime.from < t.at || (c.transactionTime.from == t.at && c.id < t.id));
    OrderMembers(records, limit, rs[i]);
    OrderMembers(records, limit, ClaimRecord(c));
    SortSorts(Filter(records, Until(limit)), ByRecord);
    var j :| 0 <= j < |rs| && rs[j] == ClaimRecord(c);
    InOrder(rs, i, j);
  }

  /**
   Replaying any list of records up to an instant succeeds if and only if those by then have different ids and
   each transition among them targets a claim that comes before it; it holds exactly those records.
   */
  lemma ReplayIff(records: seq<Record>, limit: Option<int>)
    ensures Replay(records, limit).Ok? <==>
      && FreshInTime(records, limit)
      && forall t :: TransitionRecord(t) in records && InTime(TransitionRecord(t), limit) ==> Grounded(records, t)
    ensures Replay(records, limit).Ok? ==>
      && (forall c :: c in Replay(records, limit).value.claims <==> ClaimRecord(c) in records && InTime(ClaimRecord(c), limit))
      && forall t :: t in Replay(records, limit).value.transitions <==> TransitionRecord(t) in records && InTime(TransitionRecord(t), limit)
  {
    var rs := ReplayOrder(records, limit);
    AppendAllAccepts(rs);
    OrderFresh(records, limit);
    forall r { OrderMembers(records, limit, r); }
    if FreshIds(rs) && TargetsFirst(rs) {
      forall t | TransitionRecord(t) in records && InTime(TransitionRecord(t), limit) ensures Grounded(records, t) {
        FirstMeansGrounded(records, limit, t);
      }
    }
    if forall t :: TransitionRecord(t) in records && InTime(TransitionRecord(t), limit) ==> Grounded(records, t) {
      forall i | 0 <= i < |rs| && rs[i].TransitionRecord? ensures TargetBefore(rs, i, rs[i].transition.targetId) {
        assert rs[i] in rs && rs[i] == TransitionRecord(rs[i].transition);
        GroundedMeansFirst(records, limit, i);
      }
    }
  }

  /** The records are those of the ledger, each once, in the order they were made. */
  ghost predicate Lists(l: Ledger, records: seq<Record>) {
    && |records| == |l.claims| + |l.transitions|
    && (forall c :: c in l.claims <==> ClaimRecord(c) in records)
    && (forall t :: t in l.transitions <==> TransitionRecord(t) in records)
    && Chronological(records)
  }

  lemma CanonicalLists(l: Ledger)
    ensures Lists(l, CanonicalRecords(l))
  {
    var all, records := ClaimRecords(l.claims) + TransitionRecords(l.transitions), CanonicalRecords(l);
    SortElements(all, ByRecord);
    CanonicalChronological(l);
    forall c ensures c in l.claims <==> ClaimRecord(c) in records {
      if c in l.claims {
        var i :| 0 <= i < |l.claims| && l.claims[i] == c;
        assert all[i] == ClaimRecord(c);
      }
    }
    forall t ensures t in l.transitions <==> TransitionRecord(t) in records {
      if t in l.transitions {
        var i :| 0 <= i < |l.transitions| && l.transitions[i] == t;
        assert all[|l.claims| + i] == TransitionRecord(t);
      }
    }
  }

  lemma CanonicalChronological(l: Ledger)
    ensures Chronological(CanonicalRecords(l))
  {
    var records := CanonicalRecords(l);
    SortSorts(ClaimRecords(l.claims) + TransitionRecords(l.transitions), ByRecord);
    forall i, j | 0 <= i < j < |records|
      ensures Stamp(records[i]).0 < Stamp(records[j]).0 ||
              (Stamp(records[i]).0 == Stamp(records[j]).0 && Stamp(records[i]).1 <= Stamp(records[j]).1)
    {
      assert ByRecord(records[i], records[j]);
    }
  }

  // ----- the ledger object -----

  function Flatten(order: seq<int>, byTarget: map<int, seq<Transition>>): seq<Transition>
  {
    if order == [] then [] else At(byTarget, order[0]) + Flatten(order[1..], byTarget)
  }

  function At(byTarget: map<int, seq<Transition>>, id: int): seq<Transition> {
    if id in byTarget then byTarget[id] else []
  }

  /** `#lifecycleByTarget`: per target, in append order; `order` is the map's iteration order. */
  ghost predicate Grouped(order: seq<int>, byTarget: map<int, seq<Transition>>, transitions: seq<Transition>) {
    && Distinct(order)
    && (forall id :: id in order <==> id in byTarget)
    && (forall id :: id in byTarget ==> byTarget[id] == Filter(transitions, OnTarget(id)))
    && forall t :: t in transitions ==> t.targetId in byTarget
  }

  lemma HeadIn<T>(s: seq<T>)
    ensures s != [] ==> s[0] in s
  {
  }

  lemma GroupedAt(order: seq<int>, byTarget: map<int, seq<Transition>>, transitions: seq<Transition>, id: int)
    requires Grouped(order, byTarget, transitions)
    ensures At(byTarget, id) == Filter(transitions, OnTarget(id))
  {
    HeadIn(Filter(transitions, OnTarget(id)));
    FilterElements(transitions, OnTarget(id));
  }

  lemma GroupedPush(order: seq<int>, byTarget: map<int, seq<Transition>>, transitions: seq<Transition>, t: Transition)
    requires Grouped(order, byTarget, transitions)
    ensures Grouped(if t.targetId in byTarget then order else order + [t.targetId],
                    byTarget[t.targetId := At(byTarget, t.targetId) + [t]], transitions + [t])
  {
    var pushed := byTarget[t.targetId := At(byTarget, t.targetId) + [t]];
    forall id | id in pushed ensures pushed[id] == Filter(transitions + [t], OnTarget(id)) {
      FilterAppend(transitions, [t], OnTarget(id));
      GroupedAt(order, byTarget, transitions, id);
      assert [t][1..] == [];
    }
  }

  lemma {:induction false} FlattenCounts(
    order: seq<int>, byTarget: map<int, seq<Transition>>, transitions: seq<Transition>, t: Transition)
    requires Distinct(order) && forall i :: 0 <= i < |order| ==> At(byTarget, order[i]) == Filter(transitions, OnTarget(order[i]))
    ensures multiset(Flatten(order, byTarget))[t] == if t.targetId in order then multiset(transitions)[t] else 0
    decreases |order|
  {
    if order != [] {
      FlattenCounts(order[1..], byTarget, transitions, t);
      FilterMultiset(transitions, OnTarget(order[0]), t);
      assert order == [order[0]] + order[1..];
    }
  }

  lemma FlattenPermutes(order: seq<int>, byTarget: map<int, seq<Transition>>, transitions: seq<Transition>)
    requires Grouped(order, byTarget, transitions)
    ensures multiset(Flatten(order, byTarget)) == multiset(transitions)
  {
    forall t ensures multiset(Flatten(order, byTarget))[t] == multiset(transitions)[t] {
      FlattenCounts(order, byTarget, transitions, t);
    }
  }

  /** `canonicalRecords` lists transitions target by target before it sorts; the sort hides that. */
  lemma FlattenedRecords(l: Ledger, order: seq<int>, byTarget: map<int, seq<Transition>>)
    requires WellFormed(l) && Grouped(order, byTarget, l.transitions)
    ensures SortBy(ClaimRecords(l.claims) + TransitionRecords(Flatten(order, byTarget)), ByRecord) == CanonicalRecords(l)
  {
    var flat := Flatten(order, byTarget);
    FlattenPermutes(order, byTarget, l.transitions);
    SameElements(flat, l.transitions);
    TransitionsOrdered(l.transitions);
    MultisetDistinct(l.transitions, flat);
    FlatIsWellFormed(l, flat);
    CanonicalAgree(Ledger(l.claims, flat), l);
  }

  lemma FlatIsWellFormed(l: Ledger, flat: seq<Transition>)
    requires WellFormed(l) && Distinct(flat) && forall t :: t in flat <==> t in l.transitions
    ensures WellFormed(Ledger(l.claims, flat))
  {
    forall i, j | 0 <= i < j < |flat| ensures flat[i].id != flat[j].id {
      assert flat[i] in flat && flat[j] in flat;
      TransitionsOrdered(l.transitions);
      SameTransition(l, flat[i], flat[j]);
    }
    forall t | t in flat ensures HasClaim(Ledger(l.claims, flat), t.targetId) {
      assert HasClaim(l, t.targetId);
      var i :| 0 <= i < |l.claims| && l.claims[i].id == t.targetId;
      assert Ledger(l.claims, flat).claims[i].id == t.targetId;
    }
  }

  lemma SameTransition(l: Ledger, s: Transition, t: Transition)
    requires WellFormed(l) && s in l.transitions && t in l.transitions
    ensures s.id == t.id ==> s == t
  {
    var i :| 0 <= i < |l.transitions| && l.transitions[i] == s;
    var j :| 0 <= j < |l.transitions| && l.transitions[j] == t;
  }

  lemma AppendIds(l: Ledger, r: Record, id: int)
    requires Append(l, r).Ok?
    ensures HasId(Append(l, r).value, id) <==> HasId(l, id) || id == IdOf(r)
    ensures r.ClaimRecord? ==> (HasClaim(Append(l, r).value, id) <==> HasClaim(l, id) || id == IdOf(r))
    ensures r.TransitionRecord? ==> (HasClaim(Append(l, r).value, id) <==> HasClaim(l, id))
  {
    var m := Append(l, r).value;
    if HasId(l, id) {
      if i :| 0 <= i < |l.claims| && l.claims[i].id == id { assert m.claims[i].id == id; }
      else { var i :| 0 <= i < |l.transitions| && l.transitions[i].id == id; assert m.transitions[i].id == id; }
    }
    if HasClaim(l, id) {
      var i :| 0 <= i < |l.claims| && l.claims[i].id == id;
      assert m.claims[i].id == id;
    }
    match r
    case ClaimRecord(c) => assert m.claims[|l.claims|].id == c.id;
    case TransitionRecord(t) => assert m.transitions[|l.transitions|].id == t.id;
  }

  /** `#recordIds` and the keys of `#claimsById`. */
  ghost predicate Indexed(l: Ledger, recordIds: set<int>, claimIds: set<int>) {
    && (forall id :: id in recordIds <==> HasId(l, id))
    && forall id :: id in claimIds <==> HasClaim(l, id)
  }

  lemma IndexedAfter(l: Ledger, r: Record, recordIds: set<int>, claimIds: set<int>)
    requires Indexed(l, recordIds, claimIds) && Append(l, r).Ok?
    ensures Indexed(Append(l, r).value, recordIds + {IdOf(r)}, if r.ClaimRecord? then claimIds + {r.claim.id} else claimIds)
  {
    forall id { AppendIds(l, r, id); }
  }

  ghost predicate Represents(
    l: Ledger, order: seq<int>, byTarget: map<int, seq<Transition>>, recordIds: set<int>, claimIds: set<int>)
  {
    WellFormed(l) && Grouped(order, byTarget, l.transitions) && Indexed(l, recordIds, claimIds)
  }

  lemma ClaimRepresented(
    l: Ledger, order: seq<int>, byTarget: map<int, seq<Transition>>, recordIds: set<int>, claimIds: set<int>, c: Claim)
    requires Represents(l, order, byTarget, recordIds, claimIds) && c.id !in recordIds
    ensures var m := l.(claims := l.claims + [c]);
      Append(l, ClaimRecord(c)) == Ok(m) && Represents(m, order, byTarget, recordIds + {c.id}, claimIds + {c.id})
  {
    AppendKeepsWellFormed(l, ClaimRecord(c));
    IndexedAfter(l, ClaimRecord(c), recordIds, claimIds);
  }

  lemma TransitionRepresented(
    l: Ledger, order: seq<int>, byTarget: map<int, seq<Transition>>, recordIds: set<int>, claimIds: set<int>, t: Transition)
    requires Represents(l, order, byTarget, recordIds, claimIds) && t.id !in recordIds && t.targetId in claimIds
    ensures var m := l.(transitions := l.transitions + [t]);
      && Append(l, TransitionRecord(t)) == Ok(m)
      && Represents(m, if t.targetId in byTarget then order else order + [t.targetId],
                    byTarget[t.targetId := At(byTarget, t.targetId) + [t]], recordIds + {t.id}, claimIds)
  {
    AppendKeepsWellFormed(l, TransitionRecord(t));
    IndexedAfter(l, TransitionRecord(t), recordIds, claimIds);
    GroupedPush(order, byTarget, l.transitions, t);
  }

  class ClaimLedger {
    /** The values of `#claimsById` in insertion order. */
    var claims: seq<Claim>
    var claimIds: set<int>
    var lifecycleByTarget: map<int, seq<Transition>>
    var targets: seq<int>
    var recordIds: set<int>
    ghost var transitions: seq<Transition>

    ghost function Contents(): Ledger
      reads this
    {
      Ledger(claims, transitions)
    }

    ghost predicate Valid()
      reads this
    {
      Represents(Contents(), targets, lifecycleByTarget, recordIds, claimIds)
    }

    constructor ()
      ensures Valid() && Contents() == Ledger([], [])
    {
      claims, claimIds, lifecycleByTarget, targets, recordIds, transitions := [], {}, map[], [], {}, [];
    }

    method AppendClaim(claim: Claim) returns (thrown: Option<LedgerError>)
      requires Valid()
      modifies this
      ensures Valid()
      ensures match Append(old(Contents()), ClaimRecord(claim))
        case Ok(l) => thrown == None && Contents() == l
        case Err(e) => thrown == Some(e) && Contents() == old(Contents())
      ensures thrown == if old(UsesId(Contents(), claim.id)) then Some(DuplicateRecord(claim.id)) else None
      ensures claims == (if thrown.None? then old(claims) + [claim] else old(claims)) && transitions == old(transitions)
    {
      AppendMeans(Contents(), ClaimRecord(claim));
      if claim.id in recordIds { return Some(DuplicateRecord(claim.id)); }
      ClaimRepresented(Contents(), targets, lifecycleByTarget, recordIds, claimIds, claim);
      claims := claims + [claim];
      claimIds := claimIds + {claim.id};
      recordIds := recordIds + {claim.id};
      return None;
    }

    method AppendLifecycleTransition(transition: Transition) returns (thrown: Option<LedgerError>)
      requires Valid()
      modifies this
      ensures Valid()
      ensures match Append(old(Contents()), TransitionRecord(transition))
        case Ok(l) => thrown == None && Contents() == l
        case Err(e) => thrown == Some(e) && Contents() == old(Contents())
      ensures thrown ==
        if old(UsesId(Contents(), transition.id)) then Some(DuplicateRecord(transition.id))
        else if forall c :: c in claims ==> c.id != transition.targetId then Some(MissingTarget(transition.targetId))
        else None
      ensures transitions == (if thrown.None? then old(transitions) + [transition] else old(transitions)) && claims == old(claims)
    {
      if transition.id in recordIds {
        thrown := Some(DuplicateRecord(transition.id));
      } else if transition.targetId !in claimIds {
        thrown := Some(MissingTarget(transition.targetId));
      } else {
        TransitionRepresented(Contents(), targets, lifecycleByTarget, recordIds, claimIds, transition);
        var history := At(lifecycleByTarget, transition.targetId) + [transition];
        if transition.targetId !in lifecycleByTarget { targets := targets + [transition.targetId]; }
        lifecycleByTarget := lifecycleByTarget[transition.targetId := history];
        recordIds := recordIds + {transition.id};
        transitions := transitions + [transition];
        thrown := None;
      }
      AppendMeans(old(Contents()), TransitionRecord(transition));
    }

    /** The body of the replay loop. */
    method AppendRecord(record: Record) returns (thrown: Option<LedgerError>)
      requires Valid()
      modifies this
      ensures Valid()
      ensures match Append(old(Contents()), record)
        case Ok(l) => thrown == None && Contents() == l
        case Err(e) => thrown == Some(e) && Contents() == old(Contents())
    {
      match record {
        case ClaimRecord(claim) => thrown := AppendClaim(claim);
        case TransitionRecord(transition) => thrown := AppendLifecycleTransition(transition);
      }
    }

    /** Builds a ledger from records in any order; a rejected record ends the replay. */
    static method FromRecords(records: seq<Record>, until: Option<int>) returns (ledger: ClaimLedger, thrown: Option<LedgerError>)
      ensures fresh(ledger) && ledger.Valid()
      ensures match Replay(records, until)
        case Ok(l) => thrown == None && ledger.Contents() == l
        case Err(e) => thrown == Some(e)
      ensures thrown == None <==>
        && FreshInTime(records, until)
        && forall t :: TransitionRecord(t) in records && InTime(TransitionRecord(t), until) ==> Grounded(records, t)
      ensures thrown == None ==>
        && (forall c :: c in ledger.claims <==> ClaimRecord(c) in records && InTime(ClaimRecord(c), until))
        && forall t :: t in ledger.transitions <==> TransitionRecord(t) in records && InTime(TransitionRecord(t), until)
    {
      ledger := new ClaimLedger();
      thrown := None;
      var ordered := ReplayOrder(records, until);
      for i := 0 to |ordered|
        invariant fresh(ledger) && ledger.Valid() && thrown == None
        invariant AppendAll(ordered[..i]) == Ok(ledger.Contents())
      {
        assert ordered[..i + 1][..i] == ordered[..i];
        thrown := ledger.AppendRecord(ordered[i]);
        if thrown.Some? {
          AppendAllStops(ordered, i + 1);
          ReplayIff(records, until);
          return;
        }
      }
      assert ordered[..|ordered|] == ordered;
      ReplayIff(records, until);
    }

    method ListRecords() returns (records: seq<Record>)
      requires Valid()
      ensures records == CanonicalRecords(Contents())
      ensures Lists(Contents(), records)
    {
      CanonicalLists(Contents());
      FlattenedRecords(Contents(), targets, lifecycleByTarget);
      records := SortBy(ClaimRecords(claims) + TransitionRecords(Flatten(targets, lifecycleByTarget)), ByRecord);
    }

    method EffectiveStatus(claim: Claim, recordedAt: int) returns (status: Lifecycle)
      requires Valid()
      ensures status == EffectiveLifecycle(Contents(), claim, recordedAt)
      ensures IsEffective(Contents(), claim, recordedAt, status)
    {
      EffectiveIff(Contents(), claim, recordedAt, EffectiveLifecycle(Contents(), claim, recordedAt));
      GroupedAt(targets, lifecycleByTarget, transitions, claim.id);
      var applicable := Filter(SortBy(At(lifecycleByTarget, claim.id), ByTransition), ByThen(recordedAt));
      status := if applicable == [] then claim.lifecycle else applicable[|applicable| - 1].status;
    }

    method AttachLifecycle(valid: seq<Claim>, recordedAt: int) returns (projected: seq<Projected>)
      requires Valid()
      ensures projected == WithLifecycle(Contents(), valid, recordedAt)
    {
      projected := [];
      for i := 0 to |valid|
        invariant projected == WithLifecycle(Contents(), valid, recordedAt)[..i]
      {
        var effective := EffectiveStatus(valid[i], recordedAt);
        projected := projected + [Projected(valid[i], effective)];
      }
    }

    method Project(query: Query) returns (projection: Projection, trace: Counts)
      requires Valid()
      ensures projection == ProjectAt(Contents(), query) && trace == TraceCounts(Contents(), query)
      ensures Projects(Contents(), query, projection) && Traces(Contents(), query, projection, trace)
    {
      ProjectionMeans(Contents(), query);
      TraceMeans(Contents(), query);
      var discovered := SortBy(Filter(claims, About(query)), ByRecorded);
      var known := Filter(discovered, KnownAt(query.recordedAt));
      var valid := Filter(known, ValidAt(query.validAt));
      var projected := AttachLifecycle(valid, query.recordedAt);
      var governing := SortBy(Filter(projected, Governs()), ByPriority);
      projection := Select(governing);
      trace := Counts(|discovered|, |known|, |valid|, |governing|);
    }
  }

  lemma {:induction false} AppendAllStops(records: seq<Record>, k: nat)
    requires k <= |records| && AppendAll(records[..k]).Err?
    ensures AppendAll(records) == AppendAll(records[..k])
    decreases |records|
  {
    if k == |records| {
      assert records[..k] == records;
    } else {
      var init := records[..|records| - 1];
      assert init[..k] == records[..k];
      AppendAllStops(init, k);
    }
  }
}
