/**
 packages/sync: merging operation logs. Operations are admitted by storage policy, grouped by
 object and applied in (time, id) order, so the last writer wins; objects under the
 authoritative policy are reported as conflicts when the log has several heads.
 */
module Sync {
  import opened Wrappers
  import opened Collections
  import opened Sorting

  datatype Locality = LocalOnly | CloudAllowed | CloudRequired | Ephemeral

  datatype Policy = Policy(
    locality: Locality, allowedDevices: seq<int>, allowedRegions: seq<int>, allowedAgents: seq<int>, expiresAt: int)

  datatype Operation = Operation(
    id: int, objectId: int, objectKind: int, parents: seq<int>, changes: map<int, int>, policy: Policy, time: int)

  datatype Target = Target(cloud: bool, device: int, region: int, agent: int, at: int)

  datatype Denial = DeniedLocalOnly | DeniedCloudRequired | DeniedEphemeral | Expired | DeviceNotAllowed | RegionNotAllowed | AgentNotAllowed

  datatype MergePolicy = MergeableMap | Authoritative

  datatype SyncError = KindChanged(objectId: int) | PolicyMissing(objectKind: int)

  datatype ObjectState = ObjectState(id: int, kind: int, state: map<int, int>, operationIds: seq<int>)

  datatype Conflict = Conflict(objectId: int, objectKind: int, candidates: seq<int>)

  datatype Rejection = Rejection(operationId: int, reason: Denial)

  datatype Synchronized = Synchronized(objects: seq<ObjectState>, conflicts: seq<Conflict>, rejected: seq<Rejection>)

  type Log = seq<Operation>

  predicate ByTime(a: Operation, b: Operation) {
    a.time < b.time || (a.time == b.time && a.id <= b.id)
  }

  predicate AtMost(a: int, b: int) { a <= b }

  predicate ByOperationId(a: Rejection, b: Rejection) { a.operationId <= b.operationId }

  function PolicyDenial(policy: Policy, target: Target): Option<Denial> {
    if policy.locality == LocalOnly && target.cloud then Some(DeniedLocalOnly)
    else if policy.locality == CloudRequired && !target.cloud then Some(DeniedCloudRequired)
    else if policy.locality == Ephemeral && target.cloud then Some(DeniedEphemeral)
    else if target.at >= policy.expiresAt then Some(Expired)
    else if policy.allowedDevices != [] && target.device !in policy.allowedDevices then Some(DeviceNotAllowed)
    else if policy.allowedRegions != [] && target.region !in policy.allowedRegions then Some(RegionNotAllowed)
    else if policy.allowedAgents != [] && target.agent !in policy.allowedAgents then Some(AgentNotAllowed)
    else None
  }

  predicate Admitted(o: Operation, target: Target) {
    PolicyDenial(o.policy, target).None?
  }

  // ----- synchronisation as a function -----

  function AdmittedBy(target: Target): Operation -> bool {
    (o: Operation) => Admitted(o, target)
  }

  function RefusedBy(target: Target): Operation -> bool {
    (o: Operation) => !Admitted(o, target)
  }

  function OfObject(objectId: int): Operation -> bool {
    (o: Operation) => o.objectId == objectId
  }

  function NotParentIn(log: Log): Operation -> bool {
    (o: Operation) => !IsParent(log, o.id)
  }

  function Accepted(input: Log, target: Target): Log {
    Filter(SortBy(input, ByTime), AdmittedBy(target))
  }

  function Denied(input: Log, target: Target): Log {
    Filter(SortBy(input, ByTime), RefusedBy(target))
  }

  function Rejections(denied: Log, target: Target): seq<Rejection> {
    if denied == [] then [] else
      var o := denied[|denied| - 1];
      var rest := Rejections(denied[..|denied| - 1], target);
      match PolicyDenial(o.policy, target)
      case None => rest
      case Some(reason) => rest + [Rejection(o.id, reason)]
  }

  function Group(log: Log, objectId: int): Log {
    Filter(log, OfObject(objectId))
  }

  function ObjectIds(log: Log): (r: seq<int>)
    ensures |r| == |log|
    ensures forall i :: 0 <= i < |log| ==> r[i] == log[i].objectId
  {
    seq(|log|, i requires 0 <= i < |log| => log[i].objectId)
  }

  function OperationIds(log: Log): (r: seq<int>)
    ensures |r| == |log|
    ensures forall i :: 0 <= i < |log| ==> r[i] == log[i].id
  {
    seq(|log|, i requires 0 <= i < |log| => log[i].id)
  }

  /** Later operations overwrite earlier ones, key by key. */
  function Merged(log: Log): map<int, int> {
    if log == [] then map[] else Merged(log[..|log| - 1]) + log[|log| - 1].changes
  }

  predicate IsParent(log: Log, id: int) {
    exists i :: 0 <= i < |log| && id in log[i].parents
  }

  function Heads(log: Log): Log {
    SortBy(Filter(log, NotParentIn(log)), ByTime)
  }

  datatype Outcome = Emitted(emitted: ObjectState) | Conflicted(conflict: Conflict)

  predicate SameKind(group: Log) {
    forall i, j :: 0 <= i < |group| && 0 <= j < |group| ==> group[i].objectKind == group[j].objectKind
  }

  function Resolve(objectId: int, group: Log, policies: map<int, MergePolicy>): Result<Outcome, SyncError>
    requires group != []
  {
    var kind := group[0].objectKind;
    if !SameKind(group) then Err(KindChanged(objectId))
    else if kind !in policies then Err(PolicyMissing(kind))
    else if policies[kind] == Authoritative && |Heads(group)| > 1
    then Ok(Conflicted(Conflict(objectId, kind, OperationIds(Heads(group)))))
    else
      var ordered := SortBy(group, ByTime);
      Ok(Emitted(ObjectState(objectId, kind, Merged(ordered), SortBy(OperationIds(ordered), AtMost))))
  }

  function ResolveAll(ids: seq<int>, log: Log, policies: map<int, MergePolicy>): Result<seq<Outcome>, SyncError> {
    if ids == [] then Ok([]) else
      match ResolveAll(ids[..|ids| - 1], log, policies)
      case Err(e) => Err(e)
      case Ok(outcomes) =>
        var id := ids[|ids| - 1];
        var group := Group(log, id);
        if group == [] then Ok(outcomes) else
          match Resolve(id, group, policies)
          case Err(e) => Err(e)
          case Ok(outcome) => Ok(outcomes + [outcome])
  }

  function Objects(outcomes: seq<Outcome>): seq<ObjectState> {
    if outcomes == [] then [] else
      Objects(outcomes[..|outcomes| - 1]) +
      match outcomes[|outcomes| - 1] case Emitted(o) => [o] case Conflicted(_) => []
  }

  function Conflicts(outcomes: seq<Outcome>): seq<Conflict> {
    if outcomes == [] then [] else
      Conflicts(outcomes[..|outcomes| - 1]) +
      match outcomes[|outcomes| - 1] case Emitted(_) => [] case Conflicted(c) => [c]
  }

  function Synchronize(input: Log, target: Target, policies: map<int, MergePolicy>): Result<Synchronized, SyncError> {
    var accepted := Accepted(input, target);
    match ResolveAll(SortBy(Unique(ObjectIds(accepted)), AtMost), accepted, policies)
    case Err(e) => Err(e)
    case Ok(outcomes) =>
      Ok(Synchronized(Objects(outcomes), Conflicts(outcomes),
                      SortBy(Rejections(Denied(input, target), target), ByOperationId)))
  }

  // ----- the order of the input does not matter -----

  ghost predicate DistinctIds(log: Log) {
    forall i, j :: 0 <= i < j < |log| ==> log[i].id != log[j].id
  }

  lemma ByTimeOrders(log: Log)
    requires DistinctIds(log)
    ensures TotalPreorder(ByTime) && AntisymmetricOn(log, ByTime)
  {
  }

  lemma SyncForgetsOrder(input: Log, other: Log, target: Target, policies: map<int, MergePolicy>)
    requires multiset(input) == multiset(other) && DistinctIds(input)
    ensures Synchronize(input, target, policies) == Synchronize(other, target, policies)
  {
    ByTimeOrders(input);
    SortForgetsOrder(input, other, ByTime);
  }

  // ----- the last writer wins -----

  ghost predicate Wins(s: set<Operation>, key: int, w: Operation) {
    w in s && key in w.changes && forall o :: o in s && key in o.changes ==> (o.time < w.time || (o.time == w.time && o.id <= w.id))
  }

  ghost predicate Writes(s: set<Operation>, key: int) {
    exists o :: o in s && key in o.changes
  }

  ghost predicate Rising(log: Log) {
    forall i, j :: 0 <= i < j < |log| ==> log[i].time < log[j].time || (log[i].time == log[j].time && log[i].id <= log[j].id)
  }

  lemma LastWins(log: Log, key: int)
    requires Rising(log) && log != [] && key in log[|log| - 1].changes
    ensures Wins(ToSet(log), key, log[|log| - 1])
  {
    var last := log[|log| - 1];
    assert last in ToSet(log);
    forall o | o in ToSet(log) ensures o.time < last.time || (o.time == last.time && o.id <= last.id) {
      var i :| 0 <= i < |log| && log[i] == o;
    }
  }

  /** Merged in rising (time, id), each key holds what its last writer wrote. */
  lemma {:induction false} MergedIsLastWriter(log: Log, key: int)
    requires Rising(log)
    ensures key in Merged(log) <==> Writes(ToSet(log), key)
    ensures key in Merged(log) ==> exists w :: Wins(ToSet(log), key, w) && Merged(log)[key] == w.changes[key]
    decreases |log|
  {
    if log != [] {
      var init, last := log[..|log| - 1], log[|log| - 1];
      SplitLast(log);
      MergedIsLastWriter(init, key);
      assert ToSet(log) == ToSet(init) + {last};
      if key in last.changes {
        LastWins(log, key);
      } else if key in Merged(init) {
        var w :| Wins(ToSet(init), key, w) && Merged(init)[key] == w.changes[key];
        assert Wins(ToSet(log), key, w);
      }
    }
  }

  lemma WinnerUnique(s: set<Operation>, key: int, v: Operation, w: Operation)
    requires forall a, b :: a in s && b in s && a.id == b.id ==> a == b
    requires Wins(s, key, v) && Wins(s, key, w)
    ensures v == w
  {
  }

  // ----- merging is a join -----

  /** The winner of every written key. */
  ghost predicate IsWinnerMap(s: set<Operation>, m: map<int, Operation>) {
    && (forall key :: key in m <==> Writes(s, key))
    && forall key :: key in m ==> Wins(s, key, m[key])
  }

  function Later(a: Operation, b: Operation): Operation {
    if a.time < b.time || (a.time == b.time && a.id <= b.id) then b else a
  }

  ghost function Join(m: map<int, Operation>, n: map<int, Operation>): map<int, Operation> {
    map key | key in m.Keys + n.Keys :: if key !in m then n[key] else if key !in n then m[key] else Later(m[key], n[key])
  }

  /** One id never stands for two operations. */
  ghost predicate Coherent(s: set<Operation>) {
    forall a, b :: a in s && b in s && a.id == b.id ==> a == b
  }

  /** The winners of a union are the pointwise later of the winners of its parts. */
  lemma UnionIsJoin(s: set<Operation>, t: set<Operation>, m: map<int, Operation>, n: map<int, Operation>)
    requires IsWinnerMap(s, m) && IsWinnerMap(t, n)
    ensures IsWinnerMap(s + t, Join(m, n))
  {
    forall key
      ensures key in Join(m, n) <==> Writes(s + t, key)
      ensures key in Join(m, n) ==> Wins(s + t, key, Join(m, n)[key])
    {
      if Writes(s, key) {
        var o :| o in s && key in o.changes;
        assert o in s + t;
      }
      if Writes(t, key) {
        var o :| o in t && key in o.changes;
        assert o in s + t;
      }
    }
  }

  lemma WinnerMapUnique(s: set<Operation>, m: map<int, Operation>, n: map<int, Operation>)
    requires Coherent(s) && IsWinnerMap(s, m) && IsWinnerMap(s, n)
    ensures m == n
  {
    forall key | key in m ensures key in n && m[key] == n[key] {
      WinnerUnique(s, key, m[key], n[key]);
    }
    forall key | key in n ensures key in m {
      assert Writes(s, key);
    }
  }

  /** Commutative, associative and idempotent, wherever ids are coherent. */
  lemma JoinLaws(s: set<Operation>, t: set<Operation>, u: set<Operation>,
                 m: map<int, Operation>, n: map<int, Operation>, o: map<int, Operation>)
    requires Coherent(s + t + u) && IsWinnerMap(s, m) && IsWinnerMap(t, n) && IsWinnerMap(u, o)
    ensures Join(m, n) == Join(n, m)
    ensures Join(Join(m, n), o) == Join(m, Join(n, o))
    ensures Join(m, m) == m
  {
    UnionIsJoin(s, t, m, n);
    UnionIsJoin(t, s, n, m);
    assert s + t == t + s;
    WinnerMapUnique(s + t, Join(m, n), Join(n, m));
    UnionIsJoin(s + t, u, Join(m, n), o);
    UnionIsJoin(t, u, n, o);
    UnionIsJoin(s, t + u, m, Join(n, o));
    assert s + t + u == s + (t + u);
    WinnerMapUnique(s + t + u, Join(Join(m, n), o), Join(m, Join(n, o)));
    UnionIsJoin(s, s, m, m);
    assert s + s == s;
    WinnerMapUnique(s, Join(m, m), m);
  }

  /** The winners of a log in (time, id) order, and the values they wrote. */
  function WinnersOf(log: Log): map<int, Operation> {
    if log == [] then map[] else
      var last := log[|log| - 1];
      WinnersOf(log[..|log| - 1]) + map key | key in last.changes :: last
  }

  ghost predicate WritesOwnKeys(m: map<int, Operation>) {
    forall key :: key in m ==> key in m[key].changes
  }

  function ValuesOf(m: map<int, Operation>): map<int, int>
    requires WritesOwnKeys(m)
  {
    map key | key in m :: m[key].changes[key]
  }

  lemma {:induction false} MergedIsValues(log: Log)
    ensures WritesOwnKeys(WinnersOf(log)) && Merged(log) == ValuesOf(WinnersOf(log))
    decreases |log|
  {
    if log != [] { MergedIsValues(log[..|log| - 1]); }
  }

  lemma LastWinsAll(log: Log, last: Operation, key: int)
    requires SortedBy(log + [last], ByTime) && key in last.changes
    ensures Wins(ToSet(log + [last]), key, last)
  {
    var whole := log + [last];
    assert whole[|log|] == last;
    forall o | o in ToSet(whole) ensures ByTime(o, last) {
      var i :| 0 <= i < |whole| && whole[i] == o;
      if i < |log| { assert ByTime(whole[i], whole[|log|]); }
    }
  }

  lemma {:induction false} WinnersOfWin(log: Log)
    requires SortedBy(log, ByTime)
    ensures IsWinnerMap(ToSet(log), WinnersOf(log))
    decreases |log|
  {
    if log != [] {
      var init, last := log[..|log| - 1], log[|log| - 1];
      SplitLast(log);
      WinnersOfWin(init);
      ConcatSet(init, [last]);
      var m := WinnersOf(init);
      forall key
        ensures key in WinnersOf(log) <==> Writes(ToSet(log), key)
        ensures key in WinnersOf(log) ==> Wins(ToSet(log), key, WinnersOf(log)[key])
      {
        if key in last.changes {
          LastWinsAll(init, last, key);
        } else {
          assert key in m <==> Writes(ToSet(init), key);
          if key in m { assert Wins(ToSet(init), key, m[key]); }
        }
      }
    }
  }

  /** The accepted operations of one object, in the order they are applied. */
  function Applied(input: Log, target: Target, objectId: int): Log {
    SortBy(Group(Accepted(input, target), objectId), ByTime)
  }

  lemma AppliedMembers(input: Log, target: Target, objectId: int, o: Operation)
    ensures o in Applied(input, target, objectId) <==> o in input && Admitted(o, target) && o.objectId == objectId
  {
    SortElements(input, ByTime);
    FilterMember(SortBy(input, ByTime), AdmittedBy(target), o);
    FilterMember(Accepted(input, target), OfObject(objectId), o);
    SortElements(Group(Accepted(input, target), objectId), ByTime);
  }

  lemma AppliedSorted(input: Log, target: Target, objectId: int)
    ensures SortedBy(Applied(input, target, objectId), ByTime)
  {
    SortSorts(Group(Accepted(input, target), objectId), ByTime);
  }

  /** Synchronising A and B together: each key's winner is the later of its winners in A and in B. */
  lemma UnionOfLogsIsJoin(a: Log, b: Log, both: Log, target: Target, objectId: int)
    requires ToSet(both) == ToSet(a) + ToSet(b) && Coherent(ToSet(both))
    ensures WinnersOf(Applied(both, target, objectId)) ==
            Join(WinnersOf(Applied(a, target, objectId)), WinnersOf(Applied(b, target, objectId)))
  {
    var sa, sb, s := Applied(a, target, objectId), Applied(b, target, objectId), Applied(both, target, objectId);
    AppliedSorted(a, target, objectId);
    AppliedSorted(b, target, objectId);
    AppliedSorted(both, target, objectId);
    WinnersOfWin(sa);
    WinnersOfWin(sb);
    WinnersOfWin(s);
    forall o ensures o in ToSet(s) <==> o in ToSet(sa) + ToSet(sb) {
      AppliedMembers(a, target, objectId, o);
      AppliedMembers(b, target, objectId, o);
      AppliedMembers(both, target, objectId, o);
      assert o in ToSet(both) <==> o in ToSet(a) + ToSet(b);
    }
    assert ToSet(s) == ToSet(sa) + ToSet(sb);
    assert Coherent(ToSet(s)) by {
      forall x, y | x in ToSet(s) && y in ToSet(s) && x.id == y.id ensures x == y {
        AppliedMembers(both, target, objectId, x);
        AppliedMembers(both, target, objectId, y);
        assert x in ToSet(both) && y in ToSet(both);
      }
    }
    UnionIsJoin(ToSet(sa), ToSet(sb), WinnersOf(sa), WinnersOf(sb));
    WinnerMapUnique(ToSet(s), WinnersOf(s), Join(WinnersOf(sa), WinnersOf(sb)));
  }

  // ----- authoritative heads -----

  ghost predicate Chain(log: Log, p: Log) {
    && (forall i :: 0 <= i < |p| ==> p[i] in log)
    && forall i :: 0 <= i < |p| - 1 ==> p[i].id in p[i + 1].parents
  }

  ghost predicate ChainBetween(log: Log, p: Log, a: Operation, b: Operation) {
    |p| >= 2 && Chain(log, p) && p[0] == a && p[|p| - 1] == b
  }

  /** `a` is an ancestor of `b` through operations of the log. */
  ghost predicate Below(log: Log, a: Operation, b: Operation) {
    exists p :: ChainBetween(log, p, a, b)
  }

  /** `h` has every other operation among its ancestors. */
  ghost predicate Dominates(log: Log, h: Operation) {
    h in log && forall o :: o in log ==> o == h || Below(log, o, h)
  }

  /** Some operation has every other one among its ancestors. */
  ghost predicate Dominated(log: Log) {
    exists h :: Dominates(log, h)
  }

  /** No operation is its own ancestor. */
  ghost predicate Acyclic(log: Log) {
    forall o :: o in log ==> !Below(log, o, o)
  }

  /** Parents come strictly before children in (time, id). */
  ghost predicate ParentsEarlier(log: Log) {
    forall a, b :: a in log && b in log && a.id in b.parents ==> a.time < b.time || (a.time == b.time && a.id < b.id)
  }

  lemma HeadMembers(log: Log, o: Operation)
    ensures o in Heads(log) <==> o in log && !IsParent(log, o.id)
  {
    FilterMember(log, NotParentIn(log), o);
    SortElements(Filter(log, NotParentIn(log)), ByTime);
  }

  lemma ParentIsBelow(log: Log, a: Operation, b: Operation)
    requires a in log && b in log && a.id in b.parents
    ensures Below(log, a, b)
  {
    assert ChainBetween(log, [a, b], a, b);
  }

  lemma BelowHasChild(log: Log, a: Operation, b: Operation)
    requires Below(log, a, b)
    ensures a in log && IsParent(log, a.id)
  {
    var p: Log :| ChainBetween(log, p, a, b);
    assert p[1] in log && p[0].id in p[1].parents;
  }

  lemma BelowHasParent(log: Log, a: Operation, b: Operation)
    requires Below(log, a, b)
    ensures b.parents != []
  {
    var p: Log :| ChainBetween(log, p, a, b);
    assert p[|p| - 2].id in p[|p| - 1].parents;
  }

  /** The reported candidates are the maximal operations: those that are nobody's ancestor. */
  lemma HeadsAreMaximal(log: Log, o: Operation)
    ensures o in Heads(log) <==> o in log && !exists b :: Below(log, o, b)
  {
    HeadMembers(log, o);
    if exists b :: Below(log, o, b) {
      var b :| Below(log, o, b);
      BelowHasChild(log, o, b);
    }
    if o in log && IsParent(log, o.id) {
      var i :| 0 <= i < |log| && o.id in log[i].parents;
      ParentIsBelow(log, o, log[i]);
    }
  }

  lemma BelowIsTransitive(log: Log, a: Operation, b: Operation, c: Operation)
    requires Below(log, a, b) && Below(log, b, c)
    ensures Below(log, a, c)
  {
    var p: Log :| ChainBetween(log, p, a, b);
    var q: Log :| ChainBetween(log, q, b, c);
    ChainsJoin(log, p, q, a, b, c);
  }

  lemma ChainsJoin(log: Log, p: Log, q: Log, a: Operation, b: Operation, c: Operation)
    requires ChainBetween(log, p, a, b) && ChainBetween(log, q, b, c)
    ensures ChainBetween(log, p + q[1..], a, c)
  {
    var r := p + q[1..];
    forall i | 0 <= i < |r| ensures r[i] == if i < |p| then p[i] else q[i - |p| + 1] {}
  }

  /** The operations that have `o` as an ancestor. */
  ghost function Above(log: Log, o: Operation): set<Operation> {
    set x | x in log && Below(log, o, x)
  }

  lemma AboveShrinks(log: Log, o: Operation, child: Operation)
    requires child in log && Below(log, o, child) && !Below(log, child, child)
    ensures |Above(log, child)| < |Above(log, o)|
  {
    forall x | x in Above(log, child) ensures x in Above(log, o) { BelowIsTransitive(log, o, child, x); }
    SubsetCardinality(Above(log, child) + {child}, Above(log, o));
  }

  /** Climbing from child to child ends at a head or on a cycle. */
  lemma {:induction false} ReachesTop(log: Log, o: Operation) returns (t: Operation)
    requires o in log
    ensures t in log && (t in Heads(log) || Below(log, t, t)) && (o == t || Below(log, o, t))
    decreases |Above(log, o)|
  {
    HeadMembers(log, o);
    t := o;
    if IsParent(log, o.id) && !Below(log, o, o) {
      var i :| 0 <= i < |log| && o.id in log[i].parents;
      var child := log[i];
      ParentIsBelow(log, o, child);
      t := child;
      if !Below(log, child, child) {
        AboveShrinks(log, o, child);
        t := ReachesTop(log, child);
        if child != t { BelowIsTransitive(log, o, child, t); }
      }
    }
  }

  lemma ReachesHead(log: Log, o: Operation) returns (h: Operation)
    requires Acyclic(log) && o in log
    ensures h in Heads(log) && (o == h || Below(log, o, h))
  {
    h := ReachesTop(log, o);
  }

  lemma {:induction false} ChainRises(log: Log, p: Log, k: nat)
    requires ParentsEarlier(log) && Chain(log, p) && 0 < k < |p|
    ensures p[0].time < p[k].time || (p[0].time == p[k].time && p[0].id < p[k].id)
    decreases k
  {
    assert p[k - 1] in log && p[k] in log && p[k - 1].id in p[k].parents;
    if k > 1 { ChainRises(log, p, k - 1); }
  }

  /** Histories whose clocks agree with causality have no cycles. */
  lemma EarlierIsAcyclic(log: Log)
    requires ParentsEarlier(log)
    ensures Acyclic(log)
  {
    forall o | o in log ensures !Below(log, o, o) {
      forall p: Log | ChainBetween(log, p, o, o) ensures false { ChainRises(log, p, |p| - 1); }
    }
  }

  lemma SameIdSameOperation(log: Log, x: Operation, y: Operation)
    requires DistinctIds(log) && x in log && y in log && x.id == y.id
    ensures x == y
  {
    var i :| 0 <= i < |log| && log[i] == x;
    var j :| 0 <= j < |log| && log[j] == y;
  }

  lemma AllTheSame(log: Log, x: Operation)
    requires Distinct(log) && forall o :: o in log ==> o == x
    ensures |log| <= 1
  {
    DistinctCardinality(log);
    SubsetCardinality(ToSet(log), {x});
  }

  lemma HeadsDistinct(log: Log)
    requires DistinctIds(log)
    ensures Distinct(Heads(log))
  {
    var list := Filter(log, NotParentIn(log));
    FilterDistinct(log, NotParentIn(log));
    SortPermutes(list, ByTime);
    MultisetDistinct(list, Heads(log));
  }

  /** An operation with all the others among its ancestors is the only head there can be. */
  lemma DominatedHasOneHead(log: Log)
    requires DistinctIds(log) && Dominated(log)
    ensures |Heads(log)| <= 1
  {
    HeadsDistinct(log);
    var top :| Dominates(log, top);
    forall x | x in Heads(log) ensures x == top {
      HeadMembers(log, x);
      if x != top { BelowHasChild(log, x, top); }
    }
    AllTheSame(Heads(log), top);
  }

  /** On histories without cycles: at most one head exactly when one operation has all the others as ancestors. */
  lemma OneHeadIffDominated(log: Log)
    requires Acyclic(log) && DistinctIds(log) && log != []
    ensures |Heads(log)| >= 1
    ensures |Heads(log)| <= 1 <==> Dominated(log)
  {
    var h := ReachesHead(log, log[0]);
    if |Heads(log)| <= 1 {
      assert h == Heads(log)[0];
      HeadMembers(log, h);
      forall o | o in log ensures o == h || Below(log, o, h) {
        var top := ReachesHead(log, o);
      }
      assert Dominates(log, h);
    }
    if Dominated(log) { DominatedHasOneHead(log); }
  }

  /** There is no head but `h`. */
  ghost predicate OnlyHead(log: Log, h: Operation) {
    h in log && forall x :: x in Heads(log) ==> x == h
  }

  /** `c` lies on a cycle, and is neither `h` nor an ancestor of it. */
  ghost predicate Detached(log: Log, c: Operation, h: Operation) {
    c in log && Below(log, c, c) && c != h && !Below(log, c, h)
  }

  lemma NoneDetachedIsBelow(log: Log, h: Operation, o: Operation)
    requires OnlyHead(log, h) && !(exists c :: Detached(log, c, h)) && o in log
    ensures o == h || Below(log, o, h)
  {
    var t := ReachesTop(log, o);
    assert !Detached(log, t, h);
    if t != h && o != t { BelowIsTransitive(log, o, t, h); }
  }

  /** On any history: an operation dominates exactly when it is the only possible head and no cycle is detached from it. */
  lemma DominatesIff(log: Log, h: Operation)
    ensures Dominates(log, h) <==> OnlyHead(log, h) && !exists c :: Detached(log, c, h)
  {
    if Dominates(log, h) {
      forall x | x in Heads(log) ensures x == h {
        HeadMembers(log, x);
        if x != h { BelowHasChild(log, x, h); }
      }
    }
    if OnlyHead(log, h) && !exists c :: Detached(log, c, h) {
      forall o | o in log ensures o == h || Below(log, o, h) { NoneDetachedIsBelow(log, h, o); }
    }
  }

  lemma NotDominatedIff(log: Log)
    ensures !Dominated(log) <==> forall h :: OnlyHead(log, h) ==> exists c :: Detached(log, c, h)
  {
    forall h ensures Dominates(log, h) <==> OnlyHead(log, h) && !exists c :: Detached(log, c, h) { DominatesIff(log, h); }
  }

  lemma CandidatesAreMaximal(group: Log, id: int)
    ensures id in OperationIds(Heads(group)) <==> exists o :: o in group && o.id == id && !exists b :: Below(group, o, b)
  {
    var heads := Heads(group);
    if id in OperationIds(heads) {
      var i :| 0 <= i < |heads| && heads[i].id == id;
      HeadsAreMaximal(group, heads[i]);
    }
    if exists o :: o in group && o.id == id && !exists b :: Below(group, o, b) {
      var o :| o in group && o.id == id && !exists b :: Below(group, o, b);
      HeadsAreMaximal(group, o);
      var i :| 0 <= i < |heads| && heads[i] == o;
      assert OperationIds(heads)[i] == id;
    }
  }

  /** An authoritative object on a history without cycles is emitted exactly when dominated; otherwise it is reported. */
  lemma AuthoritativeOutcome(objectId: int, group: Log, policies: map<int, MergePolicy>)
    requires group != [] && Acyclic(group) && DistinctIds(group)
    requires SameKind(group) && group[0].objectKind in policies && policies[group[0].objectKind] == Authoritative
    ensures Resolve(objectId, group, policies).Ok?
    ensures Resolve(objectId, group, policies).value.Emitted? <==> Dominated(group)
    ensures Resolve(objectId, group, policies).value.Conflicted? ==>
              Resolve(objectId, group, policies).value.conflict == Conflict(objectId, group[0].objectKind, OperationIds(Heads(group)))
  {
    OneHeadIffDominated(group);
  }

  /**
   On any history a dominated object is emitted. One that is not is emitted all the same exactly when it has
   at most one head and, whichever operation is taken for the last, some other one lies on a cycle without
   being its ancestor.
   */
  lemma HiddenConflictIff(objectId: int, group: Log, policies: map<int, MergePolicy>)
    requires group != [] && DistinctIds(group)
    requires SameKind(group) && group[0].objectKind in policies && policies[group[0].objectKind] == Authoritative
    ensures Resolve(objectId, group, policies).Ok?
    ensures Dominated(group) ==> Resolve(objectId, group, policies).value.Emitted?
    ensures Resolve(objectId, group, policies).value.Emitted? && !Dominated(group) <==>
            |Heads(group)| <= 1 && forall h :: OnlyHead(group, h) ==> exists c :: Detached(group, c, h)
  {
    if Dominated(group) { DominatedHasOneHead(group); }
    NotDominatedIff(group);
  }

  // ----- what a cut in the history does -----

  /** Every operation of the log that names `o` was denied or belongs to another object. */
  ghost predicate CutOff(log: Log, target: Target, objectId: int, o: Operation) {
    forall c :: c in log && o.id in c.parents ==> !Admitted(c, target) || c.objectId != objectId
  }

  lemma GroupMembers(log: Log, target: Target, objectId: int, o: Operation)
    ensures o in Group(Accepted(log, target), objectId) <==> o in log && Admitted(o, target) && o.objectId == objectId
  {
    SortElements(log, ByTime);
    FilterMember(SortBy(log, ByTime), AdmittedBy(target), o);
    FilterMember(Accepted(log, target), OfObject(objectId), o);
  }

  lemma GroupDistinct(log: Log, target: Target, objectId: int)
    requires DistinctIds(log)
    ensures DistinctIds(Group(Accepted(log, target), objectId)) && Distinct(Group(Accepted(log, target), objectId))
  {
    var group := Group(Accepted(log, target), objectId);
    SortPermutes(log, ByTime);
    MultisetDistinct(log, SortBy(log, ByTime));
    FilterDistinct(SortBy(log, ByTime), AdmittedBy(target));
    FilterDistinct(Accepted(log, target), OfObject(objectId));
    forall i, j | 0 <= i < j < |group| ensures group[i].id != group[j].id {
      GroupMembers(log, target, objectId, group[i]);
      GroupMembers(log, target, objectId, group[j]);
      assert group[i] in group && group[j] in group;
      if group[i].id == group[j].id { SameIdSameOperation(log, group[i], group[j]); }
    }
  }

  lemma HeadIsCutOff(log: Log, target: Target, objectId: int, o: Operation)
    ensures var group := Group(Accepted(log, target), objectId);
      o in Heads(group) <==> o in group && CutOff(log, target, objectId, o)
  {
    var group := Group(Accepted(log, target), objectId);
    HeadMembers(group, o);
    if !CutOff(log, target, objectId, o) {
      var c :| c in log && o.id in c.parents && Admitted(c, target) && c.objectId == objectId;
      GroupMembers(log, target, objectId, c);
      var i :| 0 <= i < |group| && group[i] == c;
    }
    if IsParent(group, o.id) {
      var i :| 0 <= i < |group| && o.id in group[i].parents;
      assert group[i] in group;
      GroupMembers(log, target, objectId, group[i]);
    }
  }

  lemma TwoHeads(group: Log, h: Operation, o: Operation)
    requires h in Heads(group) && o in Heads(group) && o != h
    ensures |Heads(group)| > 1
  {
    var i :| 0 <= i < |Heads(group)| && Heads(group)[i] == h;
    var j :| 0 <= j < |Heads(group)| && Heads(group)[j] == o;
  }

  /**
   Ancestry is looked for among the accepted operations of one object only. Where the whole log puts every
   accepted operation of an authoritative object below `h`, the object is reported as a conflict exactly when
   some other accepted operation is cut off.
   */
  lemma CutHistoryConflicts(log: Log, target: Target, objectId: int, h: Operation, policies: map<int, MergePolicy>)
    requires DistinctIds(log) && Acyclic(log) && h in Group(Accepted(log, target), objectId)
    requires forall o :: o in Group(Accepted(log, target), objectId) ==> o == h || Below(log, o, h)
    requires SameKind(Group(Accepted(log, target), objectId)) && h.objectKind in policies && policies[h.objectKind] == Authoritative
    ensures var group := Group(Accepted(log, target), objectId); var r := Resolve(objectId, group, policies);
      && r.Ok?
      && (r.value.Conflicted? <==> exists o :: o in group && o != h && CutOff(log, target, objectId, o))
  {
    var group := Group(Accepted(log, target), objectId);
    DominatorIsHead(log, target, objectId, h);
    GroupDistinct(log, target, objectId);
    HeadsDistinct(group);
    var k :| 0 <= k < |group| && group[k] == h;
    if exists o :: o in group && o != h && CutOff(log, target, objectId, o) {
      var o :| o in group && o != h && CutOff(log, target, objectId, o);
      HeadIsCutOff(log, target, objectId, o);
      TwoHeads(group, h, o);
    } else {
      forall x | x in Heads(group) ensures x == h { HeadIsCutOff(log, target, objectId, x); }
      AllTheSame(Heads(group), h);
    }
  }

  lemma DominatorIsHead(log: Log, target: Target, objectId: int, h: Operation)
    requires Acyclic(log) && h in Group(Accepted(log, target), objectId)
    requires forall o :: o in Group(Accepted(log, target), objectId) ==> o == h || Below(log, o, h)
    ensures h in Heads(Group(Accepted(log, target), objectId))
  {
    var group := Group(Accepted(log, target), objectId);
    HeadMembers(group, h);
    GroupMembers(log, target, objectId, h);
    if IsParent(group, h.id) {
      var i :| 0 <= i < |group| && h.id in group[i].parents;
      assert group[i] in group;
      GroupMembers(log, target, objectId, group[i]);
      ParentIsBelow(log, h, group[i]);
      if group[i] != h { BelowIsTransitive(log, h, group[i], h); }
    }
  }

  /** What cuts an operation off from one above it is an operation between them that is not in the group. */
  lemma CutBetween(log: Log, target: Target, objectId: int, o: Operation, h: Operation) returns (c: Operation)
    requires h in Group(Accepted(log, target), objectId) && CutOff(log, target, objectId, o) && Below(log, o, h)
    ensures c in log && o.id in c.parents && c !in Group(Accepted(log, target), objectId) && Below(log, c, h)
  {
    var p: Log :| ChainBetween(log, p, o, h);
    c := p[1];
    assert c in log && p[0].id in p[1].parents;
    GroupMembers(log, target, objectId, c);
    GroupMembers(log, target, objectId, h);
    assert ChainBetween(log, p[1..], c, h);
  }

  const OPEN_POLICY: Policy := Policy(CloudAllowed, [], [], [], 100)

  /** Two operations that name each other as parents, and a third that names none. */
  ghost predicate CyclicHistory(log: Log) {
    && |log| == 3 && DistinctIds(log)
    && log[0].parents == [log[1].id] && log[1].parents == [log[0].id] && log[2].parents == []
  }

  lemma CycleNotDominated(log: Log)
    requires CyclicHistory(log)
    ensures !Dominated(log)
  {
    var c := log[2];
    assert c in log && log[0] in log;
    forall h | Dominates(log, h) ensures false {
      if h != c {
        BelowHasChild(log, c, h);
      } else {
        BelowHasParent(log, log[0], c);
      }
    }
  }

  /** Without the causal order the rule fails: the third operation is emitted as if the other two were its history. */
  lemma CyclicHistoryHidesConflict(objectId: int, log: Log, policies: map<int, MergePolicy>)
    requires CyclicHistory(log) && SameKind(log)
    requires log[0].objectKind in policies && policies[log[0].objectKind] == Authoritative
    ensures Resolve(objectId, log, policies).Ok? && Resolve(objectId, log, policies).value.Emitted? && !Dominated(log)
  {
    HeadsOfCycle(log, log[2]);
    CycleNotDominated(log);
  }

  lemma CyclicHistoryExists()
    ensures
      var log := [Operation(1, 7, 3, [2], map[0 := 10], OPEN_POLICY, 1), Operation(2, 7, 3, [1], map[0 := 20], OPEN_POLICY, 2),
                  Operation(3, 7, 3, [], map[0 := 30], OPEN_POLICY, 3)];
      CyclicHistory(log) && SameKind(log)
  {
  }

  lemma HeadsOfCycle(log: Log, c: Operation)
    requires |log| == 3 && DistinctIds(log) && log[2] == c
    requires log[0].parents == [log[1].id] && log[1].parents == [log[0].id] && c.parents == []
    ensures |Heads(log)| == 1
  {
    HeadsDistinct(log);
    forall o ensures o in Heads(log) <==> o == c {
      HeadMembers(log, o);
      assert log[0].id in log[1].parents && log[1].id in log[0].parents;
    }
    AllTheSame(Heads(log), c);
    assert c in Heads(log);
  }

  // ----- every operation lands in exactly one place -----

  ghost predicate GroupsPresent(ids: seq<int>, log: Log) {
    forall i :: 0 <= i < |ids| ==> Group(log, ids[i]) != []
  }

  lemma {:induction false} OutcomesAt(ids: seq<int>, log: Log, policies: map<int, MergePolicy>, i: nat)
    requires GroupsPresent(ids, log) && ResolveAll(ids, log, policies).Ok?
    ensures |ResolveAll(ids, log, policies).value| == |ids|
    ensures i < |ids| ==> Resolve(ids[i], Group(log, ids[i]), policies) == Ok(ResolveAll(ids, log, policies).value[i])
    decreases |ids|
  {
    if ids != [] { OutcomesAt(ids[..|ids| - 1], log, policies, i); }
  }

  lemma {:induction false} ObjectsMembers(outcomes: seq<Outcome>, o: ObjectState)
    ensures o in Objects(outcomes) <==> Emitted(o) in outcomes
    decreases |outcomes|
  {
    if outcomes != [] {
      ObjectsMembers(outcomes[..|outcomes| - 1], o);
      SplitLast(outcomes);
      assert Emitted(o) in outcomes <==> Emitted(o) in outcomes[..|outcomes| - 1] || Emitted(o) == outcomes[|outcomes| - 1];
    }
  }

  lemma {:induction false} ConflictsMembers(outcomes: seq<Outcome>, c: Conflict)
    ensures c in Conflicts(outcomes) <==> Conflicted(c) in outcomes
    decreases |outcomes|
  {
    if outcomes != [] {
      ConflictsMembers(outcomes[..|outcomes| - 1], c);
      SplitLast(outcomes);
      assert Conflicted(c) in outcomes <==> Conflicted(c) in outcomes[..|outcomes| - 1] || Conflicted(c) == outcomes[|outcomes| - 1];
    }
  }

  lemma {:induction false} RejectionsMembers(denied: Log, target: Target, x: Rejection)
    ensures x in Rejections(denied, target) <==>
            exists o :: o in denied && o.id == x.operationId && PolicyDenial(o.policy, target) == Some(x.reason)
    decreases |denied|
  {
    if denied != [] {
      var init, last := denied[..|denied| - 1], denied[|denied| - 1];
      RejectionsMembers(init, target, x);
      SplitLast(denied);
      assert forall o :: o in denied <==> o in init || o == last;
    }
  }

  ghost predicate LandsRejected(r: Synchronized, o: Operation, target: Target) {
    exists x :: x in r.rejected && x.operationId == o.id && PolicyDenial(o.policy, target) == Some(x.reason)
  }

  ghost predicate LandsInObject(r: Synchronized, o: Operation) {
    exists x :: x in r.objects && x.id == o.objectId && o.id in x.operationIds
  }

  /** The operation is in the accepted group of a reported conflict. */
  ghost predicate LandsInConflict(r: Synchronized, o: Operation, input: Log, target: Target) {
    exists c :: c in r.conflicts && o in Group(Accepted(input, target), c.objectId)
  }

  function ObjectOrder(input: Log, target: Target): seq<int> {
    SortBy(Unique(ObjectIds(Accepted(input, target))), AtMost)
  }

  lemma ObjectOrderMembers(input: Log, target: Target)
    ensures Distinct(ObjectOrder(input, target)) && GroupsPresent(ObjectOrder(input, target), Accepted(input, target))
    ensures forall o :: o in Accepted(input, target) ==> o.objectId in ObjectOrder(input, target)
  {
    var accepted := Accepted(input, target);
    var ids := ObjectIds(accepted);
    UniqueElements(ids);
    SortElements(Unique(ids), AtMost);
    SortPermutes(Unique(ids), AtMost);
    MultisetDistinct(Unique(ids), ObjectOrder(input, target));
    forall id | id in ObjectOrder(input, target) ensures Group(accepted, id) != [] {
      var i :| 0 <= i < |accepted| && ids[i] == id;
      FilterMember(accepted, OfObject(id), accepted[i]);
    }
    forall o | o in accepted ensures o.objectId in ObjectOrder(input, target) {
      var i :| 0 <= i < |accepted| && accepted[i] == o;
      assert ids[i] == o.objectId;
    }
  }

  lemma AcceptedMembers(input: Log, target: Target, o: Operation)
    ensures o in Accepted(input, target) <==> o in input && Admitted(o, target)
    ensures o in Denied(input, target) <==> o in input && !Admitted(o, target)
  {
    SortElements(input, ByTime);
    FilterMember(SortBy(input, ByTime), AdmittedBy(target), o);
    FilterMember(SortBy(input, ByTime), RefusedBy(target), o);
  }

  lemma EmittedIds(objectId: int, group: Log, policies: map<int, MergePolicy>, id: int)
    requires group != [] && Resolve(objectId, group, policies).Ok? && Resolve(objectId, group, policies).value.Emitted?
    ensures id in Resolve(objectId, group, policies).value.emitted.operationIds <==> exists o :: o in group && o.id == id
  {
    var ordered := SortBy(group, ByTime);
    var ids := OperationIds(ordered);
    SortElements(ids, AtMost);
    SortElements(group, ByTime);
    if id in ids {
      var i :| 0 <= i < |ids| && ids[i] == id;
      assert ordered[i] in group;
    }
    if exists o :: o in group && o.id == id {
      var o :| o in group && o.id == id;
      var i :| 0 <= i < |ordered| && ordered[i] == o;
      assert ids[i] == id;
    }
  }

  lemma RejectedIffDenied(input: Log, target: Target, policies: map<int, MergePolicy>, o: Operation)
    requires DistinctIds(input) && o in input && Synchronize(input, target, policies).Ok?
    ensures LandsRejected(Synchronize(input, target, policies).value, o, target) <==> !Admitted(o, target)
  {
    var denied := Denied(input, target);
    var list := Rejections(denied, target);
    SortElements(list, ByOperationId);
    AcceptedMembers(input, target, o);
    if !Admitted(o, target) {
      var x := Rejection(o.id, PolicyDenial(o.policy, target).value);
      RejectionsMembers(denied, target, x);
      assert x in Synchronize(input, target, policies).value.rejected;
    }
  }

  /** The outcome that stands for one accepted operation. */
  lemma OutcomeOf(input: Log, target: Target, policies: map<int, MergePolicy>, o: Operation) returns (outcome: Outcome, outcomes: seq<Outcome>)
    requires o in Accepted(input, target) && Synchronize(input, target, policies).Ok?
    ensures ResolveAll(ObjectOrder(input, target), Accepted(input, target), policies) == Ok(outcomes)
    ensures o in Group(Accepted(input, target), o.objectId) && outcome in outcomes
    ensures Resolve(o.objectId, Group(Accepted(input, target), o.objectId), policies) == Ok(outcome)
  {
    var accepted, ids := Accepted(input, target), ObjectOrder(input, target);
    ObjectOrderMembers(input, target);
    FilterMember(accepted, OfObject(o.objectId), o);
    var i :| 0 <= i < |ids| && ids[i] == o.objectId;
    OutcomesAt(ids, accepted, policies, i);
    outcomes := ResolveAll(ids, accepted, policies).value;
    outcome := outcomes[i];
  }

  /** An outcome of the result speaks for the accepted group of its own object. */
  lemma OutcomeGroup(input: Log, target: Target, policies: map<int, MergePolicy>, outcome: Outcome) returns (id: int)
    requires ResolveAll(ObjectOrder(input, target), Accepted(input, target), policies).Ok?
    requires outcome in ResolveAll(ObjectOrder(input, target), Accepted(input, target), policies).value
    ensures id == (match outcome case Emitted(x) => x.id case Conflicted(c) => c.objectId)
    ensures Group(Accepted(input, target), id) != []
    ensures Resolve(id, Group(Accepted(input, target), id), policies) == Ok(outcome)
  {
    var accepted, ids := Accepted(input, target), ObjectOrder(input, target);
    var outcomes := ResolveAll(ids, accepted, policies).value;
    ObjectOrderMembers(input, target);
    OutcomesAt(ids, accepted, policies, 0);
    var i :| 0 <= i < |outcomes| && outcomes[i] == outcome;
    OutcomesAt(ids, accepted, policies, i);
    id := ids[i];
  }

  lemma LandsWhereResolved(input: Log, target: Target, policies: map<int, MergePolicy>, o: Operation)
    requires o in Accepted(input, target) && Synchronize(input, target, policies).Ok?
    ensures Group(Accepted(input, target), o.objectId) != []
    ensures var r := Synchronize(input, target, policies).value;
      var outcome := Resolve(o.objectId, Group(Accepted(input, target), o.objectId), policies);
      outcome.Ok? &&
      (LandsInObject(r, o) <==> outcome.value.Emitted?) && (LandsInConflict(r, o, input, target) <==> outcome.value.Conflicted?)
  {
    var r := Synchronize(input, target, policies).value;
    var group := Group(Accepted(input, target), o.objectId);
    var outcome, outcomes := OutcomeOf(input, target, policies, o);
    if outcome.Emitted? {
      ObjectsMembers(outcomes, outcome.emitted);
      EmittedIds(o.objectId, group, policies, o.id);
      assert outcome.emitted in r.objects;
    } else {
      ConflictsMembers(outcomes, outcome.conflict);
      assert outcome.conflict in r.conflicts;
    }
    if LandsInObject(r, o) {
      var x :| x in r.objects && x.id == o.objectId && o.id in x.operationIds;
      ObjectsMembers(outcomes, x);
      var id := OutcomeGroup(input, target, policies, Emitted(x));
    }
    if LandsInConflict(r, o, input, target) {
      var c :| c in r.conflicts && o in Group(Accepted(input, target), c.objectId);
      ConflictsMembers(outcomes, c);
      var id := OutcomeGroup(input, target, policies, Conflicted(c));
      FilterMember(Accepted(input, target), OfObject(c.objectId), o);
    }
  }

  lemma NotAcceptedLandsNowhere(input: Log, target: Target, policies: map<int, MergePolicy>, o: Operation)
    requires DistinctIds(input) && o in input && !Admitted(o, target) && Synchronize(input, target, policies).Ok?
    ensures !LandsInObject(Synchronize(input, target, policies).value, o)
    ensures !LandsInConflict(Synchronize(input, target, policies).value, o, input, target)
  {
    var r := Synchronize(input, target, policies).value;
    var accepted := Accepted(input, target);
    var outcomes := ResolveAll(ObjectOrder(input, target), accepted, policies).value;
    AcceptedMembers(input, target, o);
    forall x | x in r.objects && x.id == o.objectId && o.id in x.operationIds ensures false {
      ObjectsMembers(outcomes, x);
      var id := OutcomeGroup(input, target, policies, Emitted(x));
      EmittedIds(id, Group(accepted, id), policies, o.id);
      var y :| y in Group(accepted, id) && y.id == o.id;
      FilterMember(accepted, OfObject(id), y);
      AcceptedMembers(input, target, y);
      SameIdSameOperation(input, y, o);
    }
    forall c | c in r.conflicts && o in Group(accepted, c.objectId) ensures false {
      FilterMember(accepted, OfObject(c.objectId), o);
    }
  }

  /** Every input operation is rejected, or part of one emitted object, or part of one conflicted group: exactly one. */
  lemma LandsExactlyOnce(input: Log, target: Target, policies: map<int, MergePolicy>, o: Operation)
    requires DistinctIds(input) && o in input && Synchronize(input, target, policies).Ok?
    ensures var r := Synchronize(input, target, policies).value;
      var a, b, c := LandsRejected(r, o, target), LandsInObject(r, o), LandsInConflict(r, o, input, target);
      (a || b || c) && !(a && b) && !(a && c) && !(b && c)
  {
    RejectedIffDenied(input, target, policies, o);
    AcceptedMembers(input, target, o);
    if Admitted(o, target) {
      LandsWhereResolved(input, target, policies, o);
    } else {
      NotAcceptedLandsNowhere(input, target, policies, o);
    }
  }

  /** The state of an emitted object: each key holds what its greatest accepted writer wrote. */
  lemma EmittedStateIsWinners(input: Log, target: Target, policies: map<int, MergePolicy>, x: ObjectState)
    requires Synchronize(input, target, policies).Ok? && x in Synchronize(input, target, policies).value.objects
    ensures WritesOwnKeys(WinnersOf(Applied(input, target, x.id)))
    ensures x.state == ValuesOf(WinnersOf(Applied(input, target, x.id)))
    ensures IsWinnerMap(ToSet(Applied(input, target, x.id)), WinnersOf(Applied(input, target, x.id)))
  {
    var outcomes := ResolveAll(ObjectOrder(input, target), Accepted(input, target), policies).value;
    ObjectsMembers(outcomes, x);
    var id := OutcomeGroup(input, target, policies, Emitted(x));
    MergedIsValues(Applied(input, target, x.id));
    AppliedSorted(input, target, x.id);
    WinnersOfWin(Applied(input, target, x.id));
  }

  // ----- what the result says -----

  /** The storage policy lets the target have the operation. */
  predicate Permits(p: Policy, t: Target) {
    && (t.cloud ==> p.locality == CloudAllowed || p.locality == CloudRequired)
    && (!t.cloud ==> p.locality != CloudRequired)
    && t.at < p.expiresAt
    && (p.allowedDevices == [] || t.device in p.allowedDevices)
    && (p.allowedRegions == [] || t.region in p.allowedRegions)
    && (p.allowedAgents == [] || t.agent in p.allowedAgents)
  }

  /** The reason holds, and none that is looked at earlier. */
  predicate DeniedFor(p: Policy, t: Target, reason: Denial) {
    match reason
    case DeniedLocalOnly => p.locality == LocalOnly && t.cloud
    case DeniedCloudRequired => p.locality == CloudRequired && !t.cloud
    case DeniedEphemeral => p.locality == Ephemeral && t.cloud
    case Expired => (if t.cloud then p.locality == CloudAllowed || p.locality == CloudRequired else p.locality != CloudRequired) && t.at >= p.expiresAt
    case DeviceNotAllowed => t.at < p.expiresAt && p.allowedDevices != [] && t.device !in p.allowedDevices
    case RegionNotAllowed =>
      && t.at < p.expiresAt && (p.allowedDevices == [] || t.device in p.allowedDevices)
      && p.allowedRegions != [] && t.region !in p.allowedRegions
    case AgentNotAllowed =>
      && t.at < p.expiresAt && (p.allowedDevices == [] || t.device in p.allowedDevices)
      && (p.allowedRegions == [] || t.region in p.allowedRegions)
      && p.allowedAgents != [] && t.agent !in p.allowedAgents
  }

  lemma DenialMeans(p: Policy, t: Target)
    ensures PolicyDenial(p, t).None? <==> Permits(p, t)
    ensures PolicyDenial(p, t).Some? ==> DeniedFor(p, t, PolicyDenial(p, t).value)
  {
  }

  /** The operations on one object that the target may have. */
  ghost function Allowed(input: Log, target: Target, objectId: int): set<Operation> {
    set o | o in input && Permits(o.policy, target) && o.objectId == objectId
  }

  /** No operation of the set names it as a parent. */
  ghost predicate IsHead(s: set<Operation>, o: Operation) {
    o in s && forall child :: child in s ==> o.id !in child.parents
  }

  /**
   An emitted object: each key that some operation wrote holds what the writer with the greatest (time, id) wrote,
   and the operations are listed by id. Under the authoritative policy there is no second head.
   */
  ghost predicate Emits(s: set<Operation>, policies: map<int, MergePolicy>, x: ObjectState) {
    && (forall o :: o in s ==> o.objectKind == x.kind) && x.kind in policies
    && (policies[x.kind] == Authoritative ==> forall a, b :: IsHead(s, a) && IsHead(s, b) ==> a == b)
    && (forall key :: key in x.state <==> exists o :: o in s && key in o.changes)
    && (forall key :: key in x.state ==>
          exists w :: w in s && key in w.changes && x.state[key] == w.changes[key] &&
            forall o :: o in s && key in o.changes ==> o.time < w.time || (o.time == w.time && o.id <= w.id))
    && (forall id :: id in x.operationIds <==> exists o :: o in s && o.id == id)
    && forall i, j :: 0 <= i < j < |x.operationIds| ==> x.operationIds[i] <= x.operationIds[j]
  }

  /** The log lists exactly the heads, in rising (time, id). */
  ghost predicate ListsHeads(s: set<Operation>, heads: Log, candidates: seq<int>) {
    && |heads| == |candidates| && (forall i :: 0 <= i < |heads| ==> heads[i].id == candidates[i])
    && (forall i, j :: 0 <= i < j < |heads| ==>
          heads[i].time < heads[j].time || (heads[i].time == heads[j].time && heads[i].id <= heads[j].id))
    && forall o :: o in heads <==> IsHead(s, o)
  }

  /** A reported conflict: an authoritative object with several heads, whose ids it lists. */
  ghost predicate Reports(s: set<Operation>, policies: map<int, MergePolicy>, c: Conflict) {
    && (forall o :: o in s ==> o.objectKind == c.objectKind) && c.objectKind in policies && policies[c.objectKind] == Authoritative
    && |c.candidates| > 1 && exists heads :: ListsHeads(s, heads, c.candidates)
  }

  ghost predicate Answers(objectId: int, s: set<Operation>, policies: map<int, MergePolicy>, r: Result<Outcome, SyncError>) {
    match r
    case Ok(Emitted(x)) => x.id == objectId && Emits(s, policies, x)
    case Ok(Conflicted(c)) => c.objectId == objectId && Reports(s, policies, c)
    case Err(KindChanged(id)) => id == objectId && exists a, b :: a in s && b in s && a.objectKind != b.objectKind
    case Err(PolicyMissing(kind)) => kind !in policies && exists o :: o in s && o.objectKind == kind
  }

  lemma HeadsMean(group: Log)
    ensures ListsHeads(ToSet(group), Heads(group), OperationIds(Heads(group)))
  {
    SortSorts(Filter(group, NotParentIn(group)), ByTime);
    forall o ensures o in Heads(group) <==> IsHead(ToSet(group), o) {
      HeadMembers(group, o);
      if o in group && !IsParent(group, o.id) {
        forall child | child in group ensures o.id !in child.parents {
          var i :| 0 <= i < |group| && group[i] == child;
        }
      }
    }
  }

  lemma StateMeans(group: Log, key: int)
    ensures var state := Merged(SortBy(group, ByTime));
      && (key in state <==> exists o :: o in ToSet(group) && key in o.changes)
      && (key in state ==>
            exists w :: w in ToSet(group) && key in w.changes && state[key] == w.changes[key] &&
              forall o :: o in ToSet(group) && key in o.changes ==> o.time < w.time || (o.time == w.time && o.id <= w.id))
  {
    var sorted := SortBy(group, ByTime);
    SortSorts(group, ByTime);
    SortElements(group, ByTime);
    assert ToSet(sorted) == ToSet(group);
    forall i, j | 0 <= i < j < |sorted|
      ensures sorted[i].time < sorted[j].time || (sorted[i].time == sorted[j].time && sorted[i].id <= sorted[j].id)
    {
      assert ByTime(sorted[i], sorted[j]);
    }
    MergedIsLastWriter(sorted, key);
  }

  lemma EmittedMeans(objectId: int, group: Log, policies: map<int, MergePolicy>)
    requires group != [] && Resolve(objectId, group, policies).Ok? && Resolve(objectId, group, policies).value.Emitted?
    ensures Emits(ToSet(group), policies, Resolve(objectId, group, policies).value.emitted)
  {
    var x, s := Resolve(objectId, group, policies).value.emitted, ToSet(group);
    forall o | o in s ensures o.objectKind == x.kind { var i :| 0 <= i < |group| && group[i] == o; }
    forall key { StateMeans(group, key); }
    forall id ensures id in x.operationIds <==> exists o :: o in s && o.id == id { EmittedIds(objectId, group, policies, id); }
    SortSorts(OperationIds(SortBy(group, ByTime)), AtMost);
    forall i, j | 0 <= i < j < |x.operationIds| ensures x.operationIds[i] <= x.operationIds[j] {
      assert AtMost(x.operationIds[i], x.operationIds[j]);
    }
    if policies[x.kind] == Authoritative {
      HeadsMean(group);
      forall a, b | IsHead(s, a) && IsHead(s, b) ensures a == b { assert a in Heads(group) && b in Heads(group); }
    }
  }

  /** The outcome of one group, whatever the order of its operations. */
  lemma ResolveMeans(objectId: int, group: Log, policies: map<int, MergePolicy>)
    requires group != []
    ensures Answers(objectId, ToSet(group), policies, Resolve(objectId, group, policies))
  {
    var r := Resolve(objectId, group, policies);
    assert group[0] in ToSet(group);
    if r.Err? {
      if !SameKind(group) {
        var i, j :| 0 <= i < |group| && 0 <= j < |group| && group[i].objectKind != group[j].objectKind;
        assert group[i] in ToSet(group) && group[j] in ToSet(group);
      }
    } else if r.value.Emitted? {
      EmittedMeans(objectId, group, policies);
    } else {
      forall o | o in ToSet(group) ensures o.objectKind == group[0].objectKind { var i :| 0 <= i < |group| && group[i] == o; }
      HeadsMean(group);
    }
  }

  lemma GroupIsAllowed(input: Log, target: Target, objectId: int)
    ensures ToSet(Group(Accepted(input, target), objectId)) == Allowed(input, target, objectId)
  {
    forall o ensures o in ToSet(Group(Accepted(input, target), objectId)) <==> o in Allowed(input, target, objectId) {
      GroupMembers(input, target, objectId, o);
      DenialMeans(o.policy, target);
    }
  }

  lemma AdmittedMean(input: Log, target: Target)
    ensures Rising(Accepted(input, target))
    ensures forall o :: o in Accepted(input, target) <==> o in input && Permits(o.policy, target)
  {
    var accepted := Accepted(input, target);
    SortSorts(input, ByTime);
    FilterSorted(SortBy(input, ByTime), AdmittedBy(target), ByTime);
    forall i, j | 0 <= i < j < |accepted|
      ensures accepted[i].time < accepted[j].time || (accepted[i].time == accepted[j].time && accepted[i].id <= accepted[j].id)
    {
      assert ByTime(accepted[i], accepted[j]);
    }
    forall o ensures o in accepted <==> o in input && Permits(o.policy, target) {
      AcceptedMembers(input, target, o);
      DenialMeans(o.policy, target);
    }
  }

  /** Every allowed operation's object is emitted or reported, each object once, in the order of the object ids. */
  ghost predicate Covers(input: Log, target: Target, policies: map<int, MergePolicy>, r: Synchronized) {
    && (forall x :: x in r.objects ==> Allowed(input, target, x.id) != {} && Emits(Allowed(input, target, x.id), policies, x))
    && (forall c :: c in r.conflicts ==>
          Allowed(input, target, c.objectId) != {} && Reports(Allowed(input, target, c.objectId), policies, c))
    && (forall o :: o in input && Permits(o.policy, target) ==>
          (exists x :: x in r.objects && x.id == o.objectId) || exists c :: c in r.conflicts && c.objectId == o.objectId)
    && (forall x, c :: x in r.objects && c in r.conflicts ==> x.id != c.objectId)
    && (forall i, j :: 0 <= i < j < |r.objects| ==> r.objects[i].id < r.objects[j].id)
    && forall i, j :: 0 <= i < j < |r.conflicts| ==> r.conflicts[i].objectId < r.conflicts[j].objectId
  }

  /** The rejection names an operation that the target may not have, with the reason. */
  predicate Rejecting(o: Operation, target: Target, x: Rejection) {
    !Permits(o.policy, target) && o.id == x.operationId && DeniedFor(o.policy, target, x.reason)
  }

  /** The rejections name the other operations, in the order of their ids. */
  ghost predicate Rejects(input: Log, target: Target, rejected: seq<Rejection>) {
    && (forall i, j :: 0 <= i < j < |rejected| ==> rejected[i].operationId <= rejected[j].operationId)
    && (forall o :: o in input && !Permits(o.policy, target) ==> exists x :: x in rejected && Rejecting(o, target, x))
    && forall x :: x in rejected ==> exists o :: o in input && Rejecting(o, target, x)
  }

  lemma RejectionsMean(input: Log, target: Target)
    ensures Rejects(input, target, SortBy(Rejections(Denied(input, target), target), ByOperationId))
  {
    var denied := Denied(input, target);
    var list := Rejections(denied, target);
    var rejected := SortBy(list, ByOperationId);
    SortElements(list, ByOperationId);
    SortSorts(list, ByOperationId);
    forall o | o in input && !Permits(o.policy, target)
      ensures exists x :: x in rejected && Rejecting(o, target, x)
    {
      DenialMeans(o.policy, target);
      AcceptedMembers(input, target, o);
      var x := Rejection(o.id, PolicyDenial(o.policy, target).value);
      RejectionsMembers(denied, target, x);
      assert x in rejected && Rejecting(o, target, x);
    }
    forall x | x in rejected ensures exists o :: o in input && Rejecting(o, target, x) {
      RejectionsMembers(denied, target, x);
      var o :| o in denied && o.id == x.operationId && PolicyDenial(o.policy, target) == Some(x.reason);
      AcceptedMembers(input, target, o);
      DenialMeans(o.policy, target);
      assert Rejecting(o, target, x);
    }
    forall i, j | 0 <= i < j < |rejected| ensures rejected[i].operationId <= rejected[j].operationId {
      assert ByOperationId(rejected[i], rejected[j]);
    }
  }

  function IdOf(outcome: Outcome): int {
    match outcome case Emitted(x) => x.id case Conflicted(c) => c.objectId
  }

  ghost predicate Ascend(outcomes: seq<Outcome>) {
    forall i, j :: 0 <= i < j < |outcomes| ==> IdOf(outcomes[i]) < IdOf(outcomes[j])
  }

  lemma {:induction false} PartsAscend(outcomes: seq<Outcome>)
    requires Ascend(outcomes)
    ensures forall i, j :: 0 <= i < j < |Objects(outcomes)| ==> Objects(outcomes)[i].id < Objects(outcomes)[j].id
    ensures forall i, j :: 0 <= i < j < |Conflicts(outcomes)| ==> Conflicts(outcomes)[i].objectId < Conflicts(outcomes)[j].objectId
    decreases |outcomes|
  {
    if outcomes != [] {
      var init, last := outcomes[..|outcomes| - 1], outcomes[|outcomes| - 1];
      PartsAscend(init);
      forall x | x in Objects(init) ensures x.id < IdOf(last) {
        ObjectsMembers(init, x);
        var i :| 0 <= i < |init| && init[i] == Emitted(x);
        assert IdOf(outcomes[i]) < IdOf(outcomes[|outcomes| - 1]);
      }
      forall c | c in Conflicts(init) ensures c.objectId < IdOf(last) {
        ConflictsMembers(init, c);
        var i :| 0 <= i < |init| && init[i] == Conflicted(c);
        assert IdOf(outcomes[i]) < IdOf(outcomes[|outcomes| - 1]);
      }
    }
  }

  lemma OutcomesAscend(input: Log, target: Target, policies: map<int, MergePolicy>)
    requires ResolveAll(ObjectOrder(input, target), Accepted(input, target), policies).Ok?
    ensures Ascend(ResolveAll(ObjectOrder(input, target), Accepted(input, target), policies).value)
  {
    var accepted, ids := Accepted(input, target), ObjectOrder(input, target);
    var outcomes := ResolveAll(ids, accepted, policies).value;
    ObjectOrderMembers(input, target);
    SortSorts(Unique(ObjectIds(accepted)), AtMost);
    OutcomesAt(ids, accepted, policies, 0);
    forall i | 0 <= i < |outcomes| ensures IdOf(outcomes[i]) == ids[i] { OutcomesAt(ids, accepted, policies, i); }
    forall i, j | 0 <= i < j < |outcomes| ensures IdOf(outcomes[i]) < IdOf(outcomes[j]) {
      assert AtMost(ids[i], ids[j]) && ids[i] != ids[j];
    }
  }

  lemma OutcomeAnswers(input: Log, target: Target, policies: map<int, MergePolicy>, outcome: Outcome)
    requires ResolveAll(ObjectOrder(input, target), Accepted(input, target), policies).Ok?
    requires outcome in ResolveAll(ObjectOrder(input, target), Accepted(input, target), policies).value
    ensures Allowed(input, target, IdOf(outcome)) != {}
    ensures Answers(IdOf(outcome), Allowed(input, target, IdOf(outcome)), policies, Ok(outcome))
  {
    var id := OutcomeGroup(input, target, policies, outcome);
    var group := Group(Accepted(input, target), id);
    GroupIsAllowed(input, target, id);
    assert group[0] in ToSet(group);
    ResolveMeans(id, group, policies);
  }

  lemma OutcomesCover(input: Log, target: Target, policies: map<int, MergePolicy>)
    requires Synchronize(input, target, policies).Ok?
    ensures Covers(input, target, policies, Synchronize(input, target, policies).value)
  {
    var r := Synchronize(input, target, policies).value;
    var outcomes := ResolveAll(ObjectOrder(input, target), Accepted(input, target), policies).value;
    OutcomesAscend(input, target, policies);
    PartsAscend(outcomes);
    forall x { ObjectsMembers(outcomes, x); }
    forall c { ConflictsMembers(outcomes, c); }
    forall x | x in r.objects
      ensures Allowed(input, target, x.id) != {} && Emits(Allowed(input, target, x.id), policies, x)
    {
      OutcomeAnswers(input, target, policies, Emitted(x));
    }
    forall c | c in r.conflicts
      ensures Allowed(input, target, c.objectId) != {} && Reports(Allowed(input, target, c.objectId), policies, c)
    {
      OutcomeAnswers(input, target, policies, Conflicted(c));
    }
    forall o | o in input && Permits(o.policy, target)
      ensures (exists x :: x in r.objects && x.id == o.objectId) || exists c :: c in r.conflicts && c.objectId == o.objectId
    {
      DenialMeans(o.policy, target);
      AcceptedMembers(input, target, o);
      var outcome, all := OutcomeOf(input, target, policies, o);
      assert outcome.Emitted? ==> outcome.emitted in r.objects && outcome.emitted.id == o.objectId;
      assert outcome.Conflicted? ==> outcome.conflict in r.conflicts && outcome.conflict.objectId == o.objectId;
    }
    forall x, c | x in r.objects && c in r.conflicts ensures x.id != c.objectId {
      var i :| 0 <= i < |outcomes| && outcomes[i] == Emitted(x);
      var j :| 0 <= j < |outcomes| && outcomes[j] == Conflicted(c);
      assert IdOf(outcomes[i]) < IdOf(outcomes[j]) || IdOf(outcomes[j]) < IdOf(outcomes[i]);
    }
  }

  /** With distinct ids every operation of an emitted object is listed once. */
  lemma ListedOnce(input: Log, target: Target, policies: map<int, MergePolicy>, x: ObjectState)
    requires DistinctIds(input) && Synchronize(input, target, policies).Ok?
    requires x in Synchronize(input, target, policies).value.objects
    ensures |x.operationIds| == |Allowed(input, target, x.id)|
  {
    var outcomes := ResolveAll(ObjectOrder(input, target), Accepted(input, target), policies).value;
    ObjectsMembers(outcomes, x);
    var id := OutcomeGroup(input, target, policies, Emitted(x));
    var group := Group(Accepted(input, target), id);
    GroupIsAllowed(input, target, id);
    GroupDistinct(input, target, id);
    DistinctCardinality(group);
    SortElements(group, ByTime);
    SortElements(OperationIds(SortBy(group, ByTime)), AtMost);
  }

  /** A refusal is of the kinds of some object's operations, or of a kind without a policy. */
  ghost predicate RefusedFor(input: Log, target: Target, policies: map<int, MergePolicy>, e: SyncError) {
    match e
    case KindChanged(id) =>
      exists a, b :: a in Allowed(input, target, id) && b in Allowed(input, target, id) && a.objectKind != b.objectKind
    case PolicyMissing(kind) => kind !in policies && exists o :: o in input && Permits(o.policy, target) && o.objectKind == kind
  }

  lemma {:induction false} ResolveAllRefuses(input: Log, target: Target, policies: map<int, MergePolicy>, ids: seq<int>)
    requires ResolveAll(ids, Accepted(input, target), policies).Err?
    ensures RefusedFor(input, target, policies, ResolveAll(ids, Accepted(input, target), policies).error)
    decreases |ids|
  {
    if ids != [] {
      var init, id := ids[..|ids| - 1], ids[|ids| - 1];
      var group := Group(Accepted(input, target), id);
      if ResolveAll(init, Accepted(input, target), policies).Err? {
        ResolveAllRefuses(input, target, policies, init);
      } else {
        ResolveMeans(id, group, policies);
        GroupIsAllowed(input, target, id);
      }
    }
  }

  ghost predicate Synchronizes(input: Log, target: Target, policies: map<int, MergePolicy>, r: Result<Synchronized, SyncError>) {
    match r
    case Ok(s) => Covers(input, target, policies, s) && Rejects(input, target, s.rejected)
    case Err(e) => RefusedFor(input, target, policies, e)
  }

  /** What synchronising a log gives, in the fields of its operations. */
  lemma SynchronizedMeans(input: Log, target: Target, policies: map<int, MergePolicy>)
    ensures Synchronizes(input, target, policies, Synchronize(input, target, policies))
  {
    if Synchronize(input, target, policies).Ok? {
      OutcomesCover(input, target, policies);
      RejectionsMean(input, target);
    } else {
      ResolveAllRefuses(input, target, policies, ObjectOrder(input, target));
    }
  }

  // ----- the engine -----

  class SyncEngine {
    const policies: map<int, MergePolicy>

    constructor (policies: map<int, MergePolicy>)
      ensures this.policies == policies
    {
      this.policies := policies;
    }

    method Admit(input: Log, target: Target) returns (accepted: Log, rejected: seq<Rejection>)
      ensures accepted == Accepted(input, target) && rejected == Rejections(Denied(input, target), target)
      ensures forall o :: o in accepted <==> o in input && Permits(o.policy, target)
      ensures Rising(accepted) && Rejects(input, target, SortBy(rejected, ByOperationId))
    {
      var sorted := SortBy(input, ByTime);
      accepted, rejected := [], [];
      for i := 0 to |sorted|
        invariant accepted == Filter(sorted[..i], AdmittedBy(target))
        invariant rejected == Rejections(Filter(sorted[..i], RefusedBy(target)), target)
      {
        var operation := sorted[i];
        AdmitStep(sorted, i, target);
        var denial := PolicyDenial(operation.policy, target);
        if denial == None {
          accepted := accepted + [operation];
        } else {
          rejected := rejected + [Rejection(operation.id, denial.value)];
        }
      }
      assert sorted[..|sorted|] == sorted;
      AdmittedMean(input, target);
      RejectionsMean(input, target);
    }

    method GroupByObject(accepted: Log) returns (groups: map<int, Log>, order: seq<int>)
      ensures GroupedInto(groups, order, accepted)
    {
      groups, order := map[], [];
      for i := 0 to |accepted|
        invariant GroupedInto(groups, order, accepted[..i])
      {
        var operation := accepted[i];
        var id := operation.objectId;
        GroupStep(groups, order, accepted, i);
        if id !in groups { order := order + [id]; }
        groups := groups[id := GroupIn(groups, id) + [operation]];
      }
      assert accepted[..|accepted|] == accepted;
    }

    method MergeChanges(ordered: Log) returns (state: map<int, int>)
      ensures state == Merged(ordered)
    {
      state := map[];
      for i := 0 to |ordered|
        invariant state == Merged(ordered[..i])
      {
        state := state + ordered[i].changes;
        assert ordered[..i + 1][..i] == ordered[..i];
      }
      assert ordered[..|ordered|] == ordered;
    }

    /** The body of the loop over groups. */
    method ResolveObject(objectId: int, operations: Log) returns (r: Result<Outcome, SyncError>)
      requires operations != []
      ensures r == Resolve(objectId, operations, policies)
      ensures Answers(objectId, ToSet(operations), policies, r)
    {
      ResolveMeans(objectId, operations, policies);
      var objectKind := operations[0].objectKind;
      if exists i :: 0 <= i < |operations| && operations[i].objectKind != objectKind { return Err(KindChanged(objectId)); }
      if objectKind !in policies { return Err(PolicyMissing(objectKind)); }
      if policies[objectKind] == Authoritative {
        var heads := Heads(operations);
        if |heads| > 1 { return Ok(Conflicted(Conflict(objectId, objectKind, OperationIds(heads)))); }
      }
      var ordered := SortBy(operations, ByTime);
      var state := MergeChanges(ordered);
      r := Ok(Emitted(ObjectState(objectId, objectKind, state, SortBy(OperationIds(ordered), AtMost))));
    }

    /** The loop over groups, in object order. */
    method ResolveGroups(ids: seq<int>, groups: map<int, Log>, ghost accepted: Log)
      returns (r: Result<(seq<ObjectState>, seq<Conflict>), SyncError>)
      requires forall i :: 0 <= i < |ids| ==> ids[i] in groups && groups[ids[i]] == Group(accepted, ids[i]) && groups[ids[i]] != []
      ensures match ResolveAll(ids, accepted, policies)
        case Err(e) => r == Err(e)
        case Ok(outcomes) => r == Ok((Objects(outcomes), Conflicts(outcomes)))
    {
      var objects, conflicts: seq<Conflict> := [], [];
      ghost var outcomes: seq<Outcome> := [];
      for k := 0 to |ids|
        invariant ResolveAll(ids[..k], accepted, policies) == Ok(outcomes)
        invariant objects == Objects(outcomes) && conflicts == Conflicts(outcomes)
      {
        ResolveSnoc(ids, k, accepted, policies);
        var outcome := ResolveObject(ids[k], groups[ids[k]]);
        if outcome.Err? { return Err(outcome.error); }
        OutcomesSnoc(outcomes, outcome.value);
        outcomes := outcomes + [outcome.value];
        match outcome.value
        case Emitted(merged) => objects := objects + [merged];
        case Conflicted(conflict) => conflicts := conflicts + [conflict];
      }
      assert ids[..|ids|] == ids;
      r := Ok((objects, conflicts));
    }

    method SynchronizeLog(input: Log, target: Target) returns (r: Result<Synchronized, SyncError>)
      ensures r == Synchronize(input, target, policies)
      ensures Synchronizes(input, target, policies, r)
      ensures DistinctIds(input) && r.Ok? ==>
        forall x :: x in r.value.objects ==> |x.operationIds| == |Allowed(input, target, x.id)|
    {
      SynchronizedMeans(input, target, policies);
      var accepted, rejected := Admit(input, target);
      var groups, order := GroupByObject(accepted);
      GroupsReady(groups, order, input, target);
      var resolved := ResolveGroups(SortBy(order, AtMost), groups, accepted);
      r := match resolved
        case Err(e) => Err(e)
        case Ok((objects, conflicts)) => Ok(Synchronized(objects, conflicts, SortBy(rejected, ByOperationId)));
      if DistinctIds(input) && r.Ok? {
        forall x | x in r.value.objects { ListedOnce(input, target, policies, x); }
      }
    }
  }

  lemma GroupsReady(groups: map<int, Log>, order: seq<int>, input: Log, target: Target)
    requires GroupedInto(groups, order, Accepted(input, target))
    ensures SortBy(order, AtMost) == ObjectOrder(input, target)
    ensures var ids := SortBy(order, AtMost);
      forall i :: 0 <= i < |ids| ==>
        ids[i] in groups && groups[ids[i]] == Group(Accepted(input, target), ids[i]) && groups[ids[i]] != []
  {
    var ids := SortBy(order, AtMost);
    SortElements(order, AtMost);
    ObjectOrderMembers(input, target);
    forall i | 0 <= i < |ids|
      ensures ids[i] in groups && groups[ids[i]] == Group(Accepted(input, target), ids[i]) && groups[ids[i]] != []
    {
      assert ids[i] in ids && ids[i] in ToSet(order);
      assert GroupIn(groups, ids[i]) == Group(Accepted(input, target), ids[i]);
    }
  }

  lemma AdmitStep(sorted: Log, i: nat, target: Target)
    requires i < |sorted|
    ensures var o := sorted[i];
      if Admitted(o, target) then
        && Filter(sorted[..i + 1], AdmittedBy(target)) == Filter(sorted[..i], AdmittedBy(target)) + [o]
        && Filter(sorted[..i + 1], RefusedBy(target)) == Filter(sorted[..i], RefusedBy(target))
      else
        && Filter(sorted[..i + 1], AdmittedBy(target)) == Filter(sorted[..i], AdmittedBy(target))
        && Rejections(Filter(sorted[..i + 1], RefusedBy(target)), target) ==
           Rejections(Filter(sorted[..i], RefusedBy(target)), target) + [Rejection(o.id, PolicyDenial(o.policy, target).value)]
  {
    var o := sorted[i];
    assert sorted[..i + 1] == sorted[..i] + [o];
    FilterAppend(sorted[..i], [o], AdmittedBy(target));
    FilterAppend(sorted[..i], [o], RefusedBy(target));
    if !Admitted(o, target) { RejectionsSnoc(Filter(sorted[..i], RefusedBy(target)), o, target); }
  }

  function GroupIn(groups: map<int, Log>, id: int): Log {
    if id in groups then groups[id] else []
  }

  ghost predicate GroupedInto(groups: map<int, Log>, order: seq<int>, log: Log) {
    && (forall id :: GroupIn(groups, id) == Group(log, id))
    && order == Unique(ObjectIds(log)) && groups.Keys == ToSet(order)
  }

  lemma GroupStep(groups: map<int, Log>, order: seq<int>, log: Log, i: nat)
    requires i < |log| && GroupedInto(groups, order, log[..i])
    ensures var id := log[i].objectId;
      GroupedInto(groups[id := GroupIn(groups, id) + [log[i]]], if id in groups then order else order + [id], log[..i + 1])
  {
    assert log[..i + 1] == log[..i] + [log[i]];
    GroupStepAt(groups, order, log[..i], log[i]);
  }

  lemma GroupsStep(groups: map<int, Log>, log: Log, o: Operation, k: int)
    requires GroupIn(groups, k) == Group(log, k)
    ensures GroupIn(groups[o.objectId := GroupIn(groups, o.objectId) + [o]], k) == Group(log + [o], k)
  {
    GroupSnoc(log, o, k);
  }

  lemma OrderStep(groups: map<int, Log>, order: seq<int>, log: Log, o: Operation)
    requires order == Unique(ObjectIds(log)) && groups.Keys == ToSet(order)
    ensures var next := if o.objectId in groups then order else order + [o.objectId];
      next == Unique(ObjectIds(log + [o])) && groups.Keys + {o.objectId} == ToSet(next)
  {
    assert o.objectId in groups <==> o.objectId in order;
    UniqueSnoc(log, o);
    ConcatSet(order, [o.objectId]);
  }

  lemma GroupStepAt(groups: map<int, Log>, order: seq<int>, log: Log, o: Operation)
    requires GroupedInto(groups, order, log)
    ensures GroupedInto(groups[o.objectId := GroupIn(groups, o.objectId) + [o]],
                        if o.objectId in groups then order else order + [o.objectId], log + [o])
  {
    OrderStep(groups, order, log, o);
    forall k ensures GroupIn(groups[o.objectId := GroupIn(groups, o.objectId) + [o]], k) == Group(log + [o], k) {
      assert GroupIn(groups, k) == Group(log, k);
      GroupsStep(groups, log, o, k);
    }
  }

  lemma RejectionsSnoc(denied: Log, o: Operation, target: Target)
    requires !Admitted(o, target)
    ensures Rejections(denied + [o], target) == Rejections(denied, target) + [Rejection(o.id, PolicyDenial(o.policy, target).value)]
  {
    assert (denied + [o])[..|denied|] == denied;
  }

  lemma UniqueSnoc(log: Log, o: Operation)
    ensures Unique(ObjectIds(log + [o])) ==
            if o.objectId in Unique(ObjectIds(log)) then Unique(ObjectIds(log)) else Unique(ObjectIds(log)) + [o.objectId]
  {
    var ids := ObjectIds(log + [o]);
    assert ids[..|ids| - 1] == ObjectIds(log);
  }

  lemma GroupSnoc(log: Log, o: Operation, id: int)
    ensures Group(log + [o], id) == if o.objectId == id then Group(log, id) + [o] else Group(log, id)
  {
    FilterAppend(log, [o], OfObject(id));
  }

  lemma OutcomesSnoc(outcomes: seq<Outcome>, outcome: Outcome)
    ensures Objects(outcomes + [outcome]) == Objects(outcomes) + match outcome case Emitted(o) => [o] case Conflicted(_) => []
    ensures Conflicts(outcomes + [outcome]) == Conflicts(outcomes) + match outcome case Emitted(_) => [] case Conflicted(c) => [c]
  {
    assert (outcomes + [outcome])[..|outcomes|] == outcomes;
  }

  lemma ResolveSnoc(ids: seq<int>, k: nat, log: Log, policies: map<int, MergePolicy>)
    requires k < |ids| && Group(log, ids[k]) != [] && ResolveAll(ids[..k], log, policies).Ok?
    ensures ResolveAll(ids[..k + 1], log, policies) ==
            match Resolve(ids[k], Group(log, ids[k]), policies)
            case Err(e) => Err(e)
            case Ok(outcome) => Ok(ResolveAll(ids[..k], log, policies).value + [outcome])
    ensures Resolve(ids[k], Group(log, ids[k]), policies).Err? ==>
              ResolveAll(ids, log, policies) == Err(Resolve(ids[k], Group(log, ids[k]), policies).error)
  {
    assert ids[..k + 1][..k] == ids[..k];
    if Resolve(ids[k], Group(log, ids[k]), policies).Err? { ErrorStays(ids, k + 1, log, policies); }
  }

  lemma {:induction false} ErrorStays(ids: seq<int>, k: nat, log: Log, policies: map<int, MergePolicy>)
    requires k <= |ids| && ResolveAll(ids[..k], log, policies).Err?
    ensures ResolveAll(ids, log, policies) == ResolveAll(ids[..k], log, policies)
    decreases |ids|
  {
    if k == |ids| {
      assert ids[..k] == ids;
    } else {
      assert ids[..|ids| - 1][..k] == ids[..k];
      ErrorStays(ids[..|ids| - 1], k, log, policies);
    }
  }
}
