/**
 packages/composition-runtime: components that activate when their requirements can be bound to registered
 providers, and unload when a bound provider is lost. Calls do not overlap; what the evaluators and the
 component's own `acquireRuntime` answer during a call is an input of the call.
 */
module Composition {
  import opened Wrappers
  import opened Collections
  import opened Sorting

  datatype Lifecycle = Pending | Loading | Active | Suspended | Degraded | Unloading | Disposed | Failed

  datatype Scope = Scope(workspace: int, episode: Option<int>, component: Option<int>, request: Option<int>)

  datatype Provider = Provider(id: int, capability: int, version: int, scope: Scope, priority: int)

  datatype Requirement = Requirement(capability: int, compatible: Provider -> bool)

  datatype Definition = Definition(id: int, scope: Scope, requirements: seq<Requirement>, acquires: bool)

  datatype Component = Component(definition: Definition, state: Lifecycle, bindings: seq<Provider>, leases: seq<int>)

  datatype Transition = Transition(sequence: nat, component: int, from: Option<Lifecycle>, to: Lifecycle, providers: seq<int>)

  datatype Lease = Lease(component: int, id: int)

  /** A lease as `acquireRuntime` returns it; it is well formed if its id has the prefix and its class is RUNTIME. */
  datatype Grant = Grant(id: int, wellFormed: bool)

  datatype Granted = Granted(component: int, grants: seq<Grant>)

  /** The evaluators allow, refuse with a reason, or throw; a blank reason throws too. */
  datatype Verdict = Allows | Refuses | Throws

  /** What the callbacks of one reconciliation answer; `grants` is absent when `acquireRuntime` throws. */
  datatype Answer = Answer(verdict: Verdict, grants: Option<seq<Grant>>)

  /**
   `order` and `providers` are maps in their iteration order. The last three fields are history: the lists
   that acquirers returned, the leases disposed, and every provider ever registered.
   */
  datatype Runtime = Runtime(
    components: map<int, Component>, order: seq<int>, providers: seq<Provider>, journal: seq<Transition>,
    granted: seq<Granted>, disposed: seq<Lease>, seen: seq<Provider>)

  datatype RuntimeError =
    | DuplicateComponent(id: int) | DuplicateProvider(id: int) | UnknownProvider(id: int) | DuplicateCapability
    | EvaluationThrew(component: int) | BlankReason

  /** A call that throws may have changed the runtime by then. */
  datatype Outcome = Outcome(runtime: Runtime, thrown: Option<RuntimeError>)

  // ----- resolving requirements -----

  predicate Fits(part: Option<int>, consumer: Option<int>) {
    part.None? || part == consumer
  }

  predicate Visible(provider: Scope, consumer: Scope) {
    && provider.workspace == consumer.workspace && Fits(provider.episode, consumer.episode)
    && Fits(provider.component, consumer.component) && Fits(provider.request, consumer.request)
  }

  predicate Offers(p: Provider, r: Requirement, scope: Scope) {
    p.capability == r.capability && Visible(p.scope, scope) && r.compatible(p)
  }

  function Offering(r: Requirement, scope: Scope): Provider -> bool {
    (p: Provider) => Offers(p, r, scope)
  }

  predicate ByPriority(a: Provider, b: Provider) {
    a.priority > b.priority || (a.priority == b.priority && a.id <= b.id)
  }

  function Best(providers: seq<Provider>, r: Requirement, scope: Scope): Option<Provider> {
    var candidates := SortBy(Filter(providers, Offering(r, scope)), ByPriority);
    if candidates == [] then None else Some(candidates[0])
  }

  function Resolve(providers: seq<Provider>, requirements: seq<Requirement>, scope: Scope): Option<seq<Provider>> {
    if requirements == [] then Some([]) else
      var last := |requirements| - 1;
      match Resolve(providers, requirements[..last], scope)
      case None => None
      case Some(bindings) =>
        match Best(providers, requirements[last], scope)
        case None => None
        case Some(p) => Some(bindings + [p])
  }

  // ----- single steps -----

  function ProviderIds(bindings: seq<Provider>): (ids: seq<int>)
    ensures |ids| == |bindings| && forall i :: 0 <= i < |ids| ==> ids[i] == bindings[i].id
  {
    seq(|bindings|, i requires 0 <= i < |bindings| => bindings[i].id)
  }

  function Transit(s: Runtime, id: int, from: Option<Lifecycle>, to: Lifecycle): Runtime
    requires id in s.components
  {
    var c := s.components[id];
    s.(components := s.components[id := c.(state := to)],
       journal := s.journal + [Transition(|s.journal| + 1, id, from, to, ProviderIds(c.bindings))])
  }

  function Bind(s: Runtime, id: int, bindings: seq<Provider>): Runtime
    requires id in s.components
  {
    s.(components := s.components[id := s.components[id].(bindings := bindings)])
  }

  function LeasesOf(id: int, leases: seq<int>): (r: seq<Lease>)
    ensures |r| == |leases| && forall i :: 0 <= i < |r| ==> r[i] == Lease(id, leases[i])
  {
    seq(|leases|, i requires 0 <= i < |leases| => Lease(id, leases[i]))
  }

  function Ids(grants: seq<Grant>): (ids: seq<int>)
    ensures |ids| == |grants| && forall i :: 0 <= i < |ids| ==> ids[i] == grants[i].id
  {
    seq(|grants|, i requires 0 <= i < |grants| => grants[i].id)
  }

  /** The activation's leases, next to the list they came in. */
  function Hold(s: Runtime, id: int, record: seq<Granted>, leases: seq<int>): Runtime
    requires id in s.components
  {
    s.(components := s.components[id := s.components[id].(leases := leases)], granted := s.granted + record)
  }

  /** Every lease is disposed, whether or not a disposer throws. */
  function Release(s: Runtime, id: int): Runtime
    requires id in s.components
  {
    var c := s.components[id];
    s.(components := s.components[id := c.(leases := [], bindings := [])], disposed := s.disposed + LeasesOf(id, c.leases))
  }

  predicate NoRepeats(s: seq<int>) {
    forall i, j :: 0 <= i < j < |s| ==> s[i] != s[j]
  }

  /** `normalizeLeases` takes the list: every lease well formed, no id twice. */
  predicate Accepted(grants: seq<Grant>) {
    (forall i :: 0 <= i < |grants| ==> grants[i].wellFormed) && NoRepeats(Ids(grants))
  }

  /** The list that `acquireRuntime` returns, if it is called and returns. */
  function Returned(d: Definition, a: Answer): seq<Granted> {
    if d.acquires && a.grants.Some? then [Granted(d.id, a.grants.value)] else []
  }

  function Acquire(d: Definition, a: Answer): Option<seq<int>> {
    if !d.acquires then Some([])
    else if a.grants.Some? && Accepted(a.grants.value) then Some(Ids(a.grants.value)) else None
  }

  // ----- reconciling and unloading one component -----

  function Activate(s: Runtime, id: int, bindings: seq<Provider>, a: Answer): Runtime
    requires id in s.components
  {
    var d := s.components[id].definition;
    var loading := Bind(Transit(s, id, Some(Pending), Loading), id, bindings);
    match Acquire(d, a)
    case Some(leases) => Transit(Hold(loading, id, Returned(d, a), leases), id, Some(Loading), Active)
    case None => Transit(Bind(Hold(loading, id, Returned(d, a), []), id, []), id, Some(Loading), Failed)
  }

  function Reconcile(s: Runtime, id: int, a: Answer): Outcome
    requires id in s.components
  {
    var c := s.components[id];
    if c.state != Pending then Outcome(s, None)
    else match Resolve(s.providers, c.definition.requirements, c.definition.scope)
      case None => Outcome(s, None)
      case Some(bindings) =>
        match a.verdict
        case Throws => Outcome(s, Some(EvaluationThrew(id)))
        case Refuses => Outcome(Transit(s, id, Some(Pending), Pending), None)
        case Allows => Outcome(Activate(s, id, bindings, a), None)
  }

  predicate Uses(bindings: seq<Provider>, provider: int) {
    exists i :: 0 <= i < |bindings| && bindings[i].id == provider
  }

  function Unload(s: Runtime, id: int, provider: int): Runtime
    requires id in s.components
  {
    var c := s.components[id];
    if !Uses(c.bindings, provider) then s
    else
      var unloading := Transit(Transit(s, id, Some(c.state), Suspended), id, Some(Suspended), Unloading);
      Transit(Release(unloading, id), id, Some(Unloading), Pending)
  }

  // ----- whole calls -----

  /** Components in the given order, up to the first that throws. */
  function ReconcileAll(s: Runtime, ids: seq<int>, answers: int -> Answer): Outcome
    decreases |ids|
  {
    if ids == [] then Outcome(s, None) else
      var r := ReconcileAll(s, ids[..|ids| - 1], answers);
      var id := ids[|ids| - 1];
      if r.thrown.None? && id in r.runtime.components then Reconcile(r.runtime, id, answers(id)) else r
  }

  /** The reason is looked at when the first component bound to the provider is reached. */
  function UnloadAll(s: Runtime, ids: seq<int>, provider: int, blank: bool): Outcome
    decreases |ids|
  {
    if ids == [] then Outcome(s, None) else
      var r := UnloadAll(s, ids[..|ids| - 1], provider, blank);
      var id := ids[|ids| - 1];
      if r.thrown.Some? || id !in r.runtime.components || !Uses(r.runtime.components[id].bindings, provider) then r
      else if blank then Outcome(r.runtime, Some(BlankReason))
      else Outcome(Unload(r.runtime, id, provider), None)
  }

  predicate Ascending(a: int, b: int) {
    a <= b
  }

  function Ordered(s: Runtime): seq<int> {
    SortBy(s.order, Ascending)
  }

  predicate DistinctCapabilities(requirements: seq<Requirement>) {
    forall i, j :: 0 <= i < j < |requirements| ==> requirements[i].capability != requirements[j].capability
  }

  predicate HasProvider(providers: seq<Provider>, id: int) {
    exists i :: 0 <= i < |providers| && providers[i].id == id
  }

  function OtherThan(id: int): Provider -> bool {
    (p: Provider) => p.id != id
  }

  function AddComponent(s: Runtime, d: Definition): Runtime {
    s.(components := s.components[d.id := Component(d, Pending, [], [])], order := s.order + [d.id])
  }

  function RegisterComponent(s: Runtime, d: Definition, a: Answer): Outcome {
    if !DistinctCapabilities(d.requirements) then Outcome(s, Some(DuplicateCapability))
    else if d.id in s.components then Outcome(s, Some(DuplicateComponent(d.id)))
    else Reconcile(Transit(AddComponent(s, d), d.id, None, Pending), d.id, a)
  }

  function WithProvider(s: Runtime, p: Provider): Runtime {
    s.(providers := s.providers + [p], seen := s.seen + [p])
  }

  function RegisterProvider(s: Runtime, p: Provider, answers: int -> Answer): Outcome {
    if HasProvider(s.providers, p.id) then Outcome(s, Some(DuplicateProvider(p.id)))
    else ReconcileAll(WithProvider(s, p), Ordered(s), answers)
  }

  function WithoutProvider(s: Runtime, id: int): Runtime {
    s.(providers := Filter(s.providers, OtherThan(id)))
  }

  /** The provider is deleted first; `blank` says whether the reason given is blank. */
  function UnregisterProvider(s: Runtime, id: int, blank: bool): Outcome {
    if !HasProvider(s.providers, id) then Outcome(s, Some(UnknownProvider(id)))
    else UnloadAll(WithoutProvider(s, id), Ordered(s), id, blank)
  }

  datatype Event =
    | AddingComponent(definition: Definition, answer: Answer)
    | AddingProvider(provider: Provider, answers: int -> Answer)
    | LosingProvider(id: int, blank: bool)

  function Step(s: Runtime, ev: Event): Outcome {
    match ev
    case AddingComponent(d, a) => RegisterComponent(s, d, a)
    case AddingProvider(p, answers) => RegisterProvider(s, p, answers)
    case LosingProvider(id, blank) => UnregisterProvider(s, id, blank)
  }

  function After(s: Runtime, events: seq<Event>): Runtime {
    if events == [] then s else Step(After(s, events[..|events| - 1]), events[|events| - 1]).runtime
  }

  const EMPTY := Runtime(map[], [], [], [], [], [], [])

  // ----- resolution picks the best visible provider -----

  /** A provider that the requirement can be bound to: its capability, seen from the scope, and suitable. */
  ghost predicate Serves(p: Provider, r: Requirement, scope: Scope) {
    && p.capability == r.capability && r.compatible(p) && p.scope.workspace == scope.workspace
    && (p.scope.episode.Some? ==> p.scope.episode == scope.episode)
    && (p.scope.component.Some? ==> p.scope.component == scope.component)
    && (p.scope.request.Some? ==> p.scope.request == scope.request)
  }

  /** It serves, and every other provider that does has a lower priority, or the same one and no smaller id. */
  ghost predicate IsBest(providers: seq<Provider>, r: Requirement, scope: Scope, p: Provider) {
    && p in providers && Serves(p, r, scope)
    && forall other :: other in providers && Serves(other, r, scope) ==>
         p.priority > other.priority || (p.priority == other.priority && p.id <= other.id)
  }

  lemma BestIsBest(providers: seq<Provider>, r: Requirement, scope: Scope)
    ensures match Best(providers, r, scope)
      case None => Unserved(providers, r, scope)
      case Some(p) => IsBest(providers, r, scope, p)
  {
    var offered := Filter(providers, Offering(r, scope));
    var candidates := SortBy(offered, ByPriority);
    FilterElements(providers, Offering(r, scope));
    SortElements(offered, ByPriority);
    SortSorts(offered, ByPriority);
    if candidates == [] {
      forall p | p in providers ensures !Offers(p, r, scope) { assert p in offered <==> Offers(p, r, scope); }
    } else {
      assert candidates[0] in candidates;
      forall other | other in providers && Offers(other, r, scope) ensures ByPriority(candidates[0], other) {
        assert other in offered <==> Offers(other, r, scope);
        assert other in candidates;
        var i :| 0 <= i < |candidates| && candidates[i] == other;
        assert i == 0 || ByPriority(candidates[0], candidates[i]);
      }
    }
  }

  ghost predicate AllBest(providers: seq<Provider>, requirements: seq<Requirement>, scope: Scope, bindings: seq<Provider>) {
    |bindings| == |requirements| && forall i :: 0 <= i < |bindings| ==> IsBest(providers, requirements[i], scope, bindings[i])
  }

  ghost predicate Unserved(providers: seq<Provider>, r: Requirement, scope: Scope) {
    forall p :: p in providers ==> !Serves(p, r, scope)
  }

  lemma AllBestSnoc(providers: seq<Provider>, requirements: seq<Requirement>, scope: Scope, bindings: seq<Provider>, p: Provider)
    requires requirements != [] && AllBest(providers, requirements[..|requirements| - 1], scope, bindings)
    requires IsBest(providers, requirements[|requirements| - 1], scope, p)
    ensures AllBest(providers, requirements, scope, bindings + [p])
  {
  }

  /** Every requirement is bound to the best provider it can see, or some requirement has none. */
  lemma {:induction false} ResolvedIsBest(providers: seq<Provider>, requirements: seq<Requirement>, scope: Scope)
    ensures match Resolve(providers, requirements, scope)
      case Some(bindings) => AllBest(providers, requirements, scope, bindings)
      case None => exists i :: 0 <= i < |requirements| && Unserved(providers, requirements[i], scope)
    decreases |requirements|
  {
    if requirements != [] {
      var last := |requirements| - 1;
      ResolvedIsBest(providers, requirements[..last], scope);
      BestIsBest(providers, requirements[last], scope);
      var init, best := Resolve(providers, requirements[..last], scope), Best(providers, requirements[last], scope);
      if init.None? {
        var i :| 0 <= i < last && Unserved(providers, requirements[..last][i], scope);
        assert Unserved(providers, requirements[i], scope);
      } else if best.Some? {
        AllBestSnoc(providers, requirements, scope, init.value, best.value);
      }
    }
  }

  // ----- what the evaluators and the acquirer decide -----

  /** Pending, with a provider to bind each requirement to. */
  ghost predicate Ready(c: Component, providers: seq<Provider>) {
    && c.state == Pending
    && forall i :: 0 <= i < |c.definition.requirements| ==> !Unserved(providers, c.definition.requirements[i], c.definition.scope)
  }

  /** The component acquires nothing, or its acquirer returns well-formed leases with distinct ids. */
  ghost predicate Acquires(d: Definition, grants: Option<seq<Grant>>) {
    d.acquires ==>
      && grants.Some?
      && (forall i :: 0 <= i < |grants.value| ==> grants.value[i].wellFormed)
      && forall i, j :: 0 <= i < j < |grants.value| ==> grants.value[i].id != grants.value[j].id
  }

  /** Active on the best providers, holding exactly the leases that were returned. */
  ghost predicate Started(c: Component, providers: seq<Provider>, a: Answer) {
    && c.state == Active && AllBest(providers, c.definition.requirements, c.definition.scope, c.bindings)
    && (!c.definition.acquires ==> c.leases == [])
    && (c.definition.acquires ==>
          && a.grants.Some? && |c.leases| == |a.grants.value|
          && forall i :: 0 <= i < |c.leases| ==> c.leases[i] == a.grants.value[i].id)
  }

  /**
   What one answer makes of a component. A ready component is started if it is allowed and acquires, fails if it
   is allowed and does not acquire, and is left as it was, pending, if it is refused or an evaluator throws;
   a component that is not ready is left alone.
   */
  ghost predicate Answered(c: Component, providers: seq<Provider>, a: Answer, u: Component, threw: bool) {
    && u.definition == c.definition
    && (threw <==> Ready(c, providers) && a.verdict == Throws)
    && (Ready(c, providers) && a.verdict == Allows && Acquires(c.definition, a.grants) ==> Started(u, providers, a))
    && (Ready(c, providers) && a.verdict == Allows && !Acquires(c.definition, a.grants) ==>
          u.state == Failed && u.bindings == [] && u.leases == [])
    && (!Ready(c, providers) || a.verdict == Refuses || a.verdict == Throws ==> u == c)
  }

  /** The lists returned and the transitions journaled by one reconciliation of the component `id`. */
  ghost predicate Recorded(s: Runtime, t: Runtime, id: int, a: Answer)
    requires id in s.components
  {
    var c := s.components[id];
    var ready := Ready(c, s.providers);
    var more := if !ready || a.verdict == Throws then 0 else if a.verdict == Refuses then 1 else 2;
    && t.granted == s.granted + (if ready && a.verdict == Allows && c.definition.acquires && a.grants.Some?
                                 then [Granted(c.definition.id, a.grants.value)] else [])
    && |t.journal| == |s.journal| + more && s.journal == t.journal[..|s.journal|]
    && (forall i :: |s.journal| <= i < |t.journal| ==> t.journal[i].component == id && t.journal[i].sequence == i + 1)
    && (more == 1 ==> t.journal[|s.journal|].from == Some(Pending) && t.journal[|s.journal|].to == Pending)
    && (more == 2 ==>
          && t.journal[|s.journal|].from == Some(Pending) && t.journal[|s.journal|].to == Loading
          && t.journal[|s.journal| + 1].from == Some(Loading)
          && t.journal[|s.journal| + 1].to == if Acquires(c.definition, a.grants) then Active else Failed)
  }

  lemma ReadyIff(c: Component, providers: seq<Provider>)
    ensures Ready(c, providers) <==>
      c.state == Pending && Resolve(providers, c.definition.requirements, c.definition.scope).Some?
  {
    ResolvedIsBest(providers, c.definition.requirements, c.definition.scope);
    var bindings := Resolve(providers, c.definition.requirements, c.definition.scope);
    if bindings.Some? {
      forall i | 0 <= i < |c.definition.requirements| ensures !Unserved(providers, c.definition.requirements[i], c.definition.scope) {
        assert IsBest(providers, c.definition.requirements[i], c.definition.scope, bindings.value[i]);
      }
    }
  }

  lemma AcquiresIff(d: Definition, a: Answer)
    ensures Acquires(d, a.grants) <==> Acquire(d, a).Some?
    ensures d.acquires && Acquire(d, a).Some? ==>
      |Acquire(d, a).value| == |a.grants.value| && forall i :: 0 <= i < |a.grants.value| ==> Acquire(d, a).value[i] == a.grants.value[i].id
  {
    if d.acquires && a.grants.Some? {
      var ids, grants := Ids(a.grants.value), a.grants.value;
      assert NoRepeats(ids) <==> forall i, j :: 0 <= i < j < |grants| ==> grants[i].id != grants[j].id by {
        if NoRepeats(ids) {
          forall i, j | 0 <= i < j < |grants| ensures grants[i].id != grants[j].id { assert ids[i] != ids[j]; }
        }
      }
    }
  }

  lemma ActivateAnswers(s: Runtime, id: int, bindings: seq<Provider>, a: Answer)
    requires id in s.components && Ready(s.components[id], s.providers) && a.verdict == Allows
    requires AllBest(s.providers, s.components[id].definition.requirements, s.components[id].definition.scope, bindings)
    ensures var t := Activate(s, id, bindings, a);
      && id in t.components && t.components == s.components[id := t.components[id]]
      && Answered(s.components[id], s.providers, a, t.components[id], false)
  {
    AcquiresIff(s.components[id].definition, a);
  }

  lemma ActivateRecords(s: Runtime, id: int, bindings: seq<Provider>, a: Answer)
    requires id in s.components && Ready(s.components[id], s.providers) && a.verdict == Allows
    ensures Recorded(s, Activate(s, id, bindings, a), id, a)
  {
    AcquiresIff(s.components[id].definition, a);
  }

  /** One reconciliation does what the answer says to its own component and to nothing else. */
  lemma ReconcileAnswers(s: Runtime, id: int, a: Answer)
    requires id in s.components
    ensures var r := Reconcile(s, id, a); var t := r.runtime;
      && id in t.components && t.components == s.components[id := t.components[id]]
      && Answered(s.components[id], s.providers, a, t.components[id], r.thrown.Some?) && Recorded(s, t, id, a)
      && (r.thrown.Some? ==> r.thrown == Some(EvaluationThrew(id)) && t == s)
      && t.order == s.order && t.providers == s.providers && t.seen == s.seen && t.disposed == s.disposed
  {
    var c := s.components[id];
    ReadyIff(c, s.providers);
    ResolvedIsBest(s.providers, c.definition.requirements, c.definition.scope);
    var bindings := Resolve(s.providers, c.definition.requirements, c.definition.scope);
    AppendNothing(s.granted);
    if Ready(c, s.providers) && a.verdict == Allows {
      ActivateAnswers(s, id, bindings.value, a);
      ActivateRecords(s, id, bindings.value, a);
    }
  }

  ghost predicate AllAnswered(s: Runtime, t: Runtime, ids: seq<int>, answers: int -> Answer) {
    forall id :: id in ids ==>
      id in s.components && id in t.components && Answered(s.components[id], s.providers, answers(id), t.components[id], false)
  }

  /** The components before the one that throws have got their answers, the others are as they were. */
  ghost predicate AnsweredUpTo(s: Runtime, r: Outcome, ids: seq<int>, answers: int -> Answer, k: nat) {
    && k <= |ids| && AllAnswered(s, r.runtime, ids[..k], answers) && SameElsewhere(s, r.runtime, ids[..k])
    && if k == |ids| then r.thrown.None?
       else && r.thrown == Some(EvaluationThrew(ids[k])) && ids[k] in s.components
            && Ready(s.components[ids[k]], s.providers) && answers(ids[k]).verdict == Throws
  }

  lemma {:induction false} LoopAnswers(s: Runtime, ids: seq<int>, answers: int -> Answer) returns (k: nat)
    requires Distinct(ids) && forall i :: 0 <= i < |ids| ==> ids[i] in s.components
    ensures AnsweredUpTo(s, ReconcileAll(s, ids, answers), ids, answers, k)
    ensures var t := ReconcileAll(s, ids, answers).runtime; t.components.Keys == s.components.Keys && t.providers == s.providers
    decreases |ids|
  {
    if ids == [] {
      k := 0;
    } else {
      var init, last := ids[..|ids| - 1], ids[|ids| - 1];
      var r := ReconcileAll(s, init, answers);
      DistinctLast(ids, last);
      k := LoopAnswers(s, init, answers);
      assert init[..k] == ids[..k];
      if k == |init| {
        assert init[..k] == init;
        assert r.runtime.components[last] == s.components[last];
        ReconcileAnswers(r.runtime, last, answers(last));
        if Reconcile(r.runtime, last, answers(last)).thrown.None? {
          AnsweredSnoc(s, r.runtime, Reconcile(r.runtime, last, answers(last)).runtime, ids, answers);
          k := |ids|;
          assert ids[..k] == ids;
        }
      }
    }
  }

  lemma AnsweredSnoc(s: Runtime, t: Runtime, u: Runtime, ids: seq<int>, answers: int -> Answer)
    requires ids != [] && Distinct(ids)
    requires var init := ids[..|ids| - 1]; AllAnswered(s, t, init, answers) && SameElsewhere(s, t, init)
    requires var last := ids[|ids| - 1];
      && last in s.components && last in u.components && u.components == t.components[last := u.components[last]]
      && Answered(s.components[last], s.providers, answers(last), u.components[last], false)
    ensures AllAnswered(s, u, ids, answers) && SameElsewhere(s, u, ids)
  {
    forall id ensures id in ids <==> id in ids[..|ids| - 1] || id == ids[|ids| - 1] { DistinctLast(ids, id); }
  }

  // ----- the lifecycle automaton -----

  predicate Edge(from: Option<Lifecycle>, to: Lifecycle) {
    match from
    case None => to == Pending
    case Some(Pending) => to == Pending || to == Loading
    case Some(Loading) => to == Active || to == Failed
    case Some(Active) => to == Suspended
    case Some(Suspended) => to == Unloading
    case Some(Unloading) => to == Pending
    case _ => false
  }

  /** A connected path of the automaton from registration to `state`. */
  ghost predicate Path(p: seq<Transition>, state: Lifecycle) {
    && p != [] && p[0].from == None && p[|p| - 1].to == state
    && (forall i :: 0 <= i < |p| ==> Edge(p[i].from, p[i].to))
    && forall i :: 0 < i < |p| ==> p[i].from == Some(p[i - 1].to)
  }

  function About(id: int): Transition -> bool {
    (t: Transition) => t.component == id
  }

  function PathOf(s: Runtime, id: int): seq<Transition> {
    Filter(s.journal, About(id))
  }

  ghost predicate PathAt(s: Runtime, id: int) {
    if id in s.components then s.components[id].definition.id == id && Path(PathOf(s, id), s.components[id].state)
    else PathOf(s, id) == []
  }

  // ----- leases -----

  function Of(id: int): Lease -> bool {
    (l: Lease) => l.component == id
  }

  function To(id: int): Granted -> bool {
    (g: Granted) => g.component == id
  }

  function Held(s: Runtime, id: int): seq<int> {
    if id in s.components then s.components[id].leases else []
  }

  /** The lists that the component's acquirer returned, in order. */
  function GrantedTo(s: Runtime, id: int): seq<Granted> {
    Filter(s.granted, To(id))
  }

  function DisposedOf(s: Runtime, id: int): seq<Lease> {
    Filter(s.disposed, Of(id))
  }

  /** The leases of a list of lists. */
  function Flat(lists: seq<Granted>): seq<Lease> {
    if lists == [] then [] else
      var last := lists[|lists| - 1];
      Flat(lists[..|lists| - 1]) + LeasesOf(last.component, Ids(last.grants))
  }

  predicate AllAccepted(lists: seq<Granted>) {
    forall i :: 0 <= i < |lists| ==> Accepted(lists[i].grants)
  }

  /** Every lease returned was disposed, once and in order, or is held now. */
  ghost predicate Accounted(s: Runtime, id: int) {
    Flat(GrantedTo(s, id)) == DisposedOf(s, id) + LeasesOf(id, Held(s, id))
  }

  /** Accounted for unless a list was refused; then more was returned than disposed or held. */
  ghost predicate LeasesAt(s: Runtime, id: int) {
    if AllAccepted(GrantedTo(s, id)) then Accounted(s, id)
    else |Flat(GrantedTo(s, id))| > |DisposedOf(s, id)| + |Held(s, id)|
  }

  // ----- what every call keeps -----

  ghost predicate Bound(world: seq<Provider>, d: Definition, bindings: seq<Provider>) {
    && |bindings| == |d.requirements|
    && forall i :: 0 <= i < |bindings| ==> bindings[i] in world && Serves(bindings[i], d.requirements[i], d.scope)
  }

  ghost predicate Settled(c: Component, world: seq<Provider>) {
    && (c.state == Pending || c.state == Active || c.state == Failed)
    && (if c.state == Active then Bound(world, c.definition, c.bindings) else c.bindings == [] && c.leases == [])
  }

  /** A refused list fails its component for good. */
  ghost predicate RefusalFails(s: Runtime, id: int) {
    !AllAccepted(GrantedTo(s, id)) ==> id in s.components && s.components[id].state == Failed
  }

  ghost predicate At(s: Runtime, world: seq<Provider>, id: int) {
    PathAt(s, id) && LeasesAt(s, id) && RefusalFails(s, id) && (id in s.components ==> Settled(s.components[id], world))
  }

  ghost predicate Sequences(s: Runtime) {
    forall i :: 0 <= i < |s.journal| ==> s.journal[i].sequence == i + 1
  }

  ghost predicate Registered(s: Runtime) {
    Distinct(s.order) && forall id :: id in s.order <==> id in s.components
  }

  ghost predicate InvIn(s: Runtime, world: seq<Provider>) {
    Sequences(s) && Registered(s) && forall id :: At(s, world, id)
  }

  ghost predicate DistinctProviders(providers: seq<Provider>) {
    forall i, j :: 0 <= i < j < |providers| ==> providers[i].id != providers[j].id
  }

  /** Active components are bound to providers that are registered. */
  ghost predicate Inv(s: Runtime) {
    InvIn(s, s.providers) && DistinctProviders(s.providers)
  }

  ghost predicate Among(some: seq<Provider>, all: seq<Provider>) {
    forall p :: p in some ==> p in all
  }

  /** Active components are bound to providers that were registered at some time. */
  ghost predicate Ever(s: Runtime) {
    InvIn(s, s.seen) && DistinctProviders(s.providers) && Among(s.providers, s.seen)
  }

  /** `t` is `s` after steps of component `id` alone. */
  ghost predicate Steps(s: Runtime, t: Runtime, id: int) {
    && id in s.components && id in t.components && t.components == s.components[id := t.components[id]]
    && t.order == s.order && t.providers == s.providers && t.seen == s.seen
    && (Sequences(s) ==> Sequences(t))
    && (forall x :: x != id ==> PathOf(t, x) == PathOf(s, x))
    && forall x :: x != id ==> GrantedTo(t, x) == GrantedTo(s, x) && DisposedOf(t, x) == DisposedOf(s, x)
  }

  lemma StepsCompose(s: Runtime, t: Runtime, u: Runtime, id: int)
    requires Steps(s, t, id) && Steps(t, u, id)
    ensures Steps(s, u, id)
  {
  }

  lemma JournalSnoc(journal: seq<Transition>, t: Transition, id: int)
    ensures Filter(journal + [t], About(id)) == Filter(journal, About(id)) + if t.component == id then [t] else []
  {
    FilterAppend(journal, [t], About(id));
    assert [t][1..] == [];
  }

  lemma TransitSteps(s: Runtime, id: int, from: Option<Lifecycle>, to: Lifecycle)
    requires id in s.components
    ensures Steps(s, Transit(s, id, from, to), id)
    ensures |PathOf(Transit(s, id, from, to), id)| == |PathOf(s, id)| + 1
    ensures PathOf(Transit(s, id, from, to), id)[..|PathOf(s, id)|] == PathOf(s, id)
    ensures var t := PathOf(Transit(s, id, from, to), id)[|PathOf(s, id)|]; t.from == from && t.to == to
  {
    var t := Transition(|s.journal| + 1, id, from, to, ProviderIds(s.components[id].bindings));
    forall x ensures PathOf(Transit(s, id, from, to), x) == PathOf(s, x) + if x == id then [t] else [] {
      JournalSnoc(s.journal, t, x);
    }
  }

  lemma PathGrows(s: Runtime, id: int, to: Lifecycle)
    requires id in s.components && PathAt(s, id) && Edge(Some(s.components[id].state), to)
    ensures var t := Transit(s, id, Some(s.components[id].state), to); Steps(s, t, id) && PathAt(t, id)
  {
    TransitSteps(s, id, Some(s.components[id].state), to);
    var p, q := PathOf(s, id), PathOf(Transit(s, id, Some(s.components[id].state), to), id);
    assert forall i :: 0 <= i < |p| ==> q[i] == q[..|p|][i] == p[i];
  }

  lemma {:induction false} OwnLeases(id: int, leases: seq<int>, x: int)
    ensures Filter(LeasesOf(id, leases), Of(x)) == if x == id then LeasesOf(id, leases) else []
    decreases |leases|
  {
    var all := LeasesOf(id, leases);
    if x == id { FilterAll(all, Of(x)); }
    else if leases != [] {
      assert all[1..] == LeasesOf(id, leases[1..]);
      OwnLeases(id, leases[1..], x);
    }
  }

  lemma BindSteps(s: Runtime, id: int, bindings: seq<Provider>)
    requires id in s.components && PathAt(s, id)
    ensures var t := Bind(s, id, bindings);
      Steps(s, t, id) && PathAt(t, id) && (LeasesAt(s, id) ==> LeasesAt(t, id))
  {
  }

  lemma FlatSnoc(lists: seq<Granted>, g: Granted)
    ensures Flat(lists + [g]) == Flat(lists) + LeasesOf(g.component, Ids(g.grants))
    ensures AllAccepted(lists + [g]) <==> AllAccepted(lists) && Accepted(g.grants)
  {
    assert (lists + [g])[..|lists|] == lists && (lists + [g])[|lists|] == g;
    assert forall i :: 0 <= i < |lists| ==> (lists + [g])[i] == lists[i];
  }

  lemma RecordedTo(s: Runtime, id: int, record: seq<Granted>, leases: seq<int>, x: int)
    requires id in s.components && |record| <= 1 && forall i :: 0 <= i < |record| ==> record[i].component == id
    ensures GrantedTo(Hold(s, id, record, leases), x) == GrantedTo(s, x) + if x == id then record else []
  {
    FilterAppend(s.granted, record, To(x));
    if record != [] { assert record[1..] == []; }
  }

  lemma HoldSteps(s: Runtime, id: int, a: Answer, leases: seq<int>)
    requires id in s.components && PathAt(s, id)
    ensures var d := s.components[id].definition; var t := Hold(s, id, Returned(d, a), leases);
      && Steps(s, t, id) && PathAt(t, id) && GrantedTo(t, id) == GrantedTo(s, id) + Returned(d, a)
  {
    var record := Returned(s.components[id].definition, a);
    forall x ensures GrantedTo(Hold(s, id, record, leases), x) == GrantedTo(s, x) + if x == id then record else [] {
      RecordedTo(s, id, record, leases, x);
    }
  }

  lemma AppendNothing<T>(s: seq<T>)
    ensures s + [] == s
  {
  }

  /** An accepted list is held in full. */
  lemma AcceptedHeld(s: Runtime, id: int, a: Answer, leases: seq<int>)
    requires id in s.components && PathAt(s, id) && LeasesAt(s, id) && AllAccepted(GrantedTo(s, id))
    requires s.components[id].leases == [] && Acquire(s.components[id].definition, a) == Some(leases)
    ensures var t := Hold(s, id, Returned(s.components[id].definition, a), leases);
      LeasesAt(t, id) && AllAccepted(GrantedTo(t, id))
  {
    var d := s.components[id].definition;
    HoldSteps(s, id, a, leases);
    AppendNothing(GrantedTo(s, id));
    AppendNothing(DisposedOf(s, id));
    assert LeasesOf(id, []) == [];
    if Returned(d, a) != [] {
      FlatSnoc(GrantedTo(s, id), Returned(d, a)[0]);
      assert Returned(d, a) == [Returned(d, a)[0]];
    }
  }

  /** A refused list is not empty, and none of it is held. */
  lemma RefusedDropped(s: Runtime, id: int, a: Answer)
    requires id in s.components && PathAt(s, id) && LeasesAt(s, id) && AllAccepted(GrantedTo(s, id))
    requires s.components[id].leases == [] && Acquire(s.components[id].definition, a) == None
    ensures var t := Hold(s, id, Returned(s.components[id].definition, a), []); LeasesAt(t, id)
  {
    var d := s.components[id].definition;
    HoldSteps(s, id, a, []);
    AppendNothing(GrantedTo(s, id));
    if Returned(d, a) != [] {
      FlatSnoc(GrantedTo(s, id), Returned(d, a)[0]);
      assert Returned(d, a) == [Returned(d, a)[0]];
      assert a.grants.value != [];
    }
  }

  lemma ReleaseSteps(s: Runtime, id: int)
    requires id in s.components && PathAt(s, id) && LeasesAt(s, id) && AllAccepted(GrantedTo(s, id))
    ensures var t := Release(s, id); Steps(s, t, id) && PathAt(t, id) && LeasesAt(t, id)
  {
    var leases := s.components[id].leases;
    forall x ensures DisposedOf(Release(s, id), x) == DisposedOf(s, x) + if x == id then LeasesOf(id, leases) else [] {
      FilterAppend(s.disposed, LeasesOf(id, leases), Of(x));
      OwnLeases(id, leases, x);
    }
    assert LeasesOf(id, []) == [];
  }

  /** A transition of the component that keeps its path and its leases in order. */
  lemma Moves(s: Runtime, id: int, to: Lifecycle)
    requires id in s.components && PathAt(s, id) && LeasesAt(s, id) && Edge(Some(s.components[id].state), to)
    ensures var t := Transit(s, id, Some(s.components[id].state), to);
      Steps(s, t, id) && PathAt(t, id) && LeasesAt(t, id)
  {
    PathGrows(s, id, to);
  }

  /** What an activation leaves of the component. */
  ghost predicate Activated(s: Runtime, t: Runtime, id: int, bindings: seq<Provider>) {
    && Steps(s, t, id) && PathAt(t, id) && LeasesAt(t, id)
    && t.components[id].definition == s.components[id].definition
    && (if t.components[id].state == Active then t.components[id].bindings == bindings && AllAccepted(GrantedTo(t, id))
        else t.components[id].state == Failed && t.components[id].bindings == [] && t.components[id].leases == [])
  }

  lemma LoadingSteps(s: Runtime, id: int, bindings: seq<Provider>)
    requires id in s.components && PathAt(s, id) && LeasesAt(s, id) && s.components[id].state == Pending
    ensures var t := Bind(Transit(s, id, Some(Pending), Loading), id, bindings);
      && Steps(s, t, id) && PathAt(t, id) && LeasesAt(t, id) && GrantedTo(t, id) == GrantedTo(s, id)
      && t.components[id] == s.components[id].(state := Loading, bindings := bindings)
  {
    var loading := Transit(s, id, Some(Pending), Loading);
    Moves(s, id, Loading);
    BindSteps(loading, id, bindings);
    StepsCompose(s, loading, Bind(loading, id, bindings), id);
  }

  lemma ActivateSteps(s: Runtime, id: int, bindings: seq<Provider>, a: Answer)
    requires id in s.components && PathAt(s, id) && LeasesAt(s, id) && AllAccepted(GrantedTo(s, id))
    requires s.components[id].state == Pending && s.components[id].bindings == [] && s.components[id].leases == []
    ensures Activated(s, Activate(s, id, bindings, a), id, bindings)
  {
    var d := s.components[id].definition;
    var s2 := Bind(Transit(s, id, Some(Pending), Loading), id, bindings);
    LoadingSteps(s, id, bindings);
    match Acquire(d, a)
    case Some(leases) =>
      var s3 := Hold(s2, id, Returned(d, a), leases);
      HoldSteps(s2, id, a, leases);
      AcceptedHeld(s2, id, a, leases);
      StepsCompose(s, s2, s3, id);
      Moves(s3, id, Active);
      StepsCompose(s, s3, Transit(s3, id, Some(Loading), Active), id);
    case None =>
      var s3 := Hold(s2, id, Returned(d, a), []);
      HoldSteps(s2, id, a, []);
      RefusedDropped(s2, id, a);
      StepsCompose(s, s2, s3, id);
      FailSteps(s, s3, id);
  }

  lemma FailSteps(s: Runtime, t: Runtime, id: int)
    requires Steps(s, t, id) && PathAt(t, id) && LeasesAt(t, id)
    requires t.components[id].state == Loading && t.components[id].leases == []
    ensures var u := Transit(Bind(t, id, []), id, Some(Loading), Failed);
      && Steps(s, u, id) && PathAt(u, id) && LeasesAt(u, id)
      && u.components[id] == t.components[id].(state := Failed, bindings := [])
  {
    var unbound := Bind(t, id, []);
    BindSteps(t, id, []);
    StepsCompose(s, t, unbound, id);
    Moves(unbound, id, Failed);
    StepsCompose(s, unbound, Transit(unbound, id, Some(Loading), Failed), id);
  }

  lemma UnloadSteps(s: Runtime, id: int, provider: int)
    requires id in s.components && PathAt(s, id) && LeasesAt(s, id) && AllAccepted(GrantedTo(s, id))
    requires s.components[id].state == Active && Uses(s.components[id].bindings, provider)
    ensures var t := Unload(s, id, provider);
      && Steps(s, t, id) && PathAt(t, id) && LeasesAt(t, id) && GrantedTo(t, id) == GrantedTo(s, id)
      && t.components[id] == Component(s.components[id].definition, Pending, [], [])
  {
    var s1 := Transit(s, id, Some(Active), Suspended);
    Moves(s, id, Suspended);
    var s2 := Transit(s1, id, Some(Suspended), Unloading);
    Moves(s1, id, Unloading);
    StepsCompose(s, s1, s2, id);
    var s3 := Release(s2, id);
    ReleaseSteps(s2, id);
    StepsCompose(s, s2, s3, id);
    Moves(s3, id, Pending);
    StepsCompose(s, s3, Transit(s3, id, Some(Unloading), Pending), id);
  }

  lemma StepsKeepInv(s: Runtime, t: Runtime, world: seq<Provider>, id: int)
    requires InvIn(s, world) && Steps(s, t, id) && At(t, world, id)
    ensures InvIn(t, world)
  {
    forall x ensures At(t, world, x) { assert At(s, world, x); }
  }

  lemma ResolvedIsBound(providers: seq<Provider>, world: seq<Provider>, d: Definition)
    requires Among(providers, world)
    ensures Resolve(providers, d.requirements, d.scope).Some? ==>
            Bound(world, d, Resolve(providers, d.requirements, d.scope).value)
  {
    ResolvedIsBest(providers, d.requirements, d.scope);
  }

  lemma ReconciledAt(s: Runtime, world: seq<Provider>, id: int, a: Answer)
    requires InvIn(s, world) && Among(s.providers, world) && id in s.components && Reconcile(s, id, a).runtime != s
    ensures Steps(s, Reconcile(s, id, a).runtime, id) && At(Reconcile(s, id, a).runtime, world, id)
  {
    var c := s.components[id];
    assert At(s, world, id);
    ResolvedIsBound(s.providers, world, c.definition);
    var bindings := Resolve(s.providers, c.definition.requirements, c.definition.scope);
    if c.state == Pending && bindings.Some? {
      if a.verdict == Refuses { Moves(s, id, Pending); }
      if a.verdict == Allows { ActivateSteps(s, id, bindings.value, a); }
    }
  }

  lemma ReconcileKeepsInv(s: Runtime, world: seq<Provider>, id: int, a: Answer)
    requires InvIn(s, world) && Among(s.providers, world) && id in s.components
    ensures var t := Reconcile(s, id, a).runtime;
      InvIn(t, world) && t.providers == s.providers && t.seen == s.seen && t.components.Keys == s.components.Keys
  {
    var t := Reconcile(s, id, a).runtime;
    if t != s {
      ReconciledAt(s, world, id, a);
      StepsKeepInv(s, t, world, id);
    }
  }

  lemma {:induction false} ReconcileAllKeepsInv(s: Runtime, world: seq<Provider>, ids: seq<int>, answers: int -> Answer)
    requires InvIn(s, world) && Among(s.providers, world)
    ensures var t := ReconcileAll(s, ids, answers).runtime;
      InvIn(t, world) && t.providers == s.providers && t.seen == s.seen
    decreases |ids|
  {
    if ids != [] {
      ReconcileAllKeepsInv(s, world, ids[..|ids| - 1], answers);
      var r := ReconcileAll(s, ids[..|ids| - 1], answers);
      var id := ids[|ids| - 1];
      if r.thrown.None? && id in r.runtime.components { ReconcileKeepsInv(r.runtime, world, id, answers(id)); }
    }
  }

  /** What losing a provider makes of a component. */
  function Unloaded(c: Component, provider: int): Component {
    if Uses(c.bindings, provider) then Component(c.definition, Pending, [], []) else c
  }

  lemma UnloadKeepsInv(s: Runtime, world: seq<Provider>, id: int, provider: int)
    requires InvIn(s, world) && id in s.components
    ensures var t := Unload(s, id, provider);
      && InvIn(t, world) && t.providers == s.providers && t.seen == s.seen
      && t.components == s.components[id := Unloaded(s.components[id], provider)]
  {
    assert At(s, world, id);
    if Uses(s.components[id].bindings, provider) {
      UnloadSteps(s, id, provider);
      StepsKeepInv(s, Unload(s, id, provider), world, id);
    }
  }

  lemma {:induction false} UnloadAllKeepsInv(s: Runtime, world: seq<Provider>, ids: seq<int>, provider: int)
    requires InvIn(s, world) && Distinct(ids) && forall i :: 0 <= i < |ids| ==> ids[i] in s.components
    ensures var r := UnloadAll(s, ids, provider, false); var t := r.runtime;
      && r.thrown.None? && InvIn(t, world) && t.providers == s.providers && t.seen == s.seen
      && t.components.Keys == s.components.Keys
      && forall id :: id in s.components ==>
           t.components[id] == if id in ids then Unloaded(s.components[id], provider) else s.components[id]
    decreases |ids|
  {
    if ids != [] {
      var init, last := ids[..|ids| - 1], ids[|ids| - 1];
      UnloadAllKeepsInv(s, world, init, provider);
      DistinctLast(ids, last);
      UnloadKeepsInv(UnloadAll(s, init, provider, false).runtime, world, last, provider);
      forall id ensures id in ids <==> id in init || id == last { DistinctLast(ids, id); }
    }
  }

  ghost predicate AnyUses(s: Runtime, provider: int) {
    exists id :: id in s.components && Uses(s.components[id].bindings, provider)
  }

  /** With a blank reason nothing is unloaded: the call throws at the first component bound to the provider. */
  lemma {:induction false} BlankUnloadsNothing(s: Runtime, ids: seq<int>, provider: int)
    ensures var r := UnloadAll(s, ids, provider, true);
      && r.runtime == s && (r.thrown == None || r.thrown == Some(BlankReason))
      && (r.thrown.Some? <==> exists i :: 0 <= i < |ids| && ids[i] in s.components && Uses(s.components[ids[i]].bindings, provider))
    decreases |ids|
  {
    if ids != [] {
      var init := ids[..|ids| - 1];
      BlankUnloadsNothing(s, init, provider);
      assert forall i :: 0 <= i < |init| ==> init[i] == ids[i];
    }
  }

  lemma OrderedIds(s: Runtime)
    requires Registered(s)
    ensures Distinct(Ordered(s)) && forall id :: id in Ordered(s) <==> id in s.components
    ensures forall i :: 0 <= i < |Ordered(s)| ==> Ordered(s)[i] in s.components
  {
    var ids := Ordered(s);
    SortElements(s.order, Ascending);
    forall i | 0 <= i < |ids| ensures ids[i] in s.order { assert ids[i] in ids; }
    SortPermutes(s.order, Ascending);
    MultisetDistinct(s.order, Ordered(s));
  }

  lemma SmallerWorld(s: Runtime, world: seq<Provider>, provider: int)
    requires InvIn(s, world) && !AnyUses(s, provider)
    ensures InvIn(s, Filter(world, OtherThan(provider)))
  {
    var rest := Filter(world, OtherThan(provider));
    FilterElements(world, OtherThan(provider));
    forall id ensures At(s, rest, id) {
      assert At(s, world, id);
      if id in s.components {
        var c := s.components[id];
        forall i | 0 <= i < |c.bindings| && c.state == Active ensures c.bindings[i] in rest {
          assert c.bindings[i].id != provider;
        }
      }
    }
  }

  lemma LargerWorld(s: Runtime, world: seq<Provider>, p: Provider)
    requires InvIn(s, world)
    ensures InvIn(WithProvider(s, p), world + [p])
  {
    var t := WithProvider(s, p);
    forall id ensures At(t, world + [p], id) { assert At(s, world, id); }
  }

  lemma SameButProviders(s: Runtime, world: seq<Provider>, id: int)
    requires InvIn(s, world)
    ensures InvIn(WithoutProvider(s, id), world)
  {
    forall x ensures At(WithoutProvider(s, id), world, x) { assert At(s, world, x); }
  }

  lemma {:induction false} FilteredDistinct(providers: seq<Provider>, id: int)
    requires DistinctProviders(providers)
    ensures DistinctProviders(Filter(providers, OtherThan(id)))
    decreases |providers|
  {
    if providers != [] {
      FilteredDistinct(providers[1..], id);
      var rest := Filter(providers[1..], OtherThan(id));
      forall i | 0 <= i < |rest| ensures rest[i].id != providers[0].id {
        FilterMember(providers[1..], OtherThan(id), rest[i]);
        var k :| 0 <= k < |providers[1..]| && providers[1..][k] == rest[i];
        assert providers[k + 1] == rest[i];
      }
    }
  }

  lemma AddedItself(s: Runtime, world: seq<Provider>, d: Definition)
    requires InvIn(s, world) && d.id !in s.components
    ensures At(Transit(AddComponent(s, d), d.id, None, Pending), world, d.id)
  {
    assert At(s, world, d.id);
    JournalSnoc(s.journal, Transition(|s.journal| + 1, d.id, None, Pending, ProviderIds([])), d.id);
    assert LeasesOf(d.id, []) == [];
  }

  lemma AddedOther(s: Runtime, world: seq<Provider>, d: Definition, id: int)
    requires InvIn(s, world) && d.id !in s.components && id != d.id
    ensures At(Transit(AddComponent(s, d), d.id, None, Pending), world, id)
  {
    assert At(s, world, id);
    JournalSnoc(s.journal, Transition(|s.journal| + 1, d.id, None, Pending, ProviderIds([])), id);
  }

  lemma AddedComponent(s: Runtime, world: seq<Provider>, d: Definition)
    requires InvIn(s, world) && d.id !in s.components
    ensures InvIn(Transit(AddComponent(s, d), d.id, None, Pending), world)
  {
    forall id ensures At(Transit(AddComponent(s, d), d.id, None, Pending), world, id) {
      if id == d.id { AddedItself(s, world, d); } else { AddedOther(s, world, d, id); }
    }
  }

  lemma AddingComponentKeeps(s: Runtime, world: seq<Provider>, d: Definition, a: Answer)
    requires InvIn(s, world) && Among(s.providers, world)
    ensures var t := RegisterComponent(s, d, a).runtime; InvIn(t, world) && t.providers == s.providers && t.seen == s.seen
  {
    if DistinctCapabilities(d.requirements) && d.id !in s.components {
      AddedComponent(s, world, d);
      ReconcileKeepsInv(Transit(AddComponent(s, d), d.id, None, Pending), world, d.id, a);
    }
  }

  lemma AddingProviderKeeps(s: Runtime, world: seq<Provider>, p: Provider, answers: int -> Answer)
    requires InvIn(s, world) && Among(s.providers, world) && !HasProvider(s.providers, p.id)
    ensures var t := RegisterProvider(s, p, answers).runtime;
      InvIn(t, world + [p]) && t.providers == s.providers + [p] && t.seen == s.seen + [p]
  {
    LargerWorld(s, world, p);
    ReconcileAllKeepsInv(WithProvider(s, p), world + [p], Ordered(s), answers);
  }

  /** Losing a provider for a stated reason unloads exactly the components bound to it. */
  lemma LossUnloads(s: Runtime, world: seq<Provider>, id: int)
    requires InvIn(s, world) && HasProvider(s.providers, id)
    ensures var r := UnregisterProvider(s, id, false); var t := r.runtime;
      && r.thrown.None? && InvIn(t, world) && t.providers == Filter(s.providers, OtherThan(id)) && t.seen == s.seen
      && t.components.Keys == s.components.Keys
      && forall c :: c in s.components ==> t.components[c] == Unloaded(s.components[c], id)
  {
    OrderedIds(s);
    SameButProviders(s, world, id);
    UnloadAllKeepsInv(WithoutProvider(s, id), world, Ordered(s), id);
  }

  /** Losing it with a blank reason deletes the provider and nothing else, and throws if a component was bound to it. */
  lemma BlankLoss(s: Runtime, id: int)
    requires Registered(s) && HasProvider(s.providers, id)
    ensures var r := UnregisterProvider(s, id, true);
      && r.runtime == WithoutProvider(s, id)
      && r.thrown == if AnyUses(s, id) then Some(BlankReason) else None
  {
    OrderedIds(s);
    var ids, t := Ordered(s), WithoutProvider(s, id);
    BlankUnloadsNothing(t, ids, id);
    if AnyUses(s, id) {
      var c :| c in s.components && Uses(s.components[c].bindings, id);
      assert c in ids;
      var i :| 0 <= i < |ids| && ids[i] == c;
      assert ids[i] in t.components && Uses(t.components[ids[i]].bindings, id);
    } else {
      assert forall i :: 0 <= i < |ids| ==> !Uses(t.components[ids[i]].bindings, id);
    }
  }

  /** The call deletes a provider that a component is bound to, and then throws. */
  ghost predicate Dangles(s: Runtime, ev: Event) {
    ev.LosingProvider? && ev.blank && HasProvider(s.providers, ev.id) && AnyUses(s, ev.id)
  }

  lemma LossKeepsInv(s: Runtime, id: int, blank: bool)
    requires Inv(s) && HasProvider(s.providers, id) && (blank ==> !AnyUses(s, id))
    ensures Inv(UnregisterProvider(s, id, blank).runtime)
  {
    FilteredDistinct(s.providers, id);
    if blank {
      BlankLoss(s, id);
      SameButProviders(s, s.providers, id);
      SmallerWorld(WithoutProvider(s, id), s.providers, id);
    } else {
      LossUnloads(s, s.providers, id);
      SmallerWorld(UnregisterProvider(s, id, false).runtime, s.providers, id);
    }
  }

  /** After a dangling loss some component is active on a provider that is no longer registered, and keeps its leases. */
  lemma DanglingLossBreaks(s: Runtime, id: int) returns (c: int)
    requires Inv(s) && HasProvider(s.providers, id) && AnyUses(s, id)
    ensures var r := UnregisterProvider(s, id, true); var t := r.runtime;
      && r.thrown == Some(BlankReason) && !HasProvider(t.providers, id)
      && c in s.components && c in t.components && t.components[c] == s.components[c] && t.components[c].state == Active
      && Uses(t.components[c].bindings, id) && !Inv(t)
  {
    BlankLoss(s, id);
    var t := UnregisterProvider(s, id, true).runtime;
    c :| c in s.components && Uses(s.components[c].bindings, id);
    assert At(s, s.providers, c);
    FilterElements(s.providers, OtherThan(id));
    assert forall p :: p in t.providers ==> p.id != id;
    var i :| 0 <= i < |t.components[c].bindings| && t.components[c].bindings[i].id == id;
    assert t.components[c].bindings[i] !in t.providers;
    assert !At(t, t.providers, c);
  }

  /** A call keeps active components bound to registered providers exactly when it is not a dangling loss. */
  lemma StepKeepsInvIff(s: Runtime, ev: Event)
    requires Inv(s)
    ensures Inv(Step(s, ev).runtime) <==> !Dangles(s, ev)
  {
    match ev
    case AddingComponent(d, a) => AddingComponentKeeps(s, s.providers, d, a);
    case AddingProvider(p, answers) =>
      if !HasProvider(s.providers, p.id) { AddingProviderKeeps(s, s.providers, p, answers); }
    case LosingProvider(id, blank) =>
      if Dangles(s, ev) { var c := DanglingLossBreaks(s, id); }
      else if HasProvider(s.providers, id) { LossKeepsInv(s, id, blank); }
  }

  lemma StepKeepsEver(s: Runtime, ev: Event)
    requires Ever(s)
    ensures Ever(Step(s, ev).runtime)
  {
    match ev
    case AddingComponent(d, a) => AddingComponentKeeps(s, s.seen, d, a);
    case AddingProvider(p, answers) =>
      if !HasProvider(s.providers, p.id) { AddingProviderKeeps(s, s.seen, p, answers); }
    case LosingProvider(id, blank) =>
      if HasProvider(s.providers, id) {
        FilteredDistinct(s.providers, id);
        FilterElements(s.providers, OtherThan(id));
        if blank {
          BlankLoss(s, id);
          SameButProviders(s, s.seen, id);
        } else {
          LossUnloads(s, s.seen, id);
        }
      }
  }

  lemma EmptyInv()
    ensures Inv(EMPTY) && Ever(EMPTY)
  {
    assert forall id: int :: LeasesOf(id, []) == [];
  }

  lemma {:induction false} RunKeepsEver(events: seq<Event>)
    ensures Ever(After(EMPTY, events))
    decreases |events|
  {
    if events == [] {
      EmptyInv();
    } else {
      RunKeepsEver(events[..|events| - 1]);
      StepKeepsEver(After(EMPTY, events[..|events| - 1]), events[|events| - 1]);
    }
  }

  /** No loss of a bound provider for a blank reason. */
  ghost predicate ReasonsGiven(events: seq<Event>)
    decreases |events|
  {
    events == [] ||
    (ReasonsGiven(events[..|events| - 1]) && !Dangles(After(EMPTY, events[..|events| - 1]), events[|events| - 1]))
  }

  lemma {:induction false} RunKeepsInv(events: seq<Event>)
    requires ReasonsGiven(events)
    ensures Inv(After(EMPTY, events))
    decreases |events|
  {
    if events == [] {
      EmptyInv();
    } else {
      RunKeepsInv(events[..|events| - 1]);
      StepKeepsInvIff(After(EMPTY, events[..|events| - 1]), events[|events| - 1]);
    }
  }

  // ----- what a throwing evaluator leaves undone -----

  ghost predicate SameElsewhere(s: Runtime, t: Runtime, ids: seq<int>) {
    forall x :: x in s.components && x !in ids ==> x in t.components && t.components[x] == s.components[x]
  }

  lemma ReconcileIsOwn(s: Runtime, id: int, a: Answer, x: int)
    requires id in s.components && x in s.components && x != id
    ensures x in Reconcile(s, id, a).runtime.components && Reconcile(s, id, a).runtime.components[x] == s.components[x]
  {
  }

  /** The loop has reconciled the components before the one that throws, and no others. */
  ghost predicate StoppedAt(s: Runtime, r: Outcome, ids: seq<int>, k: nat) {
    k < |ids| && r.thrown == Some(EvaluationThrew(ids[k])) && SameElsewhere(s, r.runtime, ids[..k])
  }

  lemma {:induction false} LoopStops(s: Runtime, ids: seq<int>, answers: int -> Answer)
    ensures var r := ReconcileAll(s, ids, answers);
      if r.thrown.None? then SameElsewhere(s, r.runtime, ids) else exists k: nat :: StoppedAt(s, r, ids, k)
    decreases |ids|
  {
    if ids != [] {
      var init, last := ids[..|ids| - 1], ids[|ids| - 1];
      var r := ReconcileAll(s, init, answers);
      LoopStops(s, init, answers);
      SplitLast(ids);
      if r.thrown.Some? {
        var k: nat :| StoppedAt(s, r, init, k);
        assert init[..k] == ids[..k] && StoppedAt(s, r, ids, k);
      } else if last in r.runtime.components {
        forall x | x in r.runtime.components && x != last { ReconcileIsOwn(r.runtime, last, answers(last), x); }
        if Reconcile(r.runtime, last, answers(last)).thrown.Some? {
          assert StoppedAt(s, ReconcileAll(s, ids, answers), ids, |init|);
        }
      }
    }
  }

  /**
   A registration that throws has registered the provider and left the components after the throwing one, in id
   order, as they were; registering the provider once more is refused, so it cannot be used to reach them.
   */
  lemma AbortedRegistration(s: Runtime, p: Provider, answers: int -> Answer, again: int -> Answer)
    requires Inv(s) && !HasProvider(s.providers, p.id) && RegisterProvider(s, p, answers).thrown.Some?
    ensures var r := RegisterProvider(s, p, answers); var t := r.runtime;
      && r.thrown.value.EvaluationThrew? && Inv(t) && p in t.providers
      && (forall x :: x in s.components && x >= r.thrown.value.component ==> x in t.components && t.components[x] == s.components[x])
      && RegisterProvider(t, p, again) == Outcome(t, Some(DuplicateProvider(p.id)))
  {
    var r, ids := RegisterProvider(s, p, answers), Ordered(s);
    AddingProviderKeeps(s, s.providers, p, answers);
    assert DistinctProviders(r.runtime.providers);
    assert r.runtime.providers[|s.providers|] == p;
    LoopStops(WithProvider(s, p), ids, answers);
    var k: nat :| StoppedAt(WithProvider(s, p), r, ids, k);
    OrderedIds(s);
    SortSorts(s.order, Ascending);
    forall x | x in s.components && x >= ids[k] ensures x !in ids[..k] {
      forall i | 0 <= i < k ensures ids[..k][i] != x { assert Ascending(ids[i], ids[k]) && ids[i] != ids[k]; }
    }
  }

  // ----- what callers may rely on -----

  /**
   After any run of calls, refused and failed ones included: the journal is numbered without gaps, each
   component's part of it is one path of the automaton from registration to its current state, an active
   component is bound to visible, capability-matching providers, and any other holds nothing.
   */
  lemma EveryRun(events: seq<Event>, id: int)
    requires id in After(EMPTY, events).components
    ensures var s := After(EMPTY, events); var c := s.components[id];
      && Sequences(s)
      && Path(PathOf(s, id), c.state)
      && (c.state == Active ==> Bound(s.seen, c.definition, c.bindings))
      && (c.state != Active ==> c.bindings == [] && c.leases == [])
  {
    RunKeepsEver(events);
    assert At(After(EMPTY, events), After(EMPTY, events).seen, id);
  }

  /** Those providers are registered, as long as no bound provider was lost for a blank reason. */
  lemma ActiveIsRegistered(events: seq<Event>, id: int)
    requires ReasonsGiven(events) && id in After(EMPTY, events).components
    requires After(EMPTY, events).components[id].state == Active
    ensures var s := After(EMPTY, events); Bound(s.providers, s.components[id].definition, s.components[id].bindings)
  {
    RunKeepsInv(events);
    assert At(After(EMPTY, events), After(EMPTY, events).providers, id);
  }

  /**
   After any run, every lease a component's acquirer ever returned was disposed exactly once, in order, or is
   held now, if and only if `normalizeLeases` took every list; a refused list is lost in full.
   */
  lemma LeasesAccountedIff(events: seq<Event>, id: int)
    ensures var s := After(EMPTY, events); Accounted(s, id) <==> AllAccepted(GrantedTo(s, id))
  {
    RunKeepsEver(events);
    var s := After(EMPTY, events);
    assert At(s, s.seen, id);
    assert Accounted(s, id) ==> |Flat(GrantedTo(s, id))| == |DisposedOf(s, id)| + |Held(s, id)|;
  }

  /** A component that loses a provider for a stated reason is pending again and has disposed everything it ever held. */
  lemma LossReleasesAll(events: seq<Event>, provider: int, id: int)
    requires HasProvider(After(EMPTY, events).providers, provider) && id in After(EMPTY, events).components
    ensures var s := After(EMPTY, events); var r := UnregisterProvider(s, provider, false); var t := r.runtime;
      && r.thrown.None? && !HasProvider(t.providers, provider)
      && id in t.components && !Uses(t.components[id].bindings, provider)
      && if Uses(s.components[id].bindings, provider)
         then t.components[id].state == Pending && Flat(GrantedTo(t, id)) == DisposedOf(t, id)
         else t.components[id] == s.components[id]
  {
    var s := After(EMPTY, events);
    RunKeepsEver(events);
    LossUnloads(s, s.seen, provider);
    var t := UnregisterProvider(s, provider, false).runtime;
    FilterElements(s.providers, OtherThan(provider));
    assert forall p :: p in t.providers ==> p.id != provider;
    assert id in s.components.Keys;
    assert At(t, s.seen, id);
    assert LeasesOf(id, []) == [];
    AppendNothing(DisposedOf(t, id));
  }

  /** The runtime in which a new component waits for its answer. */
  function Waiting(s: Runtime, d: Definition): Runtime {
    s.(components := s.components[d.id := Component(d, Pending, [], [])], order := s.order + [d.id],
       journal := s.journal + [Transition(|s.journal| + 1, d.id, None, Pending, [])])
  }

  /** What registering a component does: refused, with nothing changed, or answered, and no other component changes. */
  ghost predicate ComponentAdded(s: Runtime, t: Runtime, thrown: Option<RuntimeError>, d: Definition, a: Answer) {
    if exists i, j :: 0 <= i < j < |d.requirements| && d.requirements[i].capability == d.requirements[j].capability then
      thrown == Some(DuplicateCapability) && t == s
    else if d.id in s.components then thrown == Some(DuplicateComponent(d.id)) && t == s
    else
      && d.id in t.components && t.components == s.components[d.id := t.components[d.id]]
      && t.order == s.order + [d.id] && t.providers == s.providers
      && Answered(Component(d, Pending, [], []), s.providers, a, t.components[d.id], thrown.Some?)
      && Recorded(Waiting(s, d), t, d.id, a)
      && (thrown == None || thrown == Some(EvaluationThrew(d.id)))
  }

  lemma AddingComponentAnswers(s: Runtime, d: Definition, a: Answer)
    ensures var r := RegisterComponent(s, d, a); ComponentAdded(s, r.runtime, r.thrown, d, a)
  {
    if DistinctCapabilities(d.requirements) && d.id !in s.components {
      var w := Transit(AddComponent(s, d), d.id, None, Pending);
      assert ProviderIds([]) == [];
      assert w == Waiting(s, d);
      ReconcileAnswers(w, d.id, a);
    }
  }

  /**
   What registering a provider does: refused, with nothing changed; or every component got its answer, or those
   before the one that throws did, in id order.
   */
  ghost predicate ProviderAdded(s: Runtime, t: Runtime, thrown: Option<RuntimeError>, p: Provider, answers: int -> Answer) {
    if exists q :: q in s.providers && q.id == p.id then thrown == Some(DuplicateProvider(p.id)) && t == s
    else
      && t.components.Keys == s.components.Keys && t.providers == s.providers + [p]
      && (thrown.Some? ==>
            && thrown.value.EvaluationThrew? && thrown.value.component in s.components
            && Ready(s.components[thrown.value.component], s.providers + [p]) && answers(thrown.value.component).verdict == Throws)
      && forall id :: id in s.components ==>
           if thrown.None? || id < thrown.value.component
           then Answered(s.components[id], s.providers + [p], answers(id), t.components[id], false)
           else t.components[id] == s.components[id]
  }

  lemma AddingProviderAnswers(s: Runtime, p: Provider, answers: int -> Answer)
    requires Registered(s)
    ensures var r := RegisterProvider(s, p, answers); ProviderAdded(s, r.runtime, r.thrown, p, answers)
  {
    if !HasProvider(s.providers, p.id) {
      var r, ids := RegisterProvider(s, p, answers), Ordered(s);
      OrderedIds(s);
      var k := LoopAnswers(WithProvider(s, p), ids, answers);
      SortSorts(s.order, Ascending);
      forall id | id in s.components
        ensures if r.thrown.None? || id < ids[k] then id in ids[..k] else id !in ids[..k]
      {
        OrderedBefore(ids, k, id);
        if k == |ids| { assert ids[..k] == ids; }
      }
      forall q | q in s.providers ensures q.id != p.id {
        var i :| 0 <= i < |s.providers| && s.providers[i] == q;
      }
    } else {
      var i :| 0 <= i < |s.providers| && s.providers[i].id == p.id;
      assert s.providers[i] in s.providers;
    }
  }

  lemma OrderedBefore(ids: seq<int>, k: nat, id: int)
    requires Distinct(ids) && SortedBy(ids, Ascending) && id in ids && k <= |ids|
    ensures k < |ids| ==> (id in ids[..k] <==> id < ids[k])
  {
    var j :| 0 <= j < |ids| && ids[j] == id;
    if k < |ids| {
      if j < k {
        assert ids[..k][j] == id && Ascending(ids[j], ids[k]) && ids[j] != ids[k];
      } else {
        assert j > k ==> Ascending(ids[k], ids[j]);
        forall i | 0 <= i < k ensures ids[..k][i] != id { assert ids[i] != ids[j]; }
      }
    }
  }

  /**
   In any run: a pending component whose requirements can all be bound when a provider is registered is active
   afterwards if and only if its evaluators allow it and it acquires, failed if and only if they allow it and it
   does not, and pending, with nothing bound, held or granted, if and only if they refuse it.
   */
  lemma EvaluatorsDecide(events: seq<Event>, p: Provider, answers: int -> Answer, id: int)
    requires var s := After(EMPTY, events);
      && !HasProvider(s.providers, p.id) && id in s.components && Ready(s.components[id], s.providers + [p])
      && RegisterProvider(s, p, answers).thrown.None?
    ensures var s := After(EMPTY, events); var t := RegisterProvider(s, p, answers).runtime; var a := answers(id);
      && id in t.components
      && (t.components[id].state == Active <==> a.verdict == Allows && Acquires(s.components[id].definition, a.grants))
      && (t.components[id].state == Failed <==> a.verdict == Allows && !Acquires(s.components[id].definition, a.grants))
      && (t.components[id].state == Pending <==> a.verdict == Refuses)
      && (a.verdict == Refuses ==> t.components[id].bindings == [] && t.components[id].leases == [])
  {
    var s := After(EMPTY, events);
    RunKeepsEver(events);
    assert At(s, s.seen, id);
    AddingProviderAnswers(s, p, answers);
    assert forall q :: q in s.providers ==> q.id != p.id;
    assert Answered(s.components[id], s.providers + [p], answers(id), RegisterProvider(s, p, answers).runtime.components[id], false);
  }

  // ----- nothing starts unasked -----

  /** The call asks the evaluators about the component, and they allow it. */
  predicate Allowed(ev: Event, id: int) {
    match ev
    case AddingComponent(d, a) => d.id == id && a.verdict == Allows
    case AddingProvider(_, answers) => answers(id).verdict == Allows
    case LosingProvider(_, _) => false
  }

  /** The journal only grows, and what it grows by starts or grants nothing that the call does not allow. */
  ghost predicate AllowedSince(s: Runtime, t: Runtime, ev: Event) {
    && |s.journal| <= |t.journal| && s.journal == t.journal[..|s.journal|]
    && (forall i :: |s.journal| <= i < |t.journal| && t.journal[i].to == Loading ==> Allowed(ev, t.journal[i].component))
    && |s.granted| <= |t.granted| && s.granted == t.granted[..|s.granted|]
    && forall i :: |s.granted| <= i < |t.granted| ==> Allowed(ev, t.granted[i].component)
  }

  lemma AllowedThrough(s: Runtime, t: Runtime, u: Runtime, ev: Event)
    requires AllowedSince(s, t, ev) && AllowedSince(t, u, ev)
    ensures AllowedSince(s, u, ev)
  {
    forall i | |s.journal| <= i < |u.journal| && u.journal[i].to == Loading ensures Allowed(ev, u.journal[i].component) {
      if i < |t.journal| { assert u.journal[i] == u.journal[..|t.journal|][i]; }
    }
    forall i | |s.granted| <= i < |u.granted| ensures Allowed(ev, u.granted[i].component) {
      if i < |t.granted| { assert u.granted[i] == u.granted[..|t.granted|][i]; }
    }
    assert u.journal[..|s.journal|] == u.journal[..|t.journal|][..|s.journal|];
    assert u.granted[..|s.granted|] == u.granted[..|t.granted|][..|s.granted|];
  }

  lemma ReconcileAllowed(s: Runtime, id: int, a: Answer, ev: Event)
    requires id in s.components && s.components[id].definition.id == id && (a.verdict == Allows ==> Allowed(ev, id))
    ensures AllowedSince(s, Reconcile(s, id, a).runtime, ev)
  {
    ReconcileAnswers(s, id, a);
  }

  ghost predicate OwnIds(s: Runtime) {
    forall id :: id in s.components ==> s.components[id].definition.id == id
  }

  lemma {:induction false} LoopAllowed(s: Runtime, ids: seq<int>, answers: int -> Answer, ev: Event)
    requires OwnIds(s) && forall id :: answers(id).verdict == Allows ==> Allowed(ev, id)
    ensures AllowedSince(s, ReconcileAll(s, ids, answers).runtime, ev) && OwnIds(ReconcileAll(s, ids, answers).runtime)
    decreases |ids|
  {
    if ids != [] {
      var init, last := ids[..|ids| - 1], ids[|ids| - 1];
      var r := ReconcileAll(s, init, answers);
      LoopAllowed(s, init, answers, ev);
      if r.thrown.None? && last in r.runtime.components {
        ReconcileAnswers(r.runtime, last, answers(last));
        assert r.runtime.components[last].definition.id == last;
        ReconcileAllowed(r.runtime, last, answers(last), ev);
        AllowedThrough(s, r.runtime, Reconcile(r.runtime, last, answers(last)).runtime, ev);
      }
    }
  }

  lemma UnloadAllowed(s: Runtime, id: int, provider: int, ev: Event)
    requires id in s.components
    ensures AllowedSince(s, Unload(s, id, provider), ev)
  {
  }

  lemma {:induction false} UnloadsAllowed(s: Runtime, ids: seq<int>, provider: int, blank: bool, ev: Event)
    ensures AllowedSince(s, UnloadAll(s, ids, provider, blank).runtime, ev)
    decreases |ids|
  {
    if ids != [] {
      var init, last := ids[..|ids| - 1], ids[|ids| - 1];
      var t := UnloadAll(s, init, provider, blank).runtime;
      UnloadsAllowed(s, init, provider, blank, ev);
      if last in t.components {
        UnloadAllowed(t, last, provider, ev);
        AllowedThrough(s, t, Unload(t, last, provider), ev);
      }
    }
  }

  lemma AddingComponentAllowed(s: Runtime, d: Definition, a: Answer)
    ensures AllowedSince(s, RegisterComponent(s, d, a).runtime, AddingComponent(d, a))
  {
    if DistinctCapabilities(d.requirements) && d.id !in s.components {
      var w := Transit(AddComponent(s, d), d.id, None, Pending);
      ReconcileAllowed(w, d.id, a, AddingComponent(d, a));
      AllowedThrough(s, w, Reconcile(w, d.id, a).runtime, AddingComponent(d, a));
    }
  }

  lemma AddingProviderAllowed(s: Runtime, p: Provider, answers: int -> Answer)
    requires OwnIds(s)
    ensures AllowedSince(s, RegisterProvider(s, p, answers).runtime, AddingProvider(p, answers))
  {
    if !HasProvider(s.providers, p.id) { LoopAllowed(WithProvider(s, p), Ordered(s), answers, AddingProvider(p, answers)); }
  }

  lemma StepAllowed(s: Runtime, ev: Event)
    requires Ever(s)
    ensures AllowedSince(s, Step(s, ev).runtime, ev)
  {
    forall id | id in s.components ensures s.components[id].definition.id == id { assert At(s, s.seen, id); }
    match ev
    case AddingComponent(d, a) => AddingComponentAllowed(s, d, a);
    case AddingProvider(p, answers) => AddingProviderAllowed(s, p, answers);
    case LosingProvider(id, blank) =>
      if HasProvider(s.providers, id) { UnloadsAllowed(WithoutProvider(s, id), Ordered(s), id, blank, ev); }
  }

  /** Every start in the journal, and every list of leases granted, is the work of a call whose evaluators allowed it. */
  lemma {:induction false} StartsWereAllowed(events: seq<Event>, i: nat) returns (k: nat)
    requires i < |After(EMPTY, events).journal| && After(EMPTY, events).journal[i].to == Loading
    ensures k < |events| && Allowed(events[k], After(EMPTY, events).journal[i].component)
    ensures |After(EMPTY, events[..k]).journal| <= i < |After(EMPTY, events[..k + 1]).journal|
    decreases |events|
  {
    var init, last := events[..|events| - 1], events[|events| - 1];
    var s, t := After(EMPTY, init), After(EMPTY, events);
    RunKeepsEver(init);
    StepAllowed(s, last);
    if i < |s.journal| {
      assert s.journal[i] == t.journal[..|s.journal|][i];
      k := StartsWereAllowed(init, i);
      assert init[..k] == events[..k] && init[..k + 1] == events[..k + 1];
    } else {
      k := |events| - 1;
      assert events[..k + 1] == events;
    }
  }

  lemma {:induction false} GrantsWereAllowed(events: seq<Event>, i: nat) returns (k: nat)
    requires i < |After(EMPTY, events).granted|
    ensures k < |events| && Allowed(events[k], After(EMPTY, events).granted[i].component)
    ensures |After(EMPTY, events[..k]).granted| <= i < |After(EMPTY, events[..k + 1]).granted|
    decreases |events|
  {
    var init, last := events[..|events| - 1], events[|events| - 1];
    var s, t := After(EMPTY, init), After(EMPTY, events);
    RunKeepsEver(init);
    StepAllowed(s, last);
    if i < |s.granted| {
      assert s.granted[i] == t.granted[..|s.granted|][i];
      k := GrantsWereAllowed(init, i);
      assert init[..k] == events[..k] && init[..k + 1] == events[..k + 1];
    } else {
      k := |events| - 1;
      assert events[..k + 1] == events;
    }
  }

  // ----- the runtime object -----

  class CompositionRuntime {
    var components: map<int, Component>
    var order: seq<int>
    var providers: seq<Provider>
    var journal: seq<Transition>
    ghost var granted: seq<Granted>
    var disposed: seq<Lease>
    ghost var seen: seq<Provider>

    ghost function State(): Runtime
      reads this
    {
      Runtime(components, order, providers, journal, granted, disposed, seen)
    }

    constructor ()
      ensures State() == EMPTY && Inv(State())
    {
      components, order, providers, journal := map[], [], [], [];
      granted, disposed, seen := [], [], [];
      new;
      EmptyInv();
    }

    method RecordTransition(id: int, from: Option<Lifecycle>, to: Lifecycle)
      requires id in components
      modifies this
      ensures State() == Transit(old(State()), id, from, to)
    {
      var c := components[id];
      var transition := Transition(|journal| + 1, id, from, to, ProviderIds(c.bindings));
      components := components[id := c.(state := to)];
      journal := journal + [transition];
    }

    method ResolveBindings(d: Definition) returns (bindings: Option<seq<Provider>>)
      ensures bindings == Resolve(providers, d.requirements, d.scope)
    {
      var selected: seq<Provider> := [];
      for i := 0 to |d.requirements|
        invariant Resolve(providers, d.requirements[..i], d.scope) == Some(selected)
      {
        ResolveNext(providers, d.requirements, d.scope, i);
        var candidates := SortBy(Filter(providers, Offering(d.requirements[i], d.scope)), ByPriority);
        if candidates == [] {
          ResolveStops(providers, d.requirements, d.scope, i + 1);
          return None;
        }
        selected := selected + [candidates[0]];
      }
      assert d.requirements[..|d.requirements|] == d.requirements;
      return Some(selected);
    }

    /** Throws, with nothing recorded, if an evaluator throws or refuses for a blank reason. */
    method ReconcileComponent(id: int, a: Answer) returns (thrown: Option<RuntimeError>)
      requires id in components
      modifies this
      ensures Outcome(State(), thrown) == Reconcile(old(State()), id, a)
      ensures id in components && components == old(components)[id := components[id]]
      ensures Answered(old(components)[id], providers, a, components[id], thrown.Some?)
      ensures Recorded(old(State()), State(), id, a) && providers == old(providers) && disposed == old(disposed)
      ensures thrown.Some? ==> thrown == Some(EvaluationThrew(id)) && State() == old(State())
    {
      ReconcileAnswers(State(), id, a);
      var c := components[id];
      if c.state != Pending { return None; }
      var bindings := ResolveBindings(c.definition);
      if bindings.None? { return None; }
      match a.verdict {
        case Throws => return Some(EvaluationThrew(id));
        case Refuses => RecordTransition(id, Some(Pending), Pending);
        case Allows => ActivateComponent(id, bindings.value, a);
      }
      return None;
    }

    method ActivateComponent(id: int, bindings: seq<Provider>, a: Answer)
      requires id in components
      modifies this
      ensures State() == Activate(old(State()), id, bindings, a)
    {
      var definition := components[id].definition;
      RecordTransition(id, Some(Pending), Loading);
      components := components[id := components[id].(bindings := bindings)];
      granted := granted + Returned(definition, a);
      var leases := Acquire(definition, a);
      if leases.Some? {
        components := components[id := components[id].(leases := leases.value)];
        RecordTransition(id, Some(Loading), Active);
      } else {
        components := components[id := components[id].(bindings := [], leases := [])];
        RecordTransition(id, Some(Loading), Failed);
      }
    }

    method AddComponentCall(d: Definition, a: Answer) returns (thrown: Option<RuntimeError>)
      modifies this
      ensures Outcome(State(), thrown) == RegisterComponent(old(State()), d, a)
      ensures ComponentAdded(old(State()), State(), thrown, d, a)
    {
      if !DistinctCapabilities(d.requirements) {
        thrown := Some(DuplicateCapability);
      } else if d.id in components {
        thrown := Some(DuplicateComponent(d.id));
      } else {
        components := components[d.id := Component(d, Pending, [], [])];
        order := order + [d.id];
        RecordTransition(d.id, None, Pending);
        thrown := ReconcileComponent(d.id, a);
      }
      AddingComponentAnswers(old(State()), d, a);
    }

    method AddProviderCall(p: Provider, answers: int -> Answer) returns (thrown: Option<RuntimeError>)
      modifies this
      ensures Outcome(State(), thrown) == RegisterProvider(old(State()), p, answers)
      ensures old(Registered(State())) ==> ProviderAdded(old(State()), State(), thrown, p, answers)
    {
      if HasProvider(providers, p.id) {
        thrown := Some(DuplicateProvider(p.id));
      } else {
        providers := providers + [p];
        seen := seen + [p];
        thrown := ReconcileComponents(SortBy(order, Ascending), answers);
      }
      if old(Registered(State())) { AddingProviderAnswers(old(State()), p, answers); }
    }

    /** The loop over the ordered components. */
    method ReconcileComponents(ids: seq<int>, answers: int -> Answer) returns (thrown: Option<RuntimeError>)
      modifies this
      ensures Outcome(State(), thrown) == ReconcileAll(old(State()), ids, answers)
    {
      ghost var start := State();
      thrown := None;
      for i := 0 to |ids|
        invariant thrown.None? && Outcome(State(), None) == ReconcileAll(start, ids[..i], answers)
      {
        assert ids[..i + 1][..i] == ids[..i];
        if ids[i] in components {
          thrown := ReconcileComponent(ids[i], answers(ids[i]));
          if thrown.Some? {
            ReconcileStops(start, ids, answers, i + 1);
            return;
          }
        }
      }
      assert ids[..|ids|] == ids;
    }

    /** One turn of the loop over components; every lease is disposed before the next transition. */
    method UnloadComponent(id: int, provider: int)
      requires id in components
      modifies this
      ensures State() == Unload(old(State()), id, provider)
    {
      if !Uses(components[id].bindings, provider) { return; }
      RecordTransition(id, Some(components[id].state), Suspended);
      RecordTransition(id, Some(Suspended), Unloading);
      var leases := components[id].leases;
      ghost var unloading := State();
      for i := 0 to |leases|
        invariant State() == unloading.(disposed := unloading.disposed + LeasesOf(id, leases)[..i])
      {
        disposed := disposed + [Lease(id, leases[i])];
      }
      components := components[id := components[id].(leases := [], bindings := [])];
      RecordTransition(id, Some(Unloading), Pending);
    }

    /** Whether the reason is blank is looked at in the loop, when the provider is already gone. */
    method LoseProviderCall(id: int, blank: bool) returns (thrown: Option<RuntimeError>)
      modifies this
      ensures Outcome(State(), thrown) == UnregisterProvider(old(State()), id, blank)
    {
      if !HasProvider(providers, id) { return Some(UnknownProvider(id)); }
      var ids := SortBy(order, Ascending);
      providers := Filter(providers, OtherThan(id));
      ghost var start := State();
      for i := 0 to |ids|
        invariant Outcome(State(), None) == UnloadAll(start, ids[..i], id, blank)
      {
        assert ids[..i + 1][..i] == ids[..i];
        if ids[i] in components && Uses(components[ids[i]].bindings, id) {
          if blank {
            UnloadStops(start, ids, id, blank, i + 1);
            return Some(BlankReason);
          }
          UnloadComponent(ids[i], id);
        }
      }
      assert ids[..|ids|] == ids;
      return None;
    }
  }

  lemma {:induction false} ReconcileStops(s: Runtime, ids: seq<int>, answers: int -> Answer, k: nat)
    requires k <= |ids| && ReconcileAll(s, ids[..k], answers).thrown.Some?
    ensures ReconcileAll(s, ids, answers) == ReconcileAll(s, ids[..k], answers)
    decreases |ids|
  {
    if k == |ids| {
      assert ids[..k] == ids;
    } else {
      var init := ids[..|ids| - 1];
      assert init[..k] == ids[..k];
      ReconcileStops(s, init, answers, k);
    }
  }

  lemma {:induction false} UnloadStops(s: Runtime, ids: seq<int>, provider: int, blank: bool, k: nat)
    requires k <= |ids| && UnloadAll(s, ids[..k], provider, blank).thrown.Some?
    ensures UnloadAll(s, ids, provider, blank) == UnloadAll(s, ids[..k], provider, blank)
    decreases |ids|
  {
    if k == |ids| {
      assert ids[..k] == ids;
    } else {
      var init := ids[..|ids| - 1];
      assert init[..k] == ids[..k];
      UnloadStops(s, init, provider, blank, k);
    }
  }

  lemma ResolveNext(providers: seq<Provider>, requirements: seq<Requirement>, scope: Scope, i: nat)
    requires i < |requirements| && Resolve(providers, requirements[..i], scope).Some?
    ensures Resolve(providers, requirements[..i + 1], scope) ==
            match Best(providers, requirements[i], scope)
            case None => None
            case Some(p) => Some(Resolve(providers, requirements[..i], scope).value + [p])
  {
    assert requirements[..i + 1][..i] == requirements[..i];
  }

  lemma {:induction false} ResolveStops(providers: seq<Provider>, requirements: seq<Requirement>, scope: Scope, k: nat)
    requires k <= |requirements| && Resolve(providers, requirements[..k], scope).None?
    ensures Resolve(providers, requirements, scope).None?
    decreases |requirements|
  {
    if k == |requirements| {
      assert requirements[..k] == requirements;
    } else {
      var init := requirements[..|requirements| - 1];
      assert init[..k] == requirements[..k];
      ResolveStops(providers, init, scope, k);
    }
  }
}
