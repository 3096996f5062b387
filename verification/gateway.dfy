/**
 packages/provider-gateway: at most one adapter invocation per (workspace, idempotency key). Every `await`
 is a step boundary; a run is a sequence of events, interleaved in any order the host allows.

 An `execute` call is two steps: `Begin` looks the key up and runs up to the first `await`, calling the
 authority evaluator; `Store` records the promise under the key. Only the evaluator, called in between, can
 put other calls between the two; a call that fails before it asks the evaluator is stored at once.
 */
module Gateway {
  import opened Wrappers
  import opened Replay

  datatype EffectClass = Runtime | Semantic | External

  datatype Contract = Contract(kind: int, capability: int, operations: map<int, EffectClass>)

  /** `serial` stands for the identity of the frozen object that one registration creates. */
  datatype Provider = Provider(id: int, kind: int, contracts: seq<int>, serial: nat)

  datatype Binding = Binding(
    id: int, workspace: int, app: int, provider: int, contracts: seq<int>, principals: seq<int>, credential: Option<int>)

  /** The normalised envelope; its stable text is the fingerprint, which the model takes to be the envelope itself. */
  datatype Envelope = Envelope(
    id: int, workspace: int, principal: int, app: int, binding: int, contract: int, operation: int, authority: int,
    idempotencyKey: int, effect: EffectClass, reconciled: bool, payload: int)

  datatype Key = Key(workspace: int, idempotencyKey: int)

  datatype Entry = Entry(fingerprint: Envelope, promise: nat)

  datatype Decision = Decision(allowed: bool, id: int, reasoned: bool)

  datatype Stage = Authorizing | ResolvingCredential | Invoking | Fulfilled | Rejected

  datatype Plan = Plan(provider: Provider, binding: Binding, capability: int)

  /** One promise made by `execute` and the state of the async call behind it. */
  datatype Attempt = Attempt(
    envelope: Envelope, plan: Option<Plan>, stage: Stage, decision: Option<Decision>, credential: Option<int>,
    started: bool, handled: bool)

  datatype Gateway = Gateway(
    contracts: map<int, Contract>, canResolve: bool, providers: map<int, Provider>, bindings: map<int, Binding>,
    idempotency: map<Key, Entry>, attempts: map<nat, Attempt>, made: nat, opening: seq<nat>, registrations: nat,
    invocations: seq<nat>)

  datatype GatewayError =
    | NeedsReconciliation
    | UnknownBinding(id: int)
    | ScopeMismatch
    | PrincipalOutside
    | ContractOutside
    | ProviderUnavailable(id: int)
    | NotImplemented(contract: int)
    | UnknownContract(contract: int)
    | KindMismatch(contract: int)
    | UndeclaredOperation
    | EffectMismatch
    | DuplicateProvider(id: int)
    | DuplicateBinding(id: int)

  datatype Answer = Joined(promise: nat) | Started(promise: nat) | KeyReused

  datatype Event =
    | Register(id: int, kind: int, contracts: seq<int>)
    | Unregister(id: int)
    | Bind(binding: Binding)
    | Begin(envelope: Envelope)
    | Store
    | AuthoritySettled(attempt: nat, decision: Option<Decision>)
    | CredentialSettled(attempt: nat, credential: Option<int>)
    | InvocationSettled(attempt: nat, observed: bool)
    | HandlerRuns(attempt: nat)

  datatype StepError = NotEnabled | Reentrant

  function KeyOf(e: Envelope): Key {
    Key(e.workspace, e.idempotencyKey)
  }

  // ----- providers and bindings -----

  /** The first contract of the list that the provider may not offer. */
  function ContractProblem(s: Gateway, kind: int, contracts: seq<int>): Option<GatewayError> {
    if contracts == [] then None
    else if contracts[0] !in s.contracts then Some(UnknownContract(contracts[0]))
    else if s.contracts[contracts[0]].kind != kind then Some(KindMismatch(contracts[0]))
    else ContractProblem(s, kind, contracts[1..])
  }

  function RegisterProvider(s: Gateway, id: int, kind: int, contracts: seq<int>): Result<Gateway, GatewayError> {
    if id in s.providers then Err(DuplicateProvider(id))
    else match ContractProblem(s, kind, contracts)
      case Some(e) => Err(e)
      case None => Ok(s.(providers := s.providers[id := Provider(id, kind, contracts, s.registrations)],
                         registrations := s.registrations + 1))
  }

  function UnregisterProvider(s: Gateway, id: int): Result<Gateway, GatewayError> {
    if id !in s.providers then Err(ProviderUnavailable(id))
    else Ok(s.(providers := s.providers - {id}))
  }

  function Missing(offered: seq<int>, contracts: seq<int>): Option<GatewayError> {
    if contracts == [] then None
    else if contracts[0] !in offered then Some(NotImplemented(contracts[0]))
    else Missing(offered, contracts[1..])
  }

  function BindProvider(s: Gateway, b: Binding): Result<Gateway, GatewayError> {
    if b.id in s.bindings then Err(DuplicateBinding(b.id))
    else if b.provider !in s.providers then Err(ProviderUnavailable(b.provider))
    else match Missing(s.providers[b.provider].contracts, b.contracts)
      case Some(e) => Err(e)
      case None => Ok(s.(bindings := s.bindings[b.id := b]))
  }

  lemma {:induction false} NoContractProblemIff(s: Gateway, kind: int, contracts: seq<int>)
    ensures ContractProblem(s, kind, contracts) == None <==>
      forall contract :: contract in contracts ==> contract in s.contracts && s.contracts[contract].kind == kind
    ensures match ContractProblem(s, kind, contracts)
      case Some(UnknownContract(contract)) => contract in contracts && contract !in s.contracts
      case Some(KindMismatch(contract)) => contract in contracts && contract in s.contracts && s.contracts[contract].kind != kind
      case Some(_) => false
      case None => true
    decreases |contracts|
  {
    if contracts != [] {
      assert contracts[0] in contracts;
      NoContractProblemIff(s, kind, contracts[1..]);
      assert forall contract :: contract in contracts ==> contract == contracts[0] || contract in contracts[1..];
    }
  }

  lemma {:induction false} NothingMissingIff(offered: seq<int>, contracts: seq<int>)
    ensures Missing(offered, contracts) == None <==> forall contract :: contract in contracts ==> contract in offered
    ensures match Missing(offered, contracts)
      case Some(NotImplemented(contract)) => contract in contracts && contract !in offered
      case Some(_) => false
      case None => true
    decreases |contracts|
  {
    if contracts != [] {
      assert contracts[0] in contracts;
      NothingMissingIff(offered, contracts[1..]);
      assert forall contract :: contract in contracts ==> contract == contracts[0] || contract in contracts[1..];
    }
  }

  /** A provider is taken if and only if its id is new and it offers only known contracts of its own kind. */
  lemma RegisterProviderIff(s: Gateway, id: int, kind: int, contracts: seq<int>)
    ensures RegisterProvider(s, id, kind, contracts).Ok? <==>
      id !in s.providers && forall contract :: contract in contracts ==> contract in s.contracts && s.contracts[contract].kind == kind
    ensures match RegisterProvider(s, id, kind, contracts)
      case Ok(_) => true
      case Err(DuplicateProvider(i)) => i == id && id in s.providers
      case Err(UnknownContract(contract)) => contract in contracts && contract !in s.contracts
      case Err(KindMismatch(contract)) => contract in contracts && contract in s.contracts && s.contracts[contract].kind != kind
      case Err(_) => false
  {
    NoContractProblemIff(s, kind, contracts);
  }

  /** A binding is taken if and only if its id is new and its provider is there and offers all of its contracts. */
  lemma BindProviderIff(s: Gateway, b: Binding)
    ensures BindProvider(s, b).Ok? <==>
      && b.id !in s.bindings && b.provider in s.providers
      && forall contract :: contract in b.contracts ==> contract in s.providers[b.provider].contracts
    ensures match BindProvider(s, b)
      case Ok(_) => true
      case Err(DuplicateBinding(id)) => id == b.id && id in s.bindings
      case Err(ProviderUnavailable(id)) => id == b.provider && id !in s.providers
      case Err(NotImplemented(contract)) =>
        contract in b.contracts && b.provider in s.providers && contract !in s.providers[b.provider].contracts
      case Err(_) => false
  {
    if b.provider in s.providers { NothingMissingIff(s.providers[b.provider].contracts, b.contracts); }
  }

  // ----- one call -----

  /** The checks before the first `await`, in order. */
  function Prepare(s: Gateway, e: Envelope): Result<Plan, GatewayError> {
    if e.effect == External && !e.reconciled then Err(NeedsReconciliation)
    else if e.binding !in s.bindings then Err(UnknownBinding(e.binding))
    else
      var b := s.bindings[e.binding];
      if b.workspace != e.workspace || b.app != e.app then Err(ScopeMismatch)
      else if e.principal !in b.principals then Err(PrincipalOutside)
      else if e.contract !in b.contracts then Err(ContractOutside)
      else if b.provider !in s.providers then Err(ProviderUnavailable(b.provider))
      else PrepareContract(s, e, b, s.providers[b.provider])
  }

  function PrepareContract(s: Gateway, e: Envelope, b: Binding, p: Provider): Result<Plan, GatewayError> {
    if e.contract !in p.contracts then Err(NotImplemented(e.contract))
    else if e.contract !in s.contracts then Err(UnknownContract(e.contract))
    else
      var c := s.contracts[e.contract];
      if c.kind != p.kind then Err(KindMismatch(e.contract))
      else if e.operation !in c.operations then Err(UndeclaredOperation)
      else if c.operations[e.operation] != e.effect then Err(EffectMismatch)
      else Ok(Plan(p, b, c.capability))
  }

  /** Everything a call has to meet before the authority evaluator is asked. */
  predicate Admissible(s: Gateway, e: Envelope) {
    && (e.effect == External ==> e.reconciled)
    && e.binding in s.bindings && e.contract in s.contracts
    && var b, c := s.bindings[e.binding], s.contracts[e.contract];
    && b.workspace == e.workspace && b.app == e.app && e.principal in b.principals && e.contract in b.contracts
    && e.operation in c.operations && c.operations[e.operation] == e.effect
    && b.provider in s.providers && e.contract in s.providers[b.provider].contracts && s.providers[b.provider].kind == c.kind
  }

  /** The check behind an error does fail. */
  predicate Fails(s: Gateway, e: Envelope, error: GatewayError) {
    match error
    case NeedsReconciliation => e.effect == External && !e.reconciled
    case UnknownBinding(id) => id == e.binding && id !in s.bindings
    case UnknownContract(contract) => contract == e.contract && contract !in s.contracts
    case UndeclaredOperation => e.contract in s.contracts && e.operation !in s.contracts[e.contract].operations
    case EffectMismatch =>
      && e.contract in s.contracts && e.operation in s.contracts[e.contract].operations
      && s.contracts[e.contract].operations[e.operation] != e.effect
    case _ => e.binding in s.bindings && FailsIn(s, e, s.bindings[e.binding], error)
  }

  predicate FailsIn(s: Gateway, e: Envelope, b: Binding, error: GatewayError) {
    match error
    case ScopeMismatch => b.workspace != e.workspace || b.app != e.app
    case PrincipalOutside => e.principal !in b.principals
    case ContractOutside => e.contract !in b.contracts
    case ProviderUnavailable(id) => id == b.provider && id !in s.providers
    case NotImplemented(contract) =>
      contract == e.contract && b.provider in s.providers && contract !in s.providers[b.provider].contracts
    case KindMismatch(contract) =>
      && contract == e.contract && b.provider in s.providers && contract in s.contracts
      && s.contracts[contract].kind != s.providers[b.provider].kind
    case _ => false
  }

  function NewAttempt(s: Gateway, e: Envelope): Attempt {
    match Prepare(s, e)
    case Ok(plan) => Attempt(e, Some(plan), Authorizing, None, None, false, false)
    case Err(_) => Attempt(e, None, Rejected, None, None, false, false)
  }

  /**
   The attempt that a new call makes: it waits for the authority decision, with the provider, binding and
   capability that its binding and contract name, if and only if the call is admissible, and fails otherwise.
   */
  predicate Begun(s: Gateway, e: Envelope, a: Attempt) {
    && a.envelope == e && a.decision == None && a.credential == None && !a.started && !a.handled
    && (if Admissible(s, e) then
          && a.stage == Authorizing && a.plan.Some?
          && a.plan.value.binding == s.bindings[e.binding]
          && a.plan.value.provider == s.providers[s.bindings[e.binding].provider]
          && a.plan.value.capability == s.contracts[e.contract].capability
        else a.stage == Rejected && a.plan.None?)
  }

  lemma NewAttemptBegun(s: Gateway, e: Envelope)
    ensures Begun(s, e, NewAttempt(s, e))
    ensures Prepare(s, e).Err? ==> Fails(s, e, Prepare(s, e).error)
  {
  }

  function AnswerTo(s: Gateway, e: Envelope): Answer {
    if KeyOf(e) in s.idempotency then
      var entry := s.idempotency[KeyOf(e)];
      if entry.fingerprint == e then Joined(entry.promise) else KeyReused
    else Started(s.made)
  }

  function Opened(s: Gateway, a: Attempt): Gateway {
    s.(attempts := s.attempts[s.made := a], made := s.made + 1, opening := s.opening + [s.made])
  }

  function BeginExecute(s: Gateway, e: Envelope): Gateway {
    if KeyOf(e) in s.idempotency then s else Opened(s, NewAttempt(s, e))
  }

  function StoreEntry(s: Gateway): Gateway
    requires s.opening != [] && s.opening[|s.opening| - 1] in s.attempts
  {
    var p := s.opening[|s.opening| - 1];
    var e := s.attempts[p].envelope;
    s.(idempotency := s.idempotency[KeyOf(e) := Entry(e, p)], opening := s.opening[..|s.opening| - 1])
  }

  function Execute(s: Gateway, e: Envelope): Gateway {
    if KeyOf(e) in s.idempotency then s else StoreEntry(BeginExecute(s, e))
  }

  function StartInvocation(s: Gateway, p: nat, a: Attempt): Gateway {
    s.(attempts := s.attempts[p := a.(stage := Invoking, started := true)], invocations := s.invocations + [p])
  }

  function Reject(s: Gateway, p: nat, a: Attempt): Gateway {
    s.(attempts := s.attempts[p := a.(stage := Rejected)])
  }

  predicate Granted(a: Attempt) {
    a.decision.Some? && a.decision.value.allowed && a.decision.value.id == a.envelope.authority && a.decision.value.reasoned
  }

  function OnAuthority(s: Gateway, p: nat, decision: Option<Decision>): Gateway
    requires p in s.attempts && s.attempts[p].plan.Some?
  {
    var a := s.attempts[p].(decision := decision);
    if !Granted(a) then Reject(s, p, a)
    else if a.plan.value.binding.credential.None? then StartInvocation(s, p, a)
    else if !s.canResolve then Reject(s, p, a)
    else s.(attempts := s.attempts[p := a.(stage := ResolvingCredential)])
  }

  function OnCredential(s: Gateway, p: nat, credential: Option<int>): Gateway
    requires p in s.attempts
  {
    var a := s.attempts[p].(credential := credential);
    if credential.None? then Reject(s, p, a) else StartInvocation(s, p, a)
  }

  /** A result is delivered only if the provider registered now is the one that was invoked. */
  function OnInvocation(s: Gateway, p: nat, observed: bool): Gateway
    requires p in s.attempts && s.attempts[p].plan.Some?
  {
    var a := s.attempts[p];
    var provider := a.plan.value.provider;
    if !observed || provider.id !in s.providers || s.providers[provider.id] != provider then Reject(s, p, a)
    else s.(attempts := s.attempts[p := a.(stage := Fulfilled)])
  }

  function OnRejected(s: Gateway, p: nat): Gateway
    requires p in s.attempts
  {
    var a := s.attempts[p];
    var key := KeyOf(a.envelope);
    s.(attempts := s.attempts[p := a.(handled := true)],
       idempotency := if !a.started && key in s.idempotency && s.idempotency[key].promise == p
                      then s.idempotency - {key} else s.idempotency)
  }

  // ----- runs -----

  /** A continuation runs when no `execute` call is on the stack and its promise has settled. */
  predicate Waiting(s: Gateway, p: nat, stage: Stage) {
    s.opening == [] && p in s.attempts && s.attempts[p].stage == stage && (s.attempts[p].plan.Some? || stage == Rejected)
  }

  function After(s: Gateway, r: Result<Gateway, GatewayError>): Gateway {
    match r case Ok(t) => t case Err(_) => s
  }

  /** No `execute` call is on the stack, or the innermost one has called the evaluator. */
  predicate CanBegin(s: Gateway) {
    s.opening == [] || (var p := s.opening[|s.opening| - 1]; p in s.attempts && s.attempts[p].stage == Authorizing)
  }

  function Step(s: Gateway, ev: Event): Result<Gateway, StepError> {
    match ev
    case Register(id, kind, contracts) => Ok(After(s, RegisterProvider(s, id, kind, contracts)))
    case Unregister(id) => Ok(After(s, UnregisterProvider(s, id)))
    case Bind(b) => Ok(After(s, BindProvider(s, b)))
    case Begin(e) => if CanBegin(s) then Ok(BeginExecute(s, e)) else Err(NotEnabled)
    case Store =>
      if s.opening == [] || s.opening[|s.opening| - 1] !in s.attempts then Err(NotEnabled) else Ok(StoreEntry(s))
    case AuthoritySettled(p, d) => if Waiting(s, p, Authorizing) then Ok(OnAuthority(s, p, d)) else Err(NotEnabled)
    case CredentialSettled(p, c) => if Waiting(s, p, ResolvingCredential) then Ok(OnCredential(s, p, c)) else Err(NotEnabled)
    case InvocationSettled(p, o) => if Waiting(s, p, Invoking) then Ok(OnInvocation(s, p, o)) else Err(NotEnabled)
    case HandlerRuns(p) =>
      if Waiting(s, p, Rejected) && !s.attempts[p].handled then Ok(OnRejected(s, p)) else Err(NotEnabled)
  }

  predicate Opens(s: Gateway, p: nat, k: Key) {
    p in s.attempts && KeyOf(s.attempts[p].envelope) == k
  }

  /** The adapter will not be called: the attempt is rejected, or needs a credential that nobody resolves. */
  predicate Hopeless(canResolve: bool, a: Attempt) {
    !a.started && (a.stage == Rejected || (a.plan.Some? && a.plan.value.binding.credential.Some? && !canResolve))
  }

  /** The authority evaluator calls `execute` with the key of a call being decided, and may get the adapter called. */
  predicate Reenters(s: Gateway, ev: Event) {
    && ev.Begin? && KeyOf(ev.envelope) !in s.idempotency
    && (exists i :: 0 <= i < |s.opening| && Opens(s, s.opening[i], KeyOf(ev.envelope)))
    && !Hopeless(s.canResolve, NewAttempt(s, ev.envelope))
  }

  function OrderlyStep(s: Gateway, ev: Event): Result<Gateway, StepError> {
    if Reenters(s, ev) then Err(Reentrant) else Step(s, ev)
  }

  function Initial(contracts: map<int, Contract>, canResolve: bool): Gateway {
    Gateway(contracts, canResolve, map[], map[], map[], map[], 0, [], 0, [])
  }

  // ----- the invariant -----

  /** What the stage says about how far the call got. */
  predicate StageOk(canResolve: bool, a: Attempt) {
    && (a.started <==> a.stage == Invoking || a.stage == Fulfilled || (a.stage == Rejected && a.started))
    && (a.started ==> Granted(a) && a.plan.Some? && (a.plan.value.binding.credential.Some? ==> a.credential.Some?))
    && (a.stage == ResolvingCredential ==> Granted(a) && canResolve)
    && (a.plan.None? ==> a.stage == Rejected)
    && (a.handled ==> a.stage == Rejected)
  }

  predicate Owns(s: Gateway, p: nat, a: Attempt) {
    KeyOf(a.envelope) in s.idempotency && s.idempotency[KeyOf(a.envelope)] == Entry(a.envelope, p)
  }

  /** The entry under the key, if there is one, is a hopeless attempt's. */
  predicate Overwritable(s: Gateway, k: Key) {
    k in s.idempotency ==>
      s.idempotency[k].promise in s.attempts && Hopeless(s.canResolve, s.attempts[s.idempotency[k].promise])
  }

  predicate AttemptOk(s: Gateway, p: nat) {
    p in s.attempts ==>
      && p < s.made
      && StageOk(s.canResolve, s.attempts[p])
      && (p in s.opening ==> !s.attempts[p].started && !s.attempts[p].handled && Overwritable(s, KeyOf(s.attempts[p].envelope)))
      && (p !in s.opening ==> Hopeless(s.canResolve, s.attempts[p]) || Owns(s, p, s.attempts[p]))
  }

  predicate EntryOk(s: Gateway, k: Key) {
    k in s.idempotency ==>
      var p := s.idempotency[k].promise;
      p in s.attempts && p !in s.opening && KeyOf(s.attempts[p].envelope) == k && Owns(s, p, s.attempts[p])
  }

  /** Of two open calls with one key the inner one is hopeless, and all but the innermost wait for the evaluator. */
  predicate OpenDistinct(s: Gateway, i: int, j: int) {
    0 <= i < j < |s.opening| ==>
      s.opening[i] != s.opening[j] && s.opening[i] in s.attempts && s.opening[j] in s.attempts &&
      s.attempts[s.opening[i]].stage == Authorizing &&
      (KeyOf(s.attempts[s.opening[i]].envelope) == KeyOf(s.attempts[s.opening[j]].envelope) ==>
         Hopeless(s.canResolve, s.attempts[s.opening[j]]))
  }

  ghost predicate Opening(s: Gateway) {
    && (forall i :: 0 <= i < |s.opening| ==> s.opening[i] in s.attempts)
    && forall i, j :: OpenDistinct(s, i, j)
  }

  ghost predicate Invoked(s: Gateway) {
    && (forall i, j :: 0 <= i < j < |s.invocations| ==> s.invocations[i] != s.invocations[j])
    && forall p :: p in s.invocations <==> p in s.attempts && s.attempts[p].started
  }

  ghost predicate Inv(s: Gateway) {
    && (forall p :: AttemptOk(s, p))
    && (forall k :: EntryOk(s, k))
    && Opening(s) && Invoked(s)
  }

  lemma InitialInv(contracts: map<int, Contract>, canResolve: bool)
    ensures Inv(Initial(contracts, canResolve))
  {
  }

  /** A call that has just begun. */
  predicate Fresh(canResolve: bool, a: Attempt) {
    StageOk(canResolve, a) && !a.started && !a.handled && (a.plan.Some? ==> a.stage == Authorizing)
  }

  lemma NewAttemptFresh(s: Gateway, e: Envelope)
    ensures Fresh(s.canResolve, NewAttempt(s, e)) && NewAttempt(s, e).envelope == e
  {
  }

  lemma OpenedAttempts(s: Gateway, a: Attempt, p: nat)
    requires Inv(s) && KeyOf(a.envelope) !in s.idempotency && Fresh(s.canResolve, a)
    ensures AttemptOk(Opened(s, a), p)
  {
    assert AttemptOk(s, s.made) && AttemptOk(s, p);
  }

  lemma OpenedEntries(s: Gateway, a: Attempt, k: Key)
    requires Inv(s) && KeyOf(a.envelope) !in s.idempotency
    ensures EntryOk(Opened(s, a), k)
  {
    assert AttemptOk(s, s.made) && EntryOk(s, k);
  }

  lemma OpenIsAuthorizing(s: Gateway, j: nat)
    requires Inv(s) && CanBegin(s) && j < |s.opening|
    ensures var p := s.opening[j];
      && p in s.attempts && p < s.made && s.attempts[p].stage == Authorizing && s.attempts[p].plan.Some?
      && !s.attempts[p].started && !s.attempts[p].handled
  {
    assert AttemptOk(s, s.opening[j]);
    assert OpenDistinct(s, j, |s.opening| - 1);
  }

  lemma OpenedOpening(s: Gateway, a: Attempt)
    requires Inv(s) && CanBegin(s)
    requires Hopeless(s.canResolve, a) || !exists i :: 0 <= i < |s.opening| && Opens(s, s.opening[i], KeyOf(a.envelope))
    ensures Opening(Opened(s, a))
  {
    var t := Opened(s, a);
    assert AttemptOk(s, s.made);
    forall i, j ensures OpenDistinct(t, i, j) {
      assert OpenDistinct(s, i, j);
      if 0 <= i < |s.opening| {
        OpenIsAuthorizing(s, i);
        assert Opens(s, s.opening[i], KeyOf(a.envelope)) ==> Hopeless(s.canResolve, a);
      }
    }
  }

  lemma OpenedInvoked(s: Gateway, a: Attempt)
    requires Inv(s) && !a.started
    ensures Invoked(Opened(s, a))
  {
    assert AttemptOk(s, s.made);
  }

  lemma OpenedKeepsInv(s: Gateway, a: Attempt)
    requires Inv(s) && CanBegin(s) && KeyOf(a.envelope) !in s.idempotency && Fresh(s.canResolve, a)
    requires Hopeless(s.canResolve, a) || !exists i :: 0 <= i < |s.opening| && Opens(s, s.opening[i], KeyOf(a.envelope))
    ensures Inv(Opened(s, a))
  {
    forall p { OpenedAttempts(s, a, p); }
    forall k { OpenedEntries(s, a, k); }
    OpenedOpening(s, a);
    OpenedInvoked(s, a);
  }

  lemma BeginKeepsInv(s: Gateway, e: Envelope)
    requires Inv(s) && CanBegin(s) && !Reenters(s, Begin(e))
    ensures Inv(BeginExecute(s, e))
  {
    NewAttemptFresh(s, e);
    if KeyOf(e) !in s.idempotency { OpenedKeepsInv(s, NewAttempt(s, e)); }
  }

  lemma StoreKeepsInv(s: Gateway)
    requires Inv(s) && Step(s, Store).Ok?
    ensures Inv(StoreEntry(s))
  {
    var t := StoreEntry(s);
    var n := |s.opening| - 1;
    var p := s.opening[n];
    assert AttemptOk(s, p);
    assert p !in t.opening by {
      forall i | 0 <= i < n ensures s.opening[i] != p { assert OpenDistinct(s, i, n); }
    }
    forall q ensures AttemptOk(t, q) { StoreAttempts(s, q); }
    forall k ensures EntryOk(t, k) { assert EntryOk(s, k); }
    forall i, j ensures OpenDistinct(t, i, j) { assert OpenDistinct(s, i, j); }
  }

  lemma StoreAttempts(s: Gateway, q: nat)
    requires Inv(s) && Step(s, Store).Ok?
    ensures AttemptOk(StoreEntry(s), q)
  {
    var t := StoreEntry(s);
    var n := |s.opening| - 1;
    assert AttemptOk(s, q) && AttemptOk(s, s.opening[n]);
    if q in t.opening {
      var i :| 0 <= i < n && s.opening[i] == q;
      assert OpenDistinct(s, i, n);
    }
  }

  lemma ExecuteKeepsInv(s: Gateway, e: Envelope)
    requires Inv(s) && s.opening == []
    ensures Inv(Execute(s, e))
  {
    BeginKeepsInv(s, e);
    if KeyOf(e) !in s.idempotency { StoreKeepsInv(BeginExecute(s, e)); }
  }

  /** A continuation of `p` changes nothing but `p`'s attempt and, perhaps, the list of invocations. */
  ghost predicate Advances(s: Gateway, t: Gateway, p: nat) {
    && p in s.attempts && p in t.attempts && s.opening == [] && t.opening == []
    && t.attempts == s.attempts[p := t.attempts[p]] && t.canResolve == s.canResolve
    && t.idempotency == s.idempotency && t.made == s.made && t.providers == s.providers && t.registrations == s.registrations
    && t.attempts[p].envelope == s.attempts[p].envelope && t.attempts[p].plan == s.attempts[p].plan
    && (s.attempts[p].started ==> t.attempts[p].started)
    && (Hopeless(s.canResolve, s.attempts[p]) ==> Hopeless(t.canResolve, t.attempts[p]))
    && StageOk(t.canResolve, t.attempts[p]) && !s.attempts[p].handled && !t.attempts[p].handled
    && (if t.attempts[p].started && !s.attempts[p].started then t.invocations == s.invocations + [p]
        else t.invocations == s.invocations && t.attempts[p].started == s.attempts[p].started)
  }

  lemma AdvanceKeepsInv(s: Gateway, t: Gateway, p: nat)
    requires Inv(s) && Advances(s, t, p)
    ensures Inv(t)
  {
    assert AttemptOk(s, p);
    forall q ensures AttemptOk(t, q) { assert AttemptOk(s, q); }
    forall k ensures EntryOk(t, k) { assert EntryOk(s, k); }
    forall q ensures q in t.invocations <==> q in t.attempts && t.attempts[q].started {
      assert q in s.invocations <==> q in s.attempts && s.attempts[q].started;
    }
  }

  lemma HandlerKeepsInv(s: Gateway, p: nat)
    requires Inv(s) && Step(s, HandlerRuns(p)).Ok?
    ensures Inv(OnRejected(s, p))
  {
    var t := OnRejected(s, p);
    assert AttemptOk(s, p);
    forall q ensures AttemptOk(t, q) { assert AttemptOk(s, q); }
    forall k ensures EntryOk(t, k) { assert EntryOk(s, k); }
    forall q ensures q in t.invocations <==> q in t.attempts && t.attempts[q].started {
      assert q in s.invocations <==> q in s.attempts && s.attempts[q].started;
    }
  }

  lemma RejectAdvances(s: Gateway, p: nat, a: Attempt)
    requires s.opening == [] && p in s.attempts && StageOk(s.canResolve, a.(stage := Rejected)) && !s.attempts[p].handled
    requires a == s.attempts[p].(decision := a.decision, credential := a.credential)
    ensures Advances(s, Reject(s, p, a), p)
  {
  }

  lemma StartAdvances(s: Gateway, p: nat, a: Attempt)
    requires s.opening == [] && p in s.attempts && !s.attempts[p].handled && !a.started && !Hopeless(s.canResolve, s.attempts[p])
    requires Granted(a) && a.plan.Some? && (a.plan.value.binding.credential.Some? ==> a.credential.Some?)
    requires a == s.attempts[p].(decision := a.decision, credential := a.credential)
    ensures Advances(s, StartInvocation(s, p, a), p)
  {
  }

  lemma AuthorityAdvances(s: Gateway, p: nat, d: Option<Decision>)
    requires AttemptOk(s, p) && Waiting(s, p, Authorizing)
    ensures Advances(s, OnAuthority(s, p, d), p)
  {
    var a := s.attempts[p].(decision := d);
    if !Granted(a) || (a.plan.value.binding.credential.Some? && !s.canResolve) {
      RejectAdvances(s, p, a);
    } else if a.plan.value.binding.credential.None? {
      StartAdvances(s, p, a);
    }
  }

  lemma CredentialAdvances(s: Gateway, p: nat, c: Option<int>)
    requires AttemptOk(s, p) && Waiting(s, p, ResolvingCredential)
    ensures Advances(s, OnCredential(s, p, c), p)
  {
  }

  lemma InvocationAdvances(s: Gateway, p: nat, observed: bool)
    requires AttemptOk(s, p) && Waiting(s, p, Invoking)
    ensures Advances(s, OnInvocation(s, p, observed), p)
  {
  }

  predicate Settles(ev: Event) {
    ev.AuthoritySettled? || ev.CredentialSettled? || ev.InvocationSettled?
  }

  lemma SettleAdvances(s: Gateway, ev: Event)
    requires Inv(s) && Step(s, ev).Ok? && Settles(ev)
    ensures Advances(s, Step(s, ev).value, ev.attempt)
  {
    assert AttemptOk(s, ev.attempt);
    match ev
    case AuthoritySettled(p, d) => AuthorityAdvances(s, p, d);
    case CredentialSettled(p, c) => CredentialAdvances(s, p, c);
    case InvocationSettled(p, o) => InvocationAdvances(s, p, o);
  }

  lemma RegistryKeepsInv(s: Gateway, t: Gateway)
    requires Inv(s) && t == s.(providers := t.providers, bindings := t.bindings, registrations := t.registrations)
    ensures Inv(t)
  {
    forall q ensures AttemptOk(t, q) { assert AttemptOk(s, q); }
    forall k ensures EntryOk(t, k) { assert EntryOk(s, k); }
    forall i, j ensures OpenDistinct(t, i, j) { assert OpenDistinct(s, i, j); }
  }

  lemma StepKeepsInv(s: Gateway, ev: Event)
    requires Inv(s) && OrderlyStep(s, ev).Ok?
    ensures Inv(OrderlyStep(s, ev).value)
  {
    match ev
    case Begin(e) => BeginKeepsInv(s, e);
    case Store => StoreKeepsInv(s);
    case HandlerRuns(p) => HandlerKeepsInv(s, p);
    case Register(_, _, _) => RegistryKeepsInv(s, Step(s, ev).value);
    case Unregister(_) => RegistryKeepsInv(s, Step(s, ev).value);
    case Bind(_) => RegistryKeepsInv(s, Step(s, ev).value);
    case _ =>
      SettleAdvances(s, ev);
      AdvanceKeepsInv(s, Step(s, ev).value, ev.attempt);
  }

  lemma {:induction false} RunKeepsInv(s: Gateway, run: seq<Event>)
    requires Inv(s) && Run(OrderlyStep, s, run).Ok?
    ensures Inv(Run(OrderlyStep, s, run).value)
    decreases |run|
  {
    if run != [] {
      StepKeepsInv(s, run[0]);
      RunKeepsInv(OrderlyStep(s, run[0]).value, run[1..]);
    }
  }

  // ----- what callers may rely on -----

  lemma InvokedKeysDiffer(s: Gateway, i: nat, j: nat)
    requires Inv(s) && i < j < |s.invocations|
    ensures s.invocations[i] in s.attempts && s.invocations[j] in s.attempts
    ensures KeyOf(s.attempts[s.invocations[i]].envelope) != KeyOf(s.attempts[s.invocations[j]].envelope)
  {
    var p, q := s.invocations[i], s.invocations[j];
    assert p in s.invocations && q in s.invocations;
    assert AttemptOk(s, p) && AttemptOk(s, q);
  }

  /** Two invocations of the adapter never share a key, however the calls interleave. */
  lemma AtMostOncePerKey(contracts: map<int, Contract>, canResolve: bool, run: seq<Event>, i: nat, j: nat)
    requires Run(OrderlyStep, Initial(contracts, canResolve), run).Ok?
    requires var s := Run(OrderlyStep, Initial(contracts, canResolve), run).value; i < j < |s.invocations|
    ensures var s := Run(OrderlyStep, Initial(contracts, canResolve), run).value;
      && s.invocations[i] in s.attempts && s.invocations[j] in s.attempts
      && var e, f := s.attempts[s.invocations[i]].envelope, s.attempts[s.invocations[j]].envelope;
      e.workspace != f.workspace || e.idempotencyKey != f.idempotencyKey
  {
    InitialInv(contracts, canResolve);
    RunKeepsInv(Initial(contracts, canResolve), run);
    InvokedKeysDiffer(Run(OrderlyStep, Initial(contracts, canResolve), run).value, i, j);
  }

  /** Nothing reaches the adapter without the decision its envelope names and the credential its binding names. */
  lemma InvokedOnlyWhenGranted(contracts: map<int, Contract>, canResolve: bool, run: seq<Event>, p: nat)
    requires Run(OrderlyStep, Initial(contracts, canResolve), run).Ok?
    requires p in Run(OrderlyStep, Initial(contracts, canResolve), run).value.invocations
    ensures var s := Run(OrderlyStep, Initial(contracts, canResolve), run).value;
      && p in s.attempts && s.attempts[p].plan.Some? && s.attempts[p].decision.Some?
      && var a, d := s.attempts[p], s.attempts[p].decision.value;
      && d.allowed && d.id == a.envelope.authority && d.reasoned
      && (a.plan.value.binding.credential.Some? ==> a.credential.Some?)
  {
    var s := Run(OrderlyStep, Initial(contracts, canResolve), run).value;
    InitialInv(contracts, canResolve);
    RunKeepsInv(Initial(contracts, canResolve), run);
    assert AttemptOk(s, p);
  }

  /** The plan of a call is what its binding and its contract name, and the call stays within both. */
  predicate WithinBinding(s: Gateway, a: Attempt) {
    a.plan.Some? ==>
      var e, b, p := a.envelope, a.plan.value.binding, a.plan.value.provider;
      && e.binding in s.bindings && s.bindings[e.binding] == b
      && b.workspace == e.workspace && b.app == e.app && e.principal in b.principals && e.contract in b.contracts
      && p.id == b.provider && e.contract in p.contracts
      && e.contract in s.contracts
      && var c := s.contracts[e.contract];
      && c.kind == p.kind && c.capability == a.plan.value.capability
      && e.operation in c.operations && c.operations[e.operation] == e.effect && (e.effect == External ==> e.reconciled)
  }

  ghost predicate Scoped(s: Gateway) {
    && (forall id :: id in s.providers ==> s.providers[id].id == id)
    && (forall p :: p in s.attempts ==> p < s.made && WithinBinding(s, s.attempts[p]))
    && (forall p :: p in s.invocations ==> p in s.attempts && s.attempts[p].plan.Some?)
  }

  lemma BeginKeepsScoped(s: Gateway, e: Envelope)
    requires Scoped(s)
    ensures Scoped(BeginExecute(s, e)) && BeginExecute(s, e).contracts == s.contracts
  {
    NewAttemptBegun(s, e);
  }

  /** What a continuation leaves alone. */
  ghost predicate Continues(s: Gateway, t: Gateway, p: nat) {
    && p in s.attempts && s.attempts[p].plan.Some? && p in t.attempts && t.attempts == s.attempts[p := t.attempts[p]]
    && t.attempts[p].envelope == s.attempts[p].envelope && t.attempts[p].plan == s.attempts[p].plan
    && (t.invocations == s.invocations || t.invocations == s.invocations + [p])
    && t.contracts == s.contracts && t.bindings == s.bindings && t.providers == s.providers && t.made == s.made
  }

  lemma PutContinues(s: Gateway, p: nat, a: Attempt, more: seq<nat>)
    requires p in s.attempts && s.attempts[p].plan.Some? && a.envelope == s.attempts[p].envelope && a.plan == s.attempts[p].plan
    requires more == [] || more == [p]
    ensures Continues(s, s.(attempts := s.attempts[p := a], invocations := s.invocations + more), p)
  {
  }

  lemma AuthorityContinues(s: Gateway, p: nat, d: Option<Decision>)
    requires p in s.attempts && s.attempts[p].plan.Some?
    ensures Continues(s, OnAuthority(s, p, d), p)
  {
    var a, t := s.attempts[p].(decision := d), OnAuthority(s, p, d);
    var more := if Granted(a) && a.plan.value.binding.credential.None? then [p] else [];
    PutContinues(s, p, a.(stage := t.attempts[p].stage, started := t.attempts[p].started), more);
    assert s.invocations + [] == s.invocations;
  }

  lemma CredentialContinues(s: Gateway, p: nat, c: Option<int>)
    requires p in s.attempts && s.attempts[p].plan.Some?
    ensures Continues(s, OnCredential(s, p, c), p)
  {
  }

  lemma InvocationContinues(s: Gateway, p: nat, observed: bool)
    requires p in s.attempts && s.attempts[p].plan.Some?
    ensures Continues(s, OnInvocation(s, p, observed), p)
  {
  }

  lemma ContinuationKeepsScoped(s: Gateway, t: Gateway, p: nat)
    requires Scoped(s) && Continues(s, t, p)
    ensures Scoped(t)
  {
  }

  lemma HandlerKeepsScoped(s: Gateway, p: nat)
    requires Scoped(s) && p in s.attempts
    ensures Scoped(OnRejected(s, p)) && OnRejected(s, p).contracts == s.contracts
  {
  }

  lemma StoreKeepsScoped(s: Gateway)
    requires Scoped(s) && Step(s, Store).Ok?
    ensures Scoped(StoreEntry(s)) && StoreEntry(s).contracts == s.contracts
  {
  }

  lemma RegistryKeepsScoped(s: Gateway, ev: Event)
    requires Scoped(s) && (ev.Register? || ev.Unregister? || ev.Bind?)
    ensures Scoped(Step(s, ev).value) && Step(s, ev).value.contracts == s.contracts
  {
  }

  lemma StepKeepsScoped(s: Gateway, ev: Event)
    requires Scoped(s) && Step(s, ev).Ok?
    ensures Scoped(Step(s, ev).value) && Step(s, ev).value.contracts == s.contracts
  {
    match ev
    case Begin(e) => BeginKeepsScoped(s, e);
    case Store => StoreKeepsScoped(s);
    case HandlerRuns(p) => HandlerKeepsScoped(s, p);
    case AuthoritySettled(p, d) =>
      AuthorityContinues(s, p, d);
      ContinuationKeepsScoped(s, OnAuthority(s, p, d), p);
    case CredentialSettled(p, c) =>
      CredentialContinues(s, p, c);
      ContinuationKeepsScoped(s, OnCredential(s, p, c), p);
    case InvocationSettled(p, o) =>
      InvocationContinues(s, p, o);
      ContinuationKeepsScoped(s, OnInvocation(s, p, o), p);
    case _ => RegistryKeepsScoped(s, ev);
  }

  lemma {:induction false} RunKeepsScoped(s: Gateway, run: seq<Event>)
    requires Scoped(s) && Run(Step, s, run).Ok?
    ensures Scoped(Run(Step, s, run).value) && Run(Step, s, run).value.contracts == s.contracts
    decreases |run|
  {
    if run != [] {
      StepKeepsScoped(s, run[0]);
      RunKeepsScoped(Step(s, run[0]).value, run[1..]);
    }
  }

  /** However the calls interleave, even re-entering ones: nothing reaches the adapter from outside its binding. */
  lemma InvokedWithinBinding(contracts: map<int, Contract>, canResolve: bool, run: seq<Event>, p: nat)
    requires Run(Step, Initial(contracts, canResolve), run).Ok?
    requires p in Run(Step, Initial(contracts, canResolve), run).value.invocations
    ensures var s := Run(Step, Initial(contracts, canResolve), run).value;
      && p in s.attempts && s.attempts[p].plan.Some?
      && var e, plan := s.attempts[p].envelope, s.attempts[p].plan.value;
      && e.binding in s.bindings && plan.binding == s.bindings[e.binding]
      && e.workspace == plan.binding.workspace && e.app == plan.binding.app
      && e.principal in plan.binding.principals && e.contract in plan.binding.contracts
      && plan.provider.id == plan.binding.provider && e.contract in plan.provider.contracts
      && e.contract in contracts && plan.provider.kind == contracts[e.contract].kind
      && plan.capability == contracts[e.contract].capability
      && e.operation in contracts[e.contract].operations && contracts[e.contract].operations[e.operation] == e.effect
      && (e.effect == External ==> e.reconciled)
  {
    var s := Initial(contracts, canResolve);
    RunKeepsScoped(s, run);
  }

  /** `p` is the promise under its key and its adapter call has begun. */
  predicate Committed(s: Gateway, e: Envelope, p: nat) {
    p in s.attempts && s.attempts[p].envelope == e && s.attempts[p].started && Owns(s, p, s.attempts[p])
  }

  lemma StoreKeepsCommitted(s: Gateway, e: Envelope, p: nat)
    requires Inv(s) && Step(s, Store).Ok? && Committed(s, e, p)
    ensures Committed(StoreEntry(s), e, p)
  {
    assert AttemptOk(s, s.opening[|s.opening| - 1]);
  }

  lemma HandlerKeepsCommitted(s: Gateway, q: nat, e: Envelope, p: nat)
    requires q in s.attempts && Committed(s, e, p)
    ensures Committed(OnRejected(s, q), e, p)
  {
  }

  lemma AdvanceKeepsCommitted(s: Gateway, t: Gateway, q: nat, e: Envelope, p: nat)
    requires Advances(s, t, q) && Committed(s, e, p)
    ensures Committed(t, e, p)
  {
  }

  lemma StepKeepsCommitted(s: Gateway, ev: Event, e: Envelope, p: nat)
    requires Inv(s) && OrderlyStep(s, ev).Ok? && Committed(s, e, p)
    ensures Committed(OrderlyStep(s, ev).value, e, p)
  {
    if Settles(ev) {
      SettleAdvances(s, ev);
      AdvanceKeepsCommitted(s, Step(s, ev).value, ev.attempt, e, p);
    } else if ev.HandlerRuns? {
      HandlerKeepsCommitted(s, ev.attempt, e, p);
    } else if ev.Store? {
      StoreKeepsCommitted(s, e, p);
    } else {
      assert AttemptOk(s, p);
    }
  }

  /** From the invocation on, every call with the same envelope gets the same promise and every other one is refused. */
  lemma {:induction false} StartedIsForever(s: Gateway, run: seq<Event>, e: Envelope, p: nat, other: Envelope)
    requires Inv(s) && Run(OrderlyStep, s, run).Ok? && Committed(s, e, p) && KeyOf(other) == KeyOf(e)
    ensures var t := Run(OrderlyStep, s, run).value;
      && Committed(t, e, p)
      && AnswerTo(t, other) == (if other == e then Joined(p) else KeyReused)
      && Execute(t, other) == t
    decreases |run|
  {
    if run != [] {
      StepKeepsInv(s, run[0]);
      StepKeepsCommitted(s, run[0], e, p);
      StartedIsForever(OrderlyStep(s, run[0]).value, run[1..], e, p, other);
    }
  }

  /**
   An entry leaves the map only when its call was rejected before the adapter was called, and is replaced only
   while its adapter can no longer be called.
   */
  lemma RemovedOnlyBeforeInvocation(s: Gateway, ev: Event, k: Key)
    requires Inv(s) && OrderlyStep(s, ev).Ok? && k in s.idempotency
    ensures var t := OrderlyStep(s, ev).value; var p := s.idempotency[k].promise;
      && p in s.attempts
      && (k in t.idempotency && t.idempotency[k] != s.idempotency[k] ==> ev == Store && Hopeless(s.canResolve, s.attempts[p]))
      && (k !in t.idempotency <==> ev == HandlerRuns(p) && !s.attempts[p].started)
  {
    assert EntryOk(s, k);
    assert AttemptOk(s, s.made);
    if ev == Store { assert AttemptOk(s, s.opening[|s.opening| - 1]); }
    if ev.HandlerRuns? { assert AttemptOk(s, ev.attempt); }
  }

  lemma OpenedIsStored(s: Gateway, a: Attempt)
    ensures var t := StoreEntry(Opened(s, a));
      && KeyOf(a.envelope) in t.idempotency && t.idempotency[KeyOf(a.envelope)] == Entry(a.envelope, s.made)
  {
  }

  lemma ExecuteIsJoined(s: Gateway, e: Envelope)
    requires KeyOf(e) !in s.idempotency
    ensures AnswerTo(s, e) == Started(s.made) && AnswerTo(Execute(s, e), e) == Joined(s.made)
  {
    NewAttemptFresh(s, e);
    OpenedIsStored(s, NewAttempt(s, e));
  }

  lemma HandlerFrees(s: Gateway, p: nat)
    requires p in s.attempts && Owns(s, p, s.attempts[p]) && !s.attempts[p].started
    ensures KeyOf(s.attempts[p].envelope) !in OnRejected(s, p).idempotency
  {
  }

  /** A stored call that fails before the adapter is called frees its key; until then later calls join the rejection. */
  lemma FailureFreesKey(s: Gateway, e: Envelope, p: nat)
    requires Inv(s) && s.opening == [] && p in s.attempts && s.attempts[p].envelope == e && Owns(s, p, s.attempts[p])
    requires s.attempts[p].stage == Rejected && !s.attempts[p].started && !s.attempts[p].handled
    ensures AnswerTo(s, e) == Joined(p)
    ensures OrderlyStep(s, HandlerRuns(p)).Ok?
    ensures var t := OrderlyStep(s, HandlerRuns(p)).value;
      && KeyOf(e) !in t.idempotency
      && AnswerTo(t, e) == Started(t.made) && AnswerTo(Execute(t, e), e) == Joined(t.made)
  {
    HandlerFrees(s, p);
    ExecuteIsJoined(OnRejected(s, p), e);
  }

  /** A result is delivered exactly when the adapter observed one and its provider was not lost or replaced meanwhile. */
  lemma DeliveredOnlyByLiveProvider(s: Gateway, p: nat, observed: bool)
    requires Inv(s) && Waiting(s, p, Invoking)
    ensures OrderlyStep(s, InvocationSettled(p, observed)).Ok?
    ensures var t := OrderlyStep(s, InvocationSettled(p, observed)).value;
      var provider := s.attempts[p].plan.value.provider;
      && t.attempts[p].stage == (if observed && provider.id in s.providers && s.providers[provider.id] == provider
                                 then Fulfilled else Rejected)
      && AnswerTo(t, s.attempts[p].envelope) == Joined(p)
  {
    assert AttemptOk(s, p);
  }

  /** Registrations are told apart: one that was removed is never equal to a later one. */
  ghost predicate SerialsBelow(s: Gateway) {
    && (forall id :: id in s.providers ==> s.providers[id].id == id && s.providers[id].serial < s.registrations)
    && (forall p :: p in s.attempts && s.attempts[p].plan.Some? ==> s.attempts[p].plan.value.provider.serial < s.registrations)
  }

  lemma AdvanceKeepsSerials(s: Gateway, t: Gateway, p: nat)
    requires SerialsBelow(s) && Advances(s, t, p)
    ensures SerialsBelow(t)
  {
  }

  ghost predicate Lost(s: Gateway, provider: Provider) {
    provider.serial < s.registrations && forall id :: id in s.providers ==> s.providers[id] != provider
  }

  lemma BeginKeepsSerials(s: Gateway, e: Envelope)
    requires SerialsBelow(s)
    ensures SerialsBelow(BeginExecute(s, e))
  {
  }

  lemma StepKeepsSerials(s: Gateway, ev: Event)
    requires Inv(s) && SerialsBelow(s) && OrderlyStep(s, ev).Ok?
    ensures SerialsBelow(OrderlyStep(s, ev).value)
  {
    if Settles(ev) {
      SettleAdvances(s, ev);
      AdvanceKeepsSerials(s, Step(s, ev).value, ev.attempt);
    } else if ev.Begin? {
      BeginKeepsSerials(s, ev.envelope);
    }
  }

  lemma StepKeepsLost(s: Gateway, ev: Event, provider: Provider)
    requires Inv(s) && OrderlyStep(s, ev).Ok? && Lost(s, provider)
    ensures Lost(OrderlyStep(s, ev).value, provider)
  {
    if Settles(ev) { SettleAdvances(s, ev); }
  }

  lemma {:induction false} LostProviderStaysLost(s: Gateway, run: seq<Event>, provider: Provider)
    requires Inv(s) && SerialsBelow(s) && Run(OrderlyStep, s, run).Ok? && Lost(s, provider)
    ensures Lost(Run(OrderlyStep, s, run).value, provider)
    decreases |run|
  {
    if run != [] {
      StepKeepsInv(s, run[0]);
      StepKeepsSerials(s, run[0]);
      StepKeepsLost(s, run[0], provider);
      LostProviderStaysLost(OrderlyStep(s, run[0]).value, run[1..], provider);
    }
  }

  // ----- the exception: an evaluator that re-enters -----

  function Grant(e: Envelope): Option<Decision> {
    Some(Decision(true, e.authority, true))
  }

  /** Some orderly run leads from `s` to `t`. */
  ghost predicate Reaches(s: Gateway, t: Gateway) {
    exists run :: Run(OrderlyStep, s, run) == Ok(t)
  }

  lemma ReachesItself(s: Gateway)
    ensures Reaches(s, s)
  {
    assert Run(OrderlyStep, s, []) == Ok(s);
  }

  lemma ReachesByStep(s: Gateway, ev: Event, t: Gateway)
    requires OrderlyStep(s, ev) == Ok(t)
    ensures Reaches(s, t)
  {
    RunOne(OrderlyStep, s, ev);
    assert Run(OrderlyStep, s, [ev]) == Ok(t);
  }

  lemma ReachesThrough(s: Gateway, t: Gateway, u: Gateway)
    requires Reaches(s, t) && Reaches(t, u)
    ensures Reaches(s, u)
  {
    var a :| Run(OrderlyStep, s, a) == Ok(t);
    var b :| Run(OrderlyStep, t, b) == Ok(u);
    RunAppend(OrderlyStep, s, a, b);
    assert Run(OrderlyStep, s, a + b) == Ok(u);
  }

  /** An attempt the evaluator has yet to decide, and may let through. */
  predicate Undecided(s: Gateway, p: nat) {
    p in s.attempts && s.attempts[p].stage == Authorizing && s.attempts[p].plan.Some? && !s.attempts[p].started &&
    !Hopeless(s.canResolve, s.attempts[p])
  }

  /** The calls above the `m` outermost return. */
  lemma {:induction false} Unwind(s: Gateway, m: nat, k: Key) returns (t: Gateway)
    requires m <= |s.opening| && forall i :: 0 <= i < |s.opening| ==> s.opening[i] in s.attempts
    ensures Reaches(s, t) && t == s.(idempotency := t.idempotency, opening := s.opening[..m])
    ensures (forall i :: m <= i < |s.opening| ==> !Opens(s, s.opening[i], k)) && k in s.idempotency ==>
              k in t.idempotency && t.idempotency[k] == s.idempotency[k]
    decreases |s.opening|
  {
    t := s;
    ReachesItself(s);
    if m < |s.opening| {
      var n := |s.opening| - 1;
      var u := StoreEntry(s);
      ReachesByStep(s, Store, u);
      t := Unwind(u, m, k);
      ReachesThrough(s, u, t);
      assert u.opening[..m] == s.opening[..m];
      if (forall i :: m <= i < |s.opening| ==> !Opens(s, s.opening[i], k)) && k in s.idempotency {
        assert !Opens(s, s.opening[n], k);
        forall i | m <= i < |u.opening| ensures !Opens(u, u.opening[i], k) { assert !Opens(s, s.opening[i], k); }
      }
    }
  }

  /** The outermost call with the key: it is stored last. */
  lemma {:induction false} Outermost(s: Gateway, k: Key, i: nat) returns (j: nat)
    requires i < |s.opening| && Opens(s, s.opening[i], k)
    ensures j <= i && Opens(s, s.opening[j], k) && forall l :: 0 <= l < j ==> !Opens(s, s.opening[l], k)
    decreases i
  {
    j := i;
    if exists l :: 0 <= l < i && Opens(s, s.opening[l], k) {
      var l :| 0 <= l < i && Opens(s, s.opening[l], k);
      j := Outermost(s, k, l);
    }
  }

  lemma UnwindAll(s: Gateway, k: Key, i: nat) returns (t: Gateway, j: nat)
    requires forall i :: 0 <= i < |s.opening| ==> s.opening[i] in s.attempts
    requires i < |s.opening| && Opens(s, s.opening[i], k)
    ensures Reaches(s, t) && t == s.(idempotency := t.idempotency, opening := [])
    ensures j <= i && Opens(s, s.opening[j], k) && k in t.idempotency && t.idempotency[k].promise == s.opening[j]
  {
    j := Outermost(s, k, i);
    var u := Unwind(s, j + 1, k);
    assert u.opening[|u.opening| - 1] == s.opening[j];
    var v := StoreEntry(u);
    ReachesByStep(u, Store, v);
    forall l | 0 <= l < |v.opening| ensures !Opens(v, v.opening[l], k) { assert !Opens(s, s.opening[l], k); }
    t := Unwind(v, 0, k);
    ReachesThrough(s, u, v);
    ReachesThrough(s, v, t);
  }

  /** Nothing but the attempt `p` and the list of invocations changes. */
  ghost predicate OnlyAttempt(s: Gateway, t: Gateway, p: nat) {
    && p in s.attempts && p in t.attempts
    && t == s.(attempts := s.attempts[p := t.attempts[p]], invocations := t.invocations)
    && t.attempts[p].envelope == s.attempts[p].envelope
  }

  lemma InvokesNow(s: Gateway, p: nat) returns (t: Gateway)
    requires s.opening == [] && Undecided(s, p) && s.attempts[p].plan.value.binding.credential.None?
    ensures Reaches(s, t) && OnlyAttempt(s, t, p) && t.invocations == s.invocations + [p]
  {
    var grant := Grant(s.attempts[p].envelope);
    t := OnAuthority(s, p, grant);
    ReachesByStep(s, AuthoritySettled(p, grant), t);
  }

  lemma AsksCredential(s: Gateway, p: nat) returns (t: Gateway)
    requires s.opening == [] && Undecided(s, p) && s.attempts[p].plan.value.binding.credential.Some?
    ensures Reaches(s, t) && OnlyAttempt(s, t, p) && t.invocations == s.invocations
    ensures Waiting(t, p, ResolvingCredential)
  {
    var grant := Grant(s.attempts[p].envelope);
    t := OnAuthority(s, p, grant);
    ReachesByStep(s, AuthoritySettled(p, grant), t);
  }

  lemma GetsCredential(s: Gateway, p: nat) returns (t: Gateway)
    requires Waiting(s, p, ResolvingCredential)
    ensures Reaches(s, t) && OnlyAttempt(s, t, p) && t.invocations == s.invocations + [p]
  {
    t := OnCredential(s, p, Some(0));
    ReachesByStep(s, CredentialSettled(p, Some(0)), t);
  }

  lemma Invokes(s: Gateway, p: nat) returns (t: Gateway)
    requires s.opening == [] && Undecided(s, p)
    ensures Reaches(s, t) && OnlyAttempt(s, t, p) && t.invocations == s.invocations + [p]
  {
    if s.attempts[p].plan.value.binding.credential.None? {
      t := InvokesNow(s, p);
    } else {
      var u := AsksCredential(s, p);
      t := GetsCredential(u, p);
      ReachesThrough(s, u, t);
    }
  }

  lemma Frees(s: Gateway, p: nat, k: Key) returns (t: Gateway)
    requires s.opening == [] && p in s.attempts && s.attempts[p].stage == Authorizing && s.attempts[p].plan.Some?
    requires !s.attempts[p].started && !s.attempts[p].handled && KeyOf(s.attempts[p].envelope) == k
    requires k in s.idempotency && s.idempotency[k].promise == p
    ensures Reaches(s, t) && k !in t.idempotency
    ensures p in t.attempts && t == s.(attempts := s.attempts[p := t.attempts[p]], idempotency := t.idempotency)
    ensures t.attempts[p].envelope == s.attempts[p].envelope
  {
    var u := OnAuthority(s, p, None);
    ReachesByStep(s, AuthoritySettled(p, None), u);
    t := OnRejected(u, p);
    ReachesByStep(u, HandlerRuns(p), t);
    ReachesThrough(s, u, t);
  }

  lemma StartsAgain(s: Gateway, e: Envelope) returns (t: Gateway)
    requires s.opening == [] && KeyOf(e) !in s.idempotency && !Hopeless(s.canResolve, NewAttempt(s, e))
    ensures Reaches(s, t) && t.opening == [] && t.attempts == s.attempts[s.made := NewAttempt(s, e)]
    ensures Undecided(t, s.made) && t.invocations == s.invocations
  {
    var u := BeginExecute(s, e);
    ReachesByStep(s, Begin(e), u);
    t := StoreEntry(u);
    ReachesByStep(u, Store, t);
    ReachesThrough(s, u, t);
  }

  ghost predicate InvokedTwice(s: Gateway, k: Key) {
    exists i, j :: 0 <= i < j < |s.invocations| && Opens(s, s.invocations[i], k) && Opens(s, s.invocations[j], k)
  }

  lemma NewAttemptFollows(s: Gateway, t: Gateway, e: Envelope)
    requires t.contracts == s.contracts && t.bindings == s.bindings && t.providers == s.providers
    ensures NewAttempt(t, e) == NewAttempt(s, e)
  {
  }

  ghost predicate SameRegistry(s: Gateway, t: Gateway) {
    && t.contracts == s.contracts && t.canResolve == s.canResolve && t.providers == s.providers && t.bindings == s.bindings
    && t.made == s.made
  }

  /** The inner call `q` is let through; the outer one `r`, stored last, is refused and frees the key. */
  lemma InvokesThenFrees(s: Gateway, q: nat, r: nat, k: Key) returns (t: Gateway)
    requires s.opening == [] && Undecided(s, q) && Opens(s, q, k) && q != r && Opens(s, r, k)
    requires s.attempts[r].stage == Authorizing && s.attempts[r].plan.Some? && !s.attempts[r].started && !s.attempts[r].handled
    requires k in s.idempotency && s.idempotency[k].promise == r
    ensures Reaches(s, t) && t.opening == [] && k !in t.idempotency && t.invocations == s.invocations + [q]
    ensures SameRegistry(s, t) && Opens(t, q, k)
  {
    var u := Invokes(s, q);
    t := Frees(u, r, k);
    ReachesThrough(s, u, t);
  }

  /** A third call is let through as well. */
  lemma InvokesAgain(s: Gateway, f: Envelope, q: nat) returns (t: Gateway)
    requires s.opening == [] && KeyOf(f) !in s.idempotency && !Hopeless(s.canResolve, NewAttempt(s, f))
    requires Opens(s, q, KeyOf(f)) && q < s.made
    ensures Reaches(s, t) && t.invocations == s.invocations + [s.made]
    ensures Opens(t, q, KeyOf(f)) && Opens(t, s.made, KeyOf(f))
  {
    NewAttemptFresh(s, f);
    var u := StartsAgain(s, f);
    t := Invokes(u, s.made);
    ReachesThrough(s, u, t);
  }

  lemma OpenedUnwinds(s: Gateway, a: Attempt) returns (t: Gateway, r: nat)
    requires Inv(s) && CanBegin(s) && exists i :: 0 <= i < |s.opening| && Opens(s, s.opening[i], KeyOf(a.envelope))
    ensures Reaches(Opened(s, a), t) && t == Opened(s, a).(idempotency := t.idempotency, opening := [])
    ensures r < s.made && Opens(t, r, KeyOf(a.envelope))
    ensures t.attempts[r].stage == Authorizing && t.attempts[r].plan.Some? && !t.attempts[r].started && !t.attempts[r].handled
    ensures KeyOf(a.envelope) in t.idempotency && t.idempotency[KeyOf(a.envelope)].promise == r
  {
    var k, s0 := KeyOf(a.envelope), Opened(s, a);
    var i :| 0 <= i < |s.opening| && Opens(s, s.opening[i], k);
    OpenIsAuthorizing(s, i);
    var j;
    t, j := UnwindAll(s0, k, i);
    OpenIsAuthorizing(s, j);
    r := s.opening[j];
  }

  lemma OpenedInvokesTwice(s: Gateway, f: Envelope, a: Attempt) returns (t: Gateway)
    requires Inv(s) && CanBegin(s) && a == NewAttempt(s, f) && a.envelope == f && Fresh(s.canResolve, a)
    requires !Hopeless(s.canResolve, a) && exists i :: 0 <= i < |s.opening| && Opens(s, s.opening[i], KeyOf(f))
    ensures Reaches(Opened(s, a), t) && InvokedTwice(t, KeyOf(f))
  {
    var s1, r := OpenedUnwinds(s, a);
    var s2 := InvokesThenFrees(s1, s.made, r, KeyOf(f));
    NewAttemptFollows(s, s2, f);
    t := InvokesAgain(s2, f, s.made);
    ReachesThrough(Opened(s, a), s1, s2);
    ReachesThrough(Opened(s, a), s2, t);
    var n := |s.invocations|;
    assert t.invocations[n] == s.made && t.invocations[n + 1] == s.made + 1;
  }

  lemma ReenteringInvokesTwice(s: Gateway, f: Envelope) returns (t: Gateway)
    requires Inv(s) && CanBegin(s) && Reenters(s, Begin(f))
    ensures Reaches(BeginExecute(s, f), t) && InvokedTwice(t, KeyOf(f))
  {
    NewAttemptFresh(s, f);
    t := OpenedInvokesTwice(s, f, NewAttempt(s, f));
  }

  lemma InvokedOnce(s: Gateway, k: Key)
    requires Inv(s)
    ensures !InvokedTwice(s, k)
  {
    forall i, j | 0 <= i < j < |s.invocations| && Opens(s, s.invocations[i], k) && Opens(s, s.invocations[j], k) ensures false {
      InvokedKeysDiffer(s, i, j);
    }
  }

  /**
   The exact condition: a call made by the evaluator can get the adapter called twice for its key if and only if
   a call with the key is being decided, no entry is stored under it yet, and the new call is not hopeless.
   */
  lemma ReentranceIff(s: Gateway, f: Envelope)
    requires Inv(s) && CanBegin(s)
    ensures Reenters(s, Begin(f)) <==> exists t :: Reaches(BeginExecute(s, f), t) && InvokedTwice(t, KeyOf(f))
  {
    if Reenters(s, Begin(f)) {
      var t := ReenteringInvokesTwice(s, f);
    } else {
      BeginKeepsInv(s, f);
      forall t | Reaches(BeginExecute(s, f), t) ensures !InvokedTwice(t, KeyOf(f)) {
        var run :| Run(OrderlyStep, BeginExecute(s, f), run) == Ok(t);
        RunKeepsInv(BeginExecute(s, f), run);
        InvokedOnce(t, KeyOf(f));
      }
    }
  }

  /** A call that passes the first checks and can get the credential its binding names, if any. */
  predicate Viable(s: Gateway, f: Envelope) {
    Prepare(s, f).Ok? && (Prepare(s, f).value.binding.credential.None? || s.canResolve)
  }

  lemma ViableIsNotHopeless(s: Gateway, f: Envelope)
    ensures Viable(s, f) <==> !Hopeless(s.canResolve, NewAttempt(s, f))
  {
  }

  /** In particular for a second envelope with the key of the first, whatever else differs and with or without a credential. */
  lemma ReentrantEvaluatorInvokesTwice(s: Gateway, e: Envelope, f: Envelope)
    requires Inv(s) && s.opening == [] && KeyOf(e) == KeyOf(f) && KeyOf(f) !in s.idempotency && Prepare(s, e).Ok?
    ensures var s1 := BeginExecute(s, e);
      && CanBegin(s1)
      && ((exists t :: Reaches(BeginExecute(s1, f), t) && InvokedTwice(t, KeyOf(f))) <==> Viable(s, f))
  {
    var s1 := BeginExecute(s, e);
    NewAttemptFresh(s, e);
    BeginKeepsInv(s, e);
    assert s1.opening[0] == s.made && Opens(s1, s.made, KeyOf(f));
    NewAttemptFollows(s, s1, f);
    ViableIsNotHopeless(s, f);
    ReentranceIff(s1, f);
  }

  // ----- the gateway object -----

  class ProviderGateway {
    const contracts: map<int, Contract>
    const canResolve: bool
    var providers: map<int, Provider>
    var bindings: map<int, Binding>
    var idempotency: map<Key, Entry>
    /** The promises made so far, with the state of the async function behind each. */
    var attempts: map<nat, Attempt>
    var made: nat
    var opening: seq<nat>
    var registrations: nat
    var invocations: seq<nat>

    function State(): Gateway
      reads this
    {
      Gateway(contracts, canResolve, providers, bindings, idempotency, attempts, made, opening, registrations, invocations)
    }

    constructor (contracts: map<int, Contract>, canResolve: bool)
      ensures State() == Initial(contracts, canResolve) && Inv(State())
    {
      this.contracts, this.canResolve := contracts, canResolve;
      providers, bindings, idempotency, attempts := map[], map[], map[], map[];
      made, opening, registrations, invocations := 0, [], 0, [];
    }

    method Register(id: int, kind: int, offered: seq<int>) returns (thrown: Option<GatewayError>)
      modifies this
      ensures match RegisterProvider(old(State()), id, kind, offered)
        case Ok(t) => thrown == None && State() == t
        case Err(e) => thrown == Some(e) && State() == old(State())
      ensures thrown == None <==>
        id !in old(providers) && forall contract :: contract in offered ==> contract in contracts && contracts[contract].kind == kind
      ensures thrown == None ==> providers == old(providers)[id := Provider(id, kind, offered, old(registrations))]
    {
      RegisterProviderIff(State(), id, kind, offered);
      if id in providers { return Some(DuplicateProvider(id)); }
      assert offered[0..] == offered;
      for i := 0 to |offered|
        invariant State() == old(State())
        invariant ContractProblem(State(), kind, offered) == ContractProblem(State(), kind, offered[i..])
      {
        var contract := offered[i];
        assert offered[i..][1..] == offered[i + 1..];
        if contract !in contracts { return Some(UnknownContract(contract)); }
        if contracts[contract].kind != kind { return Some(KindMismatch(contract)); }
      }
      providers := providers[id := Provider(id, kind, offered, registrations)];
      registrations := registrations + 1;
      return None;
    }

    method Unregister(id: int) returns (thrown: Option<GatewayError>)
      modifies this
      ensures match UnregisterProvider(old(State()), id)
        case Ok(t) => thrown == None && State() == t
        case Err(e) => thrown == Some(e) && State() == old(State())
      ensures thrown == None <==> id in old(providers)
      ensures providers == old(providers) - {id}
    {
      if id !in providers { return Some(ProviderUnavailable(id)); }
      providers := providers - {id};
      return None;
    }

    method Bind(binding: Binding) returns (thrown: Option<GatewayError>)
      modifies this
      ensures match BindProvider(old(State()), binding)
        case Ok(t) => thrown == None && State() == t
        case Err(e) => thrown == Some(e) && State() == old(State())
      ensures thrown == None <==>
        && binding.id !in old(bindings) && binding.provider in providers
        && forall contract :: contract in binding.contracts ==> contract in providers[binding.provider].contracts
      ensures bindings == if thrown == None then old(bindings)[binding.id := binding] else old(bindings)
    {
      BindProviderIff(State(), binding);
      if binding.id in bindings { return Some(DuplicateBinding(binding.id)); }
      if binding.provider !in providers { return Some(ProviderUnavailable(binding.provider)); }
      var offered := providers[binding.provider].contracts;
      assert binding.contracts[0..] == binding.contracts;
      for i := 0 to |binding.contracts|
        invariant State() == old(State())
        invariant Missing(offered, binding.contracts) == Missing(offered, binding.contracts[i..])
      {
        assert binding.contracts[i..][1..] == binding.contracts[i + 1..];
        if binding.contracts[i] !in offered { return Some(NotImplemented(binding.contracts[i])); }
      }
      bindings := bindings[binding.id := binding];
      return None;
    }

    /** `execute` up to and including the synchronous part of the async call. */
    method BeginCall(e: Envelope) returns (answer: Answer)
      modifies this
      ensures answer == AnswerTo(old(State()), e) && State() == BeginExecute(old(State()), e)
      ensures var key := Key(e.workspace, e.idempotencyKey);
        if key in old(idempotency) then
          && State() == old(State())
          && answer == if old(idempotency)[key].fingerprint == e then Joined(old(idempotency)[key].promise) else KeyReused
        else
          && answer == Started(old(made)) && made == old(made) + 1 && opening == old(opening) + [old(made)]
          && old(made) in attempts && attempts == old(attempts)[old(made) := attempts[old(made)]]
          && Begun(old(State()), e, attempts[old(made)])
    {
      NewAttemptBegun(State(), e);
      var key := KeyOf(e);
      if key in idempotency {
        var existing := idempotency[key];
        if existing.fingerprint != e { return KeyReused; }
        return Joined(existing.promise);
      }
      var attempt := NewAttempt(State(), e);
      answer := Started(made);
      attempts := attempts[made := attempt];
      opening := opening + [made];
      made := made + 1;
    }

    method StorePromise()
      requires opening != [] && opening[|opening| - 1] in attempts
      modifies this
      ensures State() == StoreEntry(old(State()))
    {
      var promise := opening[|opening| - 1];
      var e := attempts[promise].envelope;
      idempotency := idempotency[KeyOf(e) := Entry(e, promise)];
      opening := opening[..|opening| - 1];
    }

    /** The whole of `execute` when the authority evaluator does not call back. */
    method ExecuteCall(e: Envelope) returns (answer: Answer)
      modifies this
      ensures answer == AnswerTo(old(State()), e) && State() == Execute(old(State()), e)
      ensures var key := Key(e.workspace, e.idempotencyKey);
        if key in old(idempotency) then
          && State() == old(State())
          && answer == if old(idempotency)[key].fingerprint == e then Joined(old(idempotency)[key].promise) else KeyReused
        else
          && answer == Started(old(made)) && opening == old(opening)
          && old(made) in attempts && attempts == old(attempts)[old(made) := attempts[old(made)]]
          && Begun(old(State()), e, attempts[old(made)])
          && idempotency == old(idempotency)[key := Entry(e, old(made))]
      ensures old(Inv(State())) && old(opening) == [] ==> Inv(State())
    {
      ghost var before := State();
      answer := BeginCall(e);
      if answer.Started? { StorePromise(); }
      if Inv(before) && before.opening == [] { ExecuteKeepsInv(before, e); }
    }

    method AuthorityDecided(p: nat, decision: Option<Decision>)
      requires Waiting(State(), p, Authorizing)
      modifies this
      ensures State() == OnAuthority(old(State()), p, decision)
      ensures var a := old(attempts)[p];
        var granted := decision.Some? && decision.value.allowed && decision.value.id == a.envelope.authority && decision.value.reasoned;
        var named := a.plan.value.binding.credential.Some?;
        && p in attempts && attempts == old(attempts)[p := attempts[p]]
        && (attempts[p].stage == Invoking <==> granted && !named)
        && (attempts[p].stage == ResolvingCredential <==> granted && named && canResolve)
        && (attempts[p].stage == Rejected <==> !granted || (named && !canResolve))
        && invocations == old(invocations) + (if granted && !named then [p] else [])
    {
      var a := attempts[p].(decision := decision);
      if !Granted(a) {
        attempts := attempts[p := a.(stage := Rejected)];
      } else if a.plan.value.binding.credential.None? {
        Invoke(p, a);
      } else if !canResolve {
        attempts := attempts[p := a.(stage := Rejected)];
      } else {
        attempts := attempts[p := a.(stage := ResolvingCredential)];
      }
    }

    /** Marks the attempt before the adapter is called. */
    method Invoke(p: nat, a: Attempt)
      modifies this
      ensures State() == StartInvocation(old(State()), p, a)
    {
      attempts := attempts[p := a.(stage := Invoking, started := true)];
      invocations := invocations + [p];
    }

    method CredentialResolved(p: nat, credential: Option<int>)
      requires Waiting(State(), p, ResolvingCredential)
      modifies this
      ensures State() == OnCredential(old(State()), p, credential)
      ensures p in attempts && attempts == old(attempts)[p := attempts[p]]
      ensures attempts[p].stage == if credential.Some? then Invoking else Rejected
      ensures invocations == old(invocations) + if credential.Some? then [p] else []
    {
      var a := attempts[p].(credential := credential);
      if credential.None? {
        attempts := attempts[p := a.(stage := Rejected)];
      } else {
        Invoke(p, a);
      }
    }

    method AdapterSettled(p: nat, observed: bool)
      requires Waiting(State(), p, Invoking)
      modifies this
      ensures State() == OnInvocation(old(State()), p, observed)
      ensures p in attempts && attempts == old(attempts)[p := attempts[p]] && invocations == old(invocations)
      ensures attempts[p].stage == Fulfilled <==>
        var provider := old(attempts)[p].plan.value.provider;
        observed && provider.id in providers && providers[provider.id] == provider
      ensures attempts[p].stage == Fulfilled || attempts[p].stage == Rejected
    {
      var a := attempts[p];
      var provider := a.plan.value.provider;
      var delivered := observed && provider.id in providers && providers[provider.id] == provider;
      attempts := attempts[p := a.(stage := if delivered then Fulfilled else Rejected)];
    }

    /** The catch handler of `execute`. */
    method CatchRejection(p: nat)
      requires Waiting(State(), p, Rejected)
      modifies this
      ensures State() == OnRejected(old(State()), p)
      ensures forall key :: key in old(idempotency) && key !in idempotency <==>
        && key in old(idempotency) && old(idempotency)[key].promise == p && !old(attempts)[p].started
        && key.workspace == old(attempts)[p].envelope.workspace && key.idempotencyKey == old(attempts)[p].envelope.idempotencyKey
      ensures forall key :: key in idempotency ==> key in old(idempotency) && idempotency[key] == old(idempotency)[key]
    {
      var a := attempts[p];
      var key := KeyOf(a.envelope);
      attempts := attempts[p := a.(handled := true)];
      if !a.started && key in idempotency && idempotency[key].promise == p {
        idempotency := idempotency - {key};
      }
    }
  }
}
