/**
 packages/effects: the gate between executing an action and committing what it means. One aggregate is the
 record of one manifest; every record method appends to it and to its journal, and `decide` may commit.
 */
module Effects {
  import opened Wrappers
  import opened Collections

  datatype EffectClass = Runtime | Semantic | External

  datatype Effect = Effect(id: int, class': EffectClass)

  datatype Contract = Contract(
    requiredEvidence: seq<int>, independent: bool, maximumCost: real, currency: int, maximumAttempts: int)

  datatype Manifest = Manifest(id: int, effects: seq<Effect>, authorized: bool, contract: Contract)

  datatype Receipt = Receipt(id: int, provider: int, succeeded: bool)

  datatype Observation = Observation(id: int, effect: int)

  datatype ReconciliationStatus = Confirmed | Diverged | Uncertain

  datatype Reconciliation = Reconciliation(id: int, effect: int, observation: int, status: ReconciliationStatus)

  datatype VerificationStatus = Verified | NotVerified | Inconclusive

  /**
   `verifier` is the verifier id as it is stored, trimmed; `padded` says that it was given with blanks around
   it. The code does not store that: once the verification is recorded it is history.
   */
  datatype Verification = Verification(
    id: int, verifier: int, padded: bool, status: VerificationStatus, independent: bool, evidence: seq<int>, attempt: int,
    cost: real, currency: int, stopConditionMet: bool)

  datatype Reason =
    | AlreadyCommitted | NotAuthorized | NotSucceeded
    | MissingObservation(effect: int) | MissingReconciliation(effect: int) | DivergedEffect(effect: int)
    | UncertainExternal(effect: int) | UncertainEffect(effect: int) | MissingEvidence(evidence: int)
    | BudgetExceeded | NotPassed | IndependenceRequired | AttemptsExceeded | StopConditionNotMet | EvidenceIncomplete
    | MissingVerification

  datatype Outcome = Outcome(id: int, accepted: bool, reasons: set<Reason>, reviewRequired: bool, verification: Option<int>)

  datatype Commit = Commit(id: int, outcome: int, verification: int, evidence: set<int>, semanticEffects: seq<int>)

  datatype Kind =
    | IntentRecorded | PlanRecorded | ManifestCreated | ReceiptRecorded | EffectObserved | EffectReconciled
    | EvidenceAttached | VerificationRecorded | CompensationRecorded | OutcomeRejected | OutcomeAccepted | Committed

  datatype Entry = Entry(kind: Kind, sequence: nat, record: int)

  datatype Aggregate = Aggregate(
    manifest: Manifest, receipt: Option<Receipt>, observations: seq<Observation>, reconciliations: seq<Reconciliation>,
    evidence: seq<int>, verifications: seq<Verification>, compensations: seq<int>, outcomes: seq<Outcome>,
    commits: seq<Commit>, journal: seq<Entry>)

  datatype EffectError =
    | BlockedManifest | ReceiptExists | UnknownEffect(effect: int) | ClassMismatch | ObservationMismatch
    | DuplicateRecord(id: int) | InvalidAttempt | InvalidCost | NotExternal | MalformedCommitId | DuplicateEffect(effect: int)

  // ----- creating a manifest -----

  function Journaled(journal: seq<Entry>, kind: Kind, record: int): seq<Entry> {
    journal + [Entry(kind, |journal| + 1, record)]
  }

  predicate DistinctEffects(effects: seq<Effect>) {
    forall i, j :: 0 <= i < j < |effects| ==> effects[i].id != effects[j].id
  }

  /** The four control decisions together authorise the manifest. */
  function Create(id: int, intent: int, plan: int, effects: seq<Effect>, allowed: (bool, bool, bool, bool), contract: Contract): Aggregate {
    var manifest := Manifest(id, effects, allowed.0 && allowed.1 && allowed.2 && allowed.3, contract);
    Aggregate(manifest, None, [], [], [], [], [], [], [],
      Journaled(Journaled(Journaled([], IntentRecorded, intent), PlanRecorded, plan), ManifestCreated, id))
  }

  /** A new aggregate: authorised if and only if all four decisions allow it, with nothing recorded but its origin. */
  predicate Fresh(a: Aggregate, id: int, intent: int, plan: int, effects: seq<Effect>, allowed: (bool, bool, bool, bool), contract: Contract) {
    && (a.manifest.authorized <==> allowed == (true, true, true, true))
    && a.manifest.id == id && a.manifest.effects == effects && a.manifest.contract == contract
    && a.receipt == None && a.observations == [] && a.reconciliations == [] && a.evidence == [] && a.verifications == []
    && a.compensations == [] && a.outcomes == [] && a.commits == []
    && a.journal == [Entry(IntentRecorded, 1, intent), Entry(PlanRecorded, 2, plan), Entry(ManifestCreated, 3, id)]
  }

  lemma CreatedFresh(id: int, intent: int, plan: int, effects: seq<Effect>, allowed: (bool, bool, bool, bool), contract: Contract)
    ensures Fresh(Create(id, intent, plan, effects, allowed, contract), id, intent, plan, effects, allowed, contract)
  {
  }

  // ----- recording -----

  function FindEffect(effects: seq<Effect>, id: int): Option<Effect> {
    if effects == [] then None else if effects[0].id == id then Some(effects[0]) else FindEffect(effects[1..], id)
  }

  function FindObservation(observations: seq<Observation>, id: int): Option<Observation> {
    if observations == [] then None
    else if observations[0].id == id then Some(observations[0]) else FindObservation(observations[1..], id)
  }

  datatype Event =
    | RecordReceipt(receipt: Receipt)
    | ObserveEffect(observation: Observation, class': EffectClass)
    | Reconcile(reconciliation: Reconciliation)
    | AttachEvidence(id: int)
    | RecordVerification(verification: Verification)
    | RecordCompensation(id: int, effect: int)
    | Decide(outcome: int, commit: Option<int>)

  function OnReceipt(a: Aggregate, r: Receipt): Result<Aggregate, EffectError> {
    if !a.manifest.authorized then Err(BlockedManifest)
    else if a.receipt.Some? then Err(ReceiptExists)
    else Ok(a.(receipt := Some(r), journal := Journaled(a.journal, ReceiptRecorded, r.id)))
  }

  function OnObservation(a: Aggregate, o: Observation, class': EffectClass): Result<Aggregate, EffectError> {
    match FindEffect(a.manifest.effects, o.effect)
    case None => Err(UnknownEffect(o.effect))
    case Some(e) =>
      if e.class' != class' then Err(ClassMismatch)
      else if exists i :: 0 <= i < |a.observations| && a.observations[i].id == o.id then Err(DuplicateRecord(o.id))
      else Ok(a.(observations := a.observations + [o], journal := Journaled(a.journal, EffectObserved, o.id)))
  }

  function OnReconciliation(a: Aggregate, r: Reconciliation): Result<Aggregate, EffectError> {
    if FindEffect(a.manifest.effects, r.effect).None? then Err(UnknownEffect(r.effect))
    else
      var o := FindObservation(a.observations, r.observation);
      if o.None? || o.value.effect != r.effect then Err(ObservationMismatch)
      else if exists i :: 0 <= i < |a.reconciliations| && a.reconciliations[i].id == r.id then Err(DuplicateRecord(r.id))
      else Ok(a.(reconciliations := a.reconciliations + [r], journal := Journaled(a.journal, EffectReconciled, r.id)))
  }

  function OnEvidence(a: Aggregate, id: int): Result<Aggregate, EffectError> {
    if id in a.evidence then Err(DuplicateRecord(id))
    else Ok(a.(evidence := a.evidence + [id], journal := Journaled(a.journal, EvidenceAttached, id)))
  }

  /** The provider id stored with the receipt, which is trimmed, differs from the verifier id as it was given. */
  predicate Differs(r: Receipt, v: Verification) {
    v.padded || r.provider != v.verifier
  }

  /** A claim of independence stands only if a receipt exists and differs. */
  function Checked(a: Aggregate, v: Verification): Verification {
    v.(independent := v.independent && a.receipt.Some? && Differs(a.receipt.value, v))
  }

  function OnVerification(a: Aggregate, v: Verification): Result<Aggregate, EffectError> {
    if v.attempt < 1 then Err(InvalidAttempt)
    else if v.cost < 0.0 then Err(InvalidCost)
    else if exists i :: 0 <= i < |a.verifications| && a.verifications[i].id == v.id then Err(DuplicateRecord(v.id))
    else Ok(a.(verifications := a.verifications + [Checked(a, v)], journal := Journaled(a.journal, VerificationRecorded, v.id)))
  }

  function OnCompensation(a: Aggregate, id: int, effect: int): Result<Aggregate, EffectError> {
    match FindEffect(a.manifest.effects, effect)
    case None => Err(UnknownEffect(effect))
    case Some(e) =>
      if e.class' != External then Err(NotExternal)
      else if id in a.compensations then Err(DuplicateRecord(id))
      else Ok(a.(compensations := a.compensations + [id], journal := Journaled(a.journal, CompensationRecorded, id)))
  }

  // ----- deciding -----

  function Spent(verifications: seq<Verification>, currency: int): real {
    if verifications == [] then 0.0
    else
      var v := verifications[|verifications| - 1];
      Spent(verifications[..|verifications| - 1], currency) + (if v.currency == currency then v.cost else 0.0)
  }

  predicate EvidenceCovers(required: seq<int>, evidence: seq<int>) {
    forall i :: 0 <= i < |required| ==> required[i] in evidence
  }

  /** Why a verification does not satisfy the contract; the first check that fails. */
  function Objection(c: Contract, v: Verification): Option<Reason> {
    if v.status != Verified then Some(NotPassed)
    else if c.independent && !v.independent then Some(IndependenceRequired)
    else if v.attempt > c.maximumAttempts then Some(AttemptsExceeded)
    else if v.currency != c.currency || v.cost > c.maximumCost then Some(BudgetExceeded)
    else if !v.stopConditionMet then Some(StopConditionNotMet)
    else if !EvidenceCovers(c.requiredEvidence, v.evidence) then Some(EvidenceIncomplete)
    else None
  }

  /** The latest verification without an objection. */
  function Latest(c: Contract, verifications: seq<Verification>): Option<Verification> {
    if verifications == [] then None
    else
      var v := verifications[|verifications| - 1];
      if Objection(c, v).None? then Some(v) else Latest(c, verifications[..|verifications| - 1])
  }

  function Objections(c: Contract, verifications: seq<Verification>): set<Reason> {
    set i | 0 <= i < |verifications| && Objection(c, verifications[i]).Some? :: Objection(c, verifications[i]).value
  }

  function SelectVerification(a: Aggregate): Option<Verification> {
    if Spent(a.verifications, a.manifest.contract.currency) > a.manifest.contract.maximumCost then None
    else Latest(a.manifest.contract, a.verifications)
  }

  function VerificationReasons(a: Aggregate): set<Reason> {
    if SelectVerification(a).Some? then {}
    else if Spent(a.verifications, a.manifest.contract.currency) > a.manifest.contract.maximumCost then {BudgetExceeded}
    else if a.verifications == [] then {MissingVerification}
    else Objections(a.manifest.contract, a.verifications)
  }

  predicate Observed(a: Aggregate, effect: int) {
    exists i :: 0 <= i < |a.observations| && a.observations[i].effect == effect
  }

  function LastReconciliation(reconciliations: seq<Reconciliation>, effect: int): Option<Reconciliation> {
    if reconciliations == [] then None
    else if reconciliations[|reconciliations| - 1].effect == effect then Some(reconciliations[|reconciliations| - 1])
    else LastReconciliation(reconciliations[..|reconciliations| - 1], effect)
  }

  function EffectReasons(a: Aggregate, e: Effect): set<Reason> {
    (if Observed(a, e.id) then {} else {MissingObservation(e.id)})
    + match LastReconciliation(a.reconciliations, e.id)
      case None => {MissingReconciliation(e.id)}
      case Some(r) =>
        match r.status
        case Confirmed => {}
        case Diverged => {DivergedEffect(e.id)}
        case Uncertain => if e.class' == External then {UncertainExternal(e.id)} else {UncertainEffect(e.id)}
  }

  function AllEffectReasons(a: Aggregate, effects: seq<Effect>): set<Reason> {
    if effects == [] then {} else AllEffectReasons(a, effects[..|effects| - 1]) + EffectReasons(a, effects[|effects| - 1])
  }

  function EvidenceReasons(required: seq<int>, evidence: seq<int>): set<Reason> {
    set i | 0 <= i < |required| && required[i] !in evidence :: MissingEvidence(required[i])
  }

  function Reasons(a: Aggregate): set<Reason> {
    (if a.commits != [] then {AlreadyCommitted} else {})
    + (if a.manifest.authorized then {} else {NotAuthorized})
    + (if a.receipt.Some? && a.receipt.value.succeeded then {} else {NotSucceeded})
    + AllEffectReasons(a, a.manifest.effects)
    + EvidenceReasons(a.manifest.contract.requiredEvidence, a.evidence)
    + VerificationReasons(a)
  }

  predicate Accepts(a: Aggregate) {
    Reasons(a) == {} && SelectVerification(a).Some?
  }

  function SemanticIds(effects: seq<Effect>): seq<int> {
    if effects == [] then [] else (if effects[0].class' == Semantic then [effects[0].id] else []) + SemanticIds(effects[1..])
  }

  function OutcomeOf(a: Aggregate, id: int): Outcome {
    Outcome(id, Accepts(a), Reasons(a),
            exists i :: 0 <= i < |a.manifest.effects| && UncertainExternal(a.manifest.effects[i].id) in Reasons(a),
            if SelectVerification(a).Some? then Some(SelectVerification(a).value.id) else None)
  }

  function WithOutcome(a: Aggregate, id: int): Aggregate {
    a.(outcomes := a.outcomes + [OutcomeOf(a, id)],
       journal := Journaled(a.journal, if Accepts(a) then OutcomeAccepted else OutcomeRejected, id))
  }

  function CommitOf(a: Aggregate, outcome: int, id: int): Commit
    requires SelectVerification(a).Some?
  {
    Commit(id, outcome, SelectVerification(a).value.id, (set e | e in a.evidence), SemanticIds(a.manifest.effects))
  }

  /** The outcome is recorded before the commit id is looked at: a malformed one (`None`) throws in between. */
  function OnDecision(a: Aggregate, outcome: int, commit: Option<int>): Aggregate {
    var b := WithOutcome(a, outcome);
    if !Accepts(a) || commit.None? then b
    else b.(commits := b.commits + [CommitOf(a, outcome, commit.value)], journal := Journaled(b.journal, Committed, commit.value))
  }

  function Step(a: Aggregate, ev: Event): Result<Aggregate, EffectError> {
    match ev
    case RecordReceipt(r) => OnReceipt(a, r)
    case ObserveEffect(o, c) => OnObservation(a, o, c)
    case Reconcile(r) => OnReconciliation(a, r)
    case AttachEvidence(id) => OnEvidence(a, id)
    case RecordVerification(v) => OnVerification(a, v)
    case RecordCompensation(id, e) => OnCompensation(a, id, e)
    case Decide(outcome, commit) => Ok(OnDecision(a, outcome, commit))
  }

  /** A call that throws before recording anything leaves the aggregate as it was. */
  function Next(a: Aggregate, ev: Event): Aggregate {
    match Step(a, ev) case Ok(b) => b case Err(_) => a
  }

  function After(a: Aggregate, events: seq<Event>): Aggregate {
    if events == [] then a else Next(After(a, events[..|events| - 1]), events[|events| - 1])
  }

  // ----- what acceptance means -----

  /** The last reconciliation of the effect has the status. */
  ghost predicate LastStatus(a: Aggregate, effect: int, status: ReconciliationStatus) {
    exists i :: 0 <= i < |a.reconciliations| && a.reconciliations[i].effect == effect &&
      a.reconciliations[i].status == status &&
      (forall j :: i < j < |a.reconciliations| ==> a.reconciliations[j].effect != effect)
  }

  predicate Satisfies(c: Contract, v: Verification) {
    && v.status == Verified && (c.independent ==> v.independent) && v.attempt <= c.maximumAttempts
    && v.currency == c.currency && v.cost <= c.maximumCost && v.stopConditionMet
    && forall r :: r in c.requiredEvidence ==> r in v.evidence
  }

  /** `v` is the verification that justifies a commit. */
  ghost predicate Justified(a: Aggregate, v: Verification) {
    && a.manifest.authorized && a.receipt.Some? && a.receipt.value.succeeded
    && (forall e :: e in a.manifest.effects ==> (exists o :: o in a.observations && o.effect == e.id) && LastStatus(a, e.id, Confirmed))
    && (forall r :: r in a.manifest.contract.requiredEvidence ==> r in a.evidence)
    && Spent(a.verifications, a.manifest.contract.currency) <= a.manifest.contract.maximumCost
    && v in a.verifications && Satisfies(a.manifest.contract, v)
  }

  lemma {:induction false} LastReconciliationIs(reconciliations: seq<Reconciliation>, effect: int)
    ensures match LastReconciliation(reconciliations, effect)
      case None => forall j :: 0 <= j < |reconciliations| ==> reconciliations[j].effect != effect
      case Some(r) =>
        exists i :: 0 <= i < |reconciliations| && reconciliations[i] == r && r.effect == effect &&
          (forall j :: i < j < |reconciliations| ==> reconciliations[j].effect != effect)
    decreases |reconciliations|
  {
    if reconciliations != [] { LastReconciliationIs(reconciliations[..|reconciliations| - 1], effect); }
  }

  lemma ObservedIff(a: Aggregate, effect: int)
    ensures Observed(a, effect) <==> exists o :: o in a.observations && o.effect == effect
  {
    if Observed(a, effect) {
      var i :| 0 <= i < |a.observations| && a.observations[i].effect == effect;
      assert a.observations[i] in a.observations;
    }
  }

  lemma EffectAccepted(a: Aggregate, e: Effect)
    ensures EffectReasons(a, e) == {} <==> (exists o :: o in a.observations && o.effect == e.id) && LastStatus(a, e.id, Confirmed)
  {
    ObservedIff(a, e.id);
    LastReconciliationIs(a.reconciliations, e.id);
  }

  lemma {:induction false} EffectsAccepted(a: Aggregate, effects: seq<Effect>)
    ensures AllEffectReasons(a, effects) == {} <==> 
      forall e :: e in effects ==> (exists o :: o in a.observations && o.effect == e.id) && LastStatus(a, e.id, Confirmed)
    decreases |effects|
  {
    if effects != [] {
      SplitLast(effects);
      EffectsAccepted(a, effects[..|effects| - 1]);
      EffectAccepted(a, effects[|effects| - 1]);
      EmptyUnion(AllEffectReasons(a, effects[..|effects| - 1]), EffectReasons(a, effects[|effects| - 1]));
    }
  }

  lemma EmptyUnion<T>(s: set<T>, t: set<T>)
    ensures s + t == {} <==> s == {} && t == {}
  {
    assert s <= s + t && t <= s + t;
  }

  lemma MissingListed(required: seq<int>, evidence: seq<int>, r: int)
    ensures MissingEvidence(r) in EvidenceReasons(required, evidence) <==> r in required && r !in evidence
  {
    if r in required && r !in evidence {
      var i :| 0 <= i < |required| && required[i] == r;
      assert MissingEvidence(required[i]) in EvidenceReasons(required, evidence);
    }
  }

  lemma EvidenceAccepted(required: seq<int>, evidence: seq<int>)
    ensures EvidenceReasons(required, evidence) == {} <==> forall r :: r in required ==> r in evidence
  {
    forall r { MissingListed(required, evidence, r); }
    assert forall x :: x in EvidenceReasons(required, evidence) ==> x.MissingEvidence?;
  }

  lemma NoObjection(c: Contract, v: Verification)
    ensures Objection(c, v).None? <==> Satisfies(c, v)
  {
    CoversMembers(c.requiredEvidence, v.evidence);
  }

  lemma CoversMembers(required: seq<int>, evidence: seq<int>)
    ensures EvidenceCovers(required, evidence) <==> forall r :: r in required ==> r in evidence
  {
    if EvidenceCovers(required, evidence) {
      forall r | r in required ensures r in evidence { var i :| 0 <= i < |required| && required[i] == r; }
    }
    if forall r :: r in required ==> r in evidence {
      forall i | 0 <= i < |required| ensures required[i] in evidence { assert required[i] in required; }
    }
  }

  /** The verification selected is the latest that satisfies the contract. */
  lemma {:induction false} LatestIs(c: Contract, verifications: seq<Verification>)
    ensures match Latest(c, verifications)
      case None => forall i :: 0 <= i < |verifications| ==> !Satisfies(c, verifications[i])
      case Some(v) =>
        exists i :: 0 <= i < |verifications| && verifications[i] == v && Satisfies(c, v) &&
          (forall j :: i < j < |verifications| ==> !Satisfies(c, verifications[j]))
    decreases |verifications|
  {
    if verifications != [] {
      NoObjection(c, verifications[|verifications| - 1]);
      LatestIs(c, verifications[..|verifications| - 1]);
    }
  }

  lemma SelectedSatisfies(a: Aggregate)
    ensures SelectVerification(a).Some? <==>
      Spent(a.verifications, a.manifest.contract.currency) <= a.manifest.contract.maximumCost
      && exists v :: v in a.verifications && Satisfies(a.manifest.contract, v)
    ensures SelectVerification(a).Some? ==>
      SelectVerification(a).value in a.verifications && Satisfies(a.manifest.contract, SelectVerification(a).value)
  {
    LatestIs(a.manifest.contract, a.verifications);
  }

  lemma ReasonsEmpty(a: Aggregate)
    ensures Reasons(a) == {} <==>
      && a.commits == [] && a.manifest.authorized && a.receipt.Some? && a.receipt.value.succeeded
      && AllEffectReasons(a, a.manifest.effects) == {}
      && EvidenceReasons(a.manifest.contract.requiredEvidence, a.evidence) == {}
      && VerificationReasons(a) == {}
  {
    var r1: set<Reason> := if a.commits != [] then {AlreadyCommitted} else {};
    var r2: set<Reason> := if a.manifest.authorized then {} else {NotAuthorized};
    var r3: set<Reason> := if a.receipt.Some? && a.receipt.value.succeeded then {} else {NotSucceeded};
    var r4, r5 := AllEffectReasons(a, a.manifest.effects), EvidenceReasons(a.manifest.contract.requiredEvidence, a.evidence);
    EmptyUnion(r1, r2);
    EmptyUnion(r1 + r2, r3);
    EmptyUnion(r1 + r2 + r3, r4);
    EmptyUnion(r1 + r2 + r3 + r4, r5);
    EmptyUnion(r1 + r2 + r3 + r4 + r5, VerificationReasons(a));
  }

  /** A decision accepts exactly when nothing was committed yet and some verification justifies a commit. */
  lemma AcceptsIff(a: Aggregate)
    ensures Accepts(a) <==> a.commits == [] && exists v :: Justified(a, v)
    ensures Accepts(a) ==> Justified(a, SelectVerification(a).value)
  {
    ReasonsEmpty(a);
    EffectsAccepted(a, a.manifest.effects);
    EvidenceAccepted(a.manifest.contract.requiredEvidence, a.evidence);
    SelectedSatisfies(a);
    if Accepts(a) { assert Justified(a, SelectVerification(a).value); }
  }

  // ----- what the reasons say -----

  /** The cost is added up over the verifications in the currency. */
  lemma {:induction false} SpentAdds(some: seq<Verification>, more: seq<Verification>, currency: int)
    ensures Spent(some + more, currency) == Spent(some, currency) + Spent(more, currency)
    ensures forall v: Verification :: Spent([v], v.currency) == v.cost && (v.currency != currency ==> Spent([v], currency) == 0.0)
    decreases |more|
  {
    forall v: Verification ensures Spent([v], v.currency) == v.cost && (v.currency != currency ==> Spent([v], currency) == 0.0) {
      assert [v][..0] == [];
    }
    if more == [] {
      assert some + more == some;
    } else {
      var init := more[..|more| - 1];
      assert (some + more)[..|some + more| - 1] == some + init;
      SpentAdds(some, init, currency);
    }
  }

  /** The first thing in which the verification falls short of the contract. */
  ghost predicate FallsShort(c: Contract, v: Verification, reason: Reason) {
    var independent, attempts := c.independent ==> v.independent, v.attempt <= c.maximumAttempts;
    var affordable := v.currency == c.currency && v.cost <= c.maximumCost;
    match reason
    case NotPassed => v.status != Verified
    case IndependenceRequired => v.status == Verified && !independent
    case AttemptsExceeded => v.status == Verified && independent && !attempts
    case BudgetExceeded => v.status == Verified && independent && attempts && !affordable
    case StopConditionNotMet => v.status == Verified && independent && attempts && affordable && !v.stopConditionMet
    case EvidenceIncomplete =>
      && v.status == Verified && independent && attempts && affordable && v.stopConditionMet
      && exists r :: r in c.requiredEvidence && r !in v.evidence
    case _ => false
  }

  lemma ObjectionIs(c: Contract, v: Verification, reason: Reason)
    ensures Objection(c, v) == Some(reason) <==> FallsShort(c, v, reason)
  {
    CoversMembers(c.requiredEvidence, v.evidence);
  }

  /** No verification satisfies the contract within the budget. */
  ghost predicate NoneSatisfies(a: Aggregate) {
    forall v :: v in a.verifications ==> !Satisfies(a.manifest.contract, v)
  }

  /** When a reason is given. */
  ghost predicate Applies(a: Aggregate, reason: Reason) {
    var c := a.manifest.contract;
    var overspent := Spent(a.verifications, c.currency) > c.maximumCost;
    match reason
    case AlreadyCommitted => a.commits != []
    case NotAuthorized => !a.manifest.authorized
    case NotSucceeded => a.receipt.Some? ==> !a.receipt.value.succeeded
    case MissingObservation(id) => (exists e :: e in a.manifest.effects && e.id == id) && forall o :: o in a.observations ==> o.effect != id
    case MissingReconciliation(id) =>
      (exists e :: e in a.manifest.effects && e.id == id) && forall r :: r in a.reconciliations ==> r.effect != id
    case DivergedEffect(id) => (exists e :: e in a.manifest.effects && e.id == id) && LastStatus(a, id, Diverged)
    case UncertainExternal(id) =>
      (exists e :: e in a.manifest.effects && e.id == id && e.class' == External) && LastStatus(a, id, Uncertain)
    case UncertainEffect(id) =>
      (exists e :: e in a.manifest.effects && e.id == id && e.class' != External) && LastStatus(a, id, Uncertain)
    case MissingEvidence(id) => id in c.requiredEvidence && id !in a.evidence
    case MissingVerification => !overspent && a.verifications == []
    case BudgetExceeded => overspent || (NoneSatisfies(a) && exists v :: v in a.verifications && FallsShort(c, v, reason))
    case _ => !overspent && NoneSatisfies(a) && exists v :: v in a.verifications && FallsShort(c, v, reason)
  }

  lemma EffectReasonIs(a: Aggregate, e: Effect, reason: Reason)
    ensures reason in EffectReasons(a, e) <==> match reason
      case MissingObservation(id) => id == e.id && forall o :: o in a.observations ==> o.effect != id
      case MissingReconciliation(id) => id == e.id && forall r :: r in a.reconciliations ==> r.effect != id
      case DivergedEffect(id) => id == e.id && LastStatus(a, id, Diverged)
      case UncertainExternal(id) => id == e.id && e.class' == External && LastStatus(a, id, Uncertain)
      case UncertainEffect(id) => id == e.id && e.class' != External && LastStatus(a, id, Uncertain)
      case _ => false
  {
    ObservedIff(a, e.id);
    LastReconciliationIs(a.reconciliations, e.id);
    if LastReconciliation(a.reconciliations, e.id).Some? {
      var r := LastReconciliation(a.reconciliations, e.id).value;
      var i :| 0 <= i < |a.reconciliations| && a.reconciliations[i] == r && r.effect == e.id &&
        forall j :: i < j < |a.reconciliations| ==> a.reconciliations[j].effect != e.id;
      assert LastStatus(a, e.id, r.status) && a.reconciliations[i] in a.reconciliations;
    }
  }

  lemma {:induction false} AllEffectReasonsAre(a: Aggregate, effects: seq<Effect>, reason: Reason)
    ensures reason in AllEffectReasons(a, effects) <==> exists e :: e in effects && reason in EffectReasons(a, e)
    decreases |effects|
  {
    if effects != [] {
      AllEffectReasonsAre(a, effects[..|effects| - 1], reason);
      SplitLast(effects);
      assert effects[|effects| - 1] in effects;
    }
  }

  lemma EvidenceReasonIs(required: seq<int>, evidence: seq<int>, reason: Reason)
    ensures reason in EvidenceReasons(required, evidence) <==>
      reason.MissingEvidence? && reason.evidence in required && reason.evidence !in evidence
  {
    if reason.MissingEvidence? { MissingListed(required, evidence, reason.evidence); }
  }

  lemma NoneSatisfiesIff(a: Aggregate)
    ensures Latest(a.manifest.contract, a.verifications).None? <==> NoneSatisfies(a)
  {
    LatestIs(a.manifest.contract, a.verifications);
    if Latest(a.manifest.contract, a.verifications).None? {
      forall v | v in a.verifications ensures !Satisfies(a.manifest.contract, v) {
        var i :| 0 <= i < |a.verifications| && a.verifications[i] == v;
      }
    }
  }

  lemma ObjectionsAre(c: Contract, verifications: seq<Verification>, reason: Reason)
    ensures reason in Objections(c, verifications) <==> exists v :: v in verifications && FallsShort(c, v, reason)
  {
    forall v { ObjectionIs(c, v, reason); }
    if reason in Objections(c, verifications) {
      var i :| 0 <= i < |verifications| && Objection(c, verifications[i]) == Some(reason);
      ObjectionIs(c, verifications[i], reason);
      assert verifications[i] in verifications;
    }
    if exists v :: v in verifications && FallsShort(c, v, reason) {
      var v :| v in verifications && FallsShort(c, v, reason);
      ObjectionIs(c, v, reason);
      var i :| 0 <= i < |verifications| && verifications[i] == v;
    }
  }

  lemma VerificationReasonIs(a: Aggregate, reason: Reason)
    ensures reason in VerificationReasons(a) <==> match reason
      case MissingVerification => Applies(a, reason)
      case NotPassed => Applies(a, reason)
      case IndependenceRequired => Applies(a, reason)
      case AttemptsExceeded => Applies(a, reason)
      case BudgetExceeded => Applies(a, reason)
      case StopConditionNotMet => Applies(a, reason)
      case EvidenceIncomplete => Applies(a, reason)
      case _ => false
  {
    NoneSatisfiesIff(a);
    ObjectionsAre(a.manifest.contract, a.verifications, reason);
  }

  /** The reasons given for a decision are exactly those that apply. */
  lemma ReasonsAre(a: Aggregate, reason: Reason)
    ensures reason in Reasons(a) <==> Applies(a, reason)
  {
    EvidenceReasonIs(a.manifest.contract.requiredEvidence, a.evidence, reason);
    VerificationReasonIs(a, reason);
    AllEffectReasonsAre(a, a.manifest.effects, reason);
    forall e { EffectReasonIs(a, e, reason); }
  }

  // ----- what a decision records -----

  /** The ids of the semantic effects, in the order of the plan, which `at` points into. */
  ghost predicate PicksSemantic(effects: seq<Effect>, ids: seq<int>, at: seq<nat>) {
    && |at| == |ids| && (forall i, j :: 0 <= i < j < |at| ==> at[i] < at[j])
    && (forall i :: 0 <= i < |at| ==> at[i] < |effects| && effects[at[i]].class' == Semantic && effects[at[i]].id == ids[i])
    && forall k :: 0 <= k < |effects| && effects[k].class' == Semantic ==> k in at
  }

  lemma {:induction false} SemanticSnoc(effects: seq<Effect>, e: Effect)
    ensures SemanticIds(effects + [e]) == SemanticIds(effects) + if e.class' == Semantic then [e.id] else []
    decreases |effects|
  {
    var tail := if e.class' == Semantic then [e.id] else [];
    if effects == [] {
      assert [e][1..] == [] && effects + [e] == [e] && tail + [] == [] + tail == tail;
    } else {
      var head := if effects[0].class' == Semantic then [effects[0].id] else [];
      assert (effects + [e])[0] == effects[0] && (effects + [e])[1..] == effects[1..] + [e];
      SemanticSnoc(effects[1..], e);
      assert head + (SemanticIds(effects[1..]) + tail) == (head + SemanticIds(effects[1..])) + tail;
    }
  }

  lemma PicksSnoc(effects: seq<Effect>, e: Effect, ids: seq<int>, at: seq<nat>)
    requires PicksSemantic(effects, ids, at)
    ensures e.class' == Semantic ==> PicksSemantic(effects + [e], ids + [e.id], at + [|effects|])
    ensures e.class' != Semantic ==> PicksSemantic(effects + [e], ids, at)
  {
    assert forall k :: 0 <= k < |effects| ==> (effects + [e])[k] == effects[k];
  }

  lemma {:induction false} SemanticIdsAre(effects: seq<Effect>) returns (at: seq<nat>)
    ensures PicksSemantic(effects, SemanticIds(effects), at)
    decreases |effects|
  {
    at := [];
    if effects != [] {
      var init, last := effects[..|effects| - 1], effects[|effects| - 1];
      assert effects == init + [last];
      at := SemanticIdsAre(init);
      PicksSnoc(init, last, SemanticIds(init), at);
      SemanticSnoc(init, last);
      if last.class' == Semantic { at := at + [|init|]; } else { assert SemanticIds(init) + [] == SemanticIds(init); }
    }
  }

  /** The verification that a decision rests on: the latest that satisfies the contract, within the budget. */
  ghost predicate Selected(a: Aggregate, v: Verification) {
    && Spent(a.verifications, a.manifest.contract.currency) <= a.manifest.contract.maximumCost
    && exists i :: 0 <= i < |a.verifications| && a.verifications[i] == v && Satisfies(a.manifest.contract, v) &&
         forall j :: i < j < |a.verifications| ==> !Satisfies(a.manifest.contract, a.verifications[j])
  }

  lemma SelectedIs(a: Aggregate)
    ensures match SelectVerification(a)
      case Some(v) => Selected(a, v)
      case None => forall v :: !Selected(a, v)
  {
    LatestIs(a.manifest.contract, a.verifications);
  }

  /** The outcome of a decision: accepted or not, why not, whether a person has to look at it, and on what it rests. */
  ghost predicate Decides(a: Aggregate, o: Outcome) {
    && (o.accepted <==> a.commits == [] && exists v :: Justified(a, v))
    && GivesReasons(a, o.reasons) && (o.reviewRequired <==> NeedsReview(a)) && RestsOn(a, o.verification)
  }

  /** The commit names the outcome, the verification, all the evidence, and the semantic effects in order. */
  ghost predicate Commits(a: Aggregate, o: Outcome, c: Commit) {
    && c.outcome == o.id && o.verification == Some(c.verification) && (forall e :: e in c.evidence <==> e in a.evidence)
    && exists at :: PicksSemantic(a.manifest.effects, c.semanticEffects, at)
  }

  /** The outcome is added and, if there is one, the commit, with their entries; nothing else changes. */
  ghost predicate Appends(a: Aggregate, b: Aggregate, o: Outcome, c: Option<Commit>) {
    var entry := Entry(if o.accepted then OutcomeAccepted else OutcomeRejected, |a.journal| + 1, o.id);
    match c
    case None => b == a.(outcomes := a.outcomes + [o], journal := a.journal + [entry])
    case Some(c) =>
      b == a.(outcomes := a.outcomes + [o], commits := a.commits + [c],
              journal := a.journal + [entry] + [Entry(Committed, |a.journal| + 2, c.id)])
  }

  /** A decision records its outcome and, if it accepts and the commit id is well formed, a commit. */
  ghost predicate DecidedAs(a: Aggregate, b: Aggregate, o: Outcome, commit: Option<int>) {
    && Decides(a, o)
    && if o.accepted && commit.Some? then exists c :: Appends(a, b, o, Some(c)) && c.id == commit.value && Commits(a, o, c)
       else Appends(a, b, o, None)
  }

  ghost predicate NeedsReview(a: Aggregate) {
    exists e :: e in a.manifest.effects && e.class' == External && LastStatus(a, e.id, Uncertain)
  }

  lemma ReviewMeans(a: Aggregate, id: int)
    ensures OutcomeOf(a, id).reviewRequired <==> NeedsReview(a)
  {
    if OutcomeOf(a, id).reviewRequired {
      var i :| 0 <= i < |a.manifest.effects| && UncertainExternal(a.manifest.effects[i].id) in Reasons(a);
      ReasonsAre(a, UncertainExternal(a.manifest.effects[i].id));
    }
    if e :| e in a.manifest.effects && e.class' == External && LastStatus(a, e.id, Uncertain) {
      ReasonsAre(a, UncertainExternal(e.id));
      var i :| 0 <= i < |a.manifest.effects| && a.manifest.effects[i] == e;
      assert UncertainExternal(a.manifest.effects[i].id) in Reasons(a);
    }
  }

  ghost predicate RestsOn(a: Aggregate, verification: Option<int>) {
    match verification
    case Some(id) => exists v :: Selected(a, v) && v.id == id
    case None => forall v :: !Selected(a, v)
  }

  lemma OutcomeRests(a: Aggregate, id: int)
    ensures RestsOn(a, OutcomeOf(a, id).verification)
  {
    SelectedIs(a);
  }

  ghost predicate GivesReasons(a: Aggregate, reasons: set<Reason>) {
    forall r :: r in reasons <==> Applies(a, r)
  }

  lemma OutcomeGivesReasons(a: Aggregate, id: int)
    ensures GivesReasons(a, OutcomeOf(a, id).reasons)
  {
    forall r ensures r in Reasons(a) <==> Applies(a, r) { ReasonsAre(a, r); }
  }

  lemma OutcomeMeans(a: Aggregate, id: int)
    ensures Decides(a, OutcomeOf(a, id)) && OutcomeOf(a, id).id == id
  {
    AcceptsIff(a);
    ReviewMeans(a, id);
    OutcomeRests(a, id);
    OutcomeGivesReasons(a, id);
  }

  lemma CommitMeans(a: Aggregate, outcome: int, id: int)
    requires SelectVerification(a).Some?
    ensures Commits(a, OutcomeOf(a, outcome), CommitOf(a, outcome, id))
  {
    var at := SemanticIdsAre(a.manifest.effects);
  }

  lemma DecisionMeans(a: Aggregate, outcome: int, commit: Option<int>)
    ensures DecidedAs(a, OnDecision(a, outcome, commit), OutcomeOf(a, outcome), commit)
  {
    OutcomeMeans(a, outcome);
    if Accepts(a) && commit.Some? { CommitMeans(a, outcome, commit.value); }
    DecisionAppends(a, outcome, commit);
  }

  lemma DecisionAppends(a: Aggregate, outcome: int, commit: Option<int>)
    ensures Appends(a, OnDecision(a, outcome, commit), OutcomeOf(a, outcome),
              if Accepts(a) && commit.Some? then Some(CommitOf(a, outcome, commit.value)) else None)
  {
  }

  // ----- what the other calls record -----

  /** The first effect of the plan with the id. */
  ghost predicate Plans(m: Manifest, id: int, e: Effect) {
    exists i :: 0 <= i < |m.effects| && m.effects[i] == e && e.id == id && forall j :: 0 <= j < i ==> m.effects[j].id != id
  }

  ghost predicate Sees(a: Aggregate, id: int, o: Observation) {
    exists i :: 0 <= i < |a.observations| && a.observations[i] == o && o.id == id && forall j :: 0 <= j < i ==> a.observations[j].id != id
  }

  lemma {:induction false} FindEffectIs(effects: seq<Effect>, id: int)
    ensures match FindEffect(effects, id)
      case None => forall e :: e in effects ==> e.id != id
      case Some(e) => exists i :: 0 <= i < |effects| && effects[i] == e && e.id == id && forall j :: 0 <= j < i ==> effects[j].id != id
    decreases |effects|
  {
    if effects != [] {
      FindEffectIs(effects[1..], id);
      if effects[0].id == id {
        assert effects[0] == FindEffect(effects, id).value;
      } else if FindEffect(effects, id).Some? {
        var i :| 0 <= i < |effects[1..]| && effects[1..][i] == FindEffect(effects, id).value &&
          forall j :: 0 <= j < i ==> effects[1..][j].id != id;
        assert effects[i + 1] == FindEffect(effects, id).value;
        assert forall j :: 0 < j < i + 1 ==> effects[j] == effects[1..][j - 1];
      }
    }
  }

  lemma {:induction false} FindObservationIs(observations: seq<Observation>, id: int)
    ensures match FindObservation(observations, id)
      case None => forall o :: o in observations ==> o.id != id
      case Some(o) =>
        exists i :: 0 <= i < |observations| && observations[i] == o && o.id == id && forall j :: 0 <= j < i ==> observations[j].id != id
    decreases |observations|
  {
    if observations != [] {
      FindObservationIs(observations[1..], id);
      if observations[0].id == id {
        assert observations[0] == FindObservation(observations, id).value;
      } else if FindObservation(observations, id).Some? {
        var i :| 0 <= i < |observations[1..]| && observations[1..][i] == FindObservation(observations, id).value &&
          forall j :: 0 <= j < i ==> observations[1..][j].id != id;
        assert observations[i + 1] == FindObservation(observations, id).value;
        assert forall j :: 0 < j < i + 1 ==> observations[j] == observations[1..][j - 1];
      }
    }
  }

  lemma PlansOne(m: Manifest, id: int, e: Effect)
    ensures Plans(m, id, e) <==> FindEffect(m.effects, id) == Some(e)
  {
    FindEffectIs(m.effects, id);
    if Plans(m, id, e) {
      var i :| 0 <= i < |m.effects| && m.effects[i] == e && e.id == id && forall j :: 0 <= j < i ==> m.effects[j].id != id;
      assert m.effects[i] in m.effects;
    }
  }

  lemma SeesOne(a: Aggregate, id: int, o: Observation)
    ensures Sees(a, id, o) <==> FindObservation(a.observations, id) == Some(o)
  {
    FindObservationIs(a.observations, id);
    if Sees(a, id, o) {
      var i :| 0 <= i < |a.observations| && a.observations[i] == o && o.id == id && forall j :: 0 <= j < i ==> a.observations[j].id != id;
      assert a.observations[i] in a.observations;
    }
  }

  /** What each recording call asks for. */
  ghost predicate Records(a: Aggregate, ev: Event) {
    match ev
    case RecordReceipt(_) => a.manifest.authorized && a.receipt == None
    case ObserveEffect(o, c) =>
      (exists e :: Plans(a.manifest, o.effect, e) && e.class' == c) && forall p :: p in a.observations ==> p.id != o.id
    case Reconcile(r) =>
      && (exists e :: Plans(a.manifest, r.effect, e))
      && (exists o :: Sees(a, r.observation, o) && o.effect == r.effect)
      && forall p :: p in a.reconciliations ==> p.id != r.id
    case AttachEvidence(id) => id !in a.evidence
    case RecordVerification(v) => v.attempt >= 1 && v.cost >= 0.0 && forall p :: p in a.verifications ==> p.id != v.id
    case RecordCompensation(id, effect) => (exists e :: Plans(a.manifest, effect, e) && e.class' == External) && id !in a.compensations
    case Decide(_, _) => true
  }

  /** The record it makes; a claim of independence stands only against the provider of a receipt. */
  ghost predicate RecordedAs(a: Aggregate, b: Aggregate, ev: Event) {
    match ev
    case RecordReceipt(r) => b == a.(receipt := Some(r), journal := a.journal + [Entry(ReceiptRecorded, |a.journal| + 1, r.id)])
    case ObserveEffect(o, _) =>
      b == a.(observations := a.observations + [o], journal := a.journal + [Entry(EffectObserved, |a.journal| + 1, o.id)])
    case Reconcile(r) =>
      b == a.(reconciliations := a.reconciliations + [r], journal := a.journal + [Entry(EffectReconciled, |a.journal| + 1, r.id)])
    case AttachEvidence(id) => b == a.(evidence := a.evidence + [id], journal := a.journal + [Entry(EvidenceAttached, |a.journal| + 1, id)])
    case RecordVerification(v) =>
      var others := a.receipt.Some? && (v.padded || a.receipt.value.provider != v.verifier);
      b == a.(verifications := a.verifications + [v.(independent := v.independent && others)],
              journal := a.journal + [Entry(VerificationRecorded, |a.journal| + 1, v.id)])
    case RecordCompensation(id, _) =>
      b == a.(compensations := a.compensations + [id], journal := a.journal + [Entry(CompensationRecorded, |a.journal| + 1, id)])
    case Decide(_, _) => true
  }

  /** What an error says is so. */
  ghost predicate RefusedFor(a: Aggregate, ev: Event, error: EffectError) {
    match error
    case BlockedManifest => ev.RecordReceipt? && !a.manifest.authorized
    case ReceiptExists => ev.RecordReceipt? && a.receipt.Some?
    case UnknownEffect(id) =>
      && (forall e :: e in a.manifest.effects ==> e.id != id)
      && id == (match ev
                case ObserveEffect(o, _) => o.effect
                case Reconcile(r) => r.effect
                case RecordCompensation(_, effect) => effect
                case _ => id + 1)
    case ClassMismatch => ev.ObserveEffect? && exists e :: Plans(a.manifest, ev.observation.effect, e) && e.class' != ev.class'
    case ObservationMismatch => ev.Reconcile? && forall o :: Sees(a, ev.reconciliation.observation, o) ==> o.effect != ev.reconciliation.effect
    case DuplicateRecord(id) =>
      (match ev
       case ObserveEffect(o, _) => id == o.id && exists p :: p in a.observations && p.id == id
       case Reconcile(r) => id == r.id && exists p :: p in a.reconciliations && p.id == id
       case AttachEvidence(e) => id == e && e in a.evidence
       case RecordVerification(v) => id == v.id && exists p :: p in a.verifications && p.id == id
       case RecordCompensation(c, _) => id == c && c in a.compensations
       case _ => false)
    case InvalidAttempt => ev.RecordVerification? && ev.verification.attempt < 1
    case InvalidCost => ev.RecordVerification? && ev.verification.cost < 0.0
    case NotExternal => ev.RecordCompensation? && exists e :: Plans(a.manifest, ev.effect, e) && e.class' != External
    case _ => false
  }

  ghost predicate Answered(a: Aggregate, b: Aggregate, ev: Event, thrown: Option<EffectError>) {
    && (thrown == None <==> Records(a, ev))
    && (thrown == None ==> RecordedAs(a, b, ev))
    && (thrown.Some? ==> b == a && RefusedFor(a, ev, thrown.value))
  }

  lemma ReceiptAnswered(a: Aggregate, r: Receipt)
    ensures match OnReceipt(a, r)
      case Ok(b) => Answered(a, b, RecordReceipt(r), None)
      case Err(e) => Answered(a, a, RecordReceipt(r), Some(e))
  {
  }

  lemma ObservationAnswered(a: Aggregate, o: Observation, class': EffectClass)
    ensures match OnObservation(a, o, class')
      case Ok(b) => Answered(a, b, ObserveEffect(o, class'), None)
      case Err(e) => Answered(a, a, ObserveEffect(o, class'), Some(e))
  {
    FindEffectIs(a.manifest.effects, o.effect);
    forall e { PlansOne(a.manifest, o.effect, e); }
    if i :| 0 <= i < |a.observations| && a.observations[i].id == o.id { assert a.observations[i] in a.observations; }
    var found := FindEffect(a.manifest.effects, o.effect);
    assert found.Some? ==> Plans(a.manifest, o.effect, found.value);
  }

  lemma ReconciliationAnswered(a: Aggregate, r: Reconciliation)
    ensures match OnReconciliation(a, r)
      case Ok(b) => Answered(a, b, Reconcile(r), None)
      case Err(e) => Answered(a, a, Reconcile(r), Some(e))
  {
    FindEffectIs(a.manifest.effects, r.effect);
    forall e { PlansOne(a.manifest, r.effect, e); }
    forall o { SeesOne(a, r.observation, o); }
    if i :| 0 <= i < |a.reconciliations| && a.reconciliations[i].id == r.id { assert a.reconciliations[i] in a.reconciliations; }
    var found, seen := FindEffect(a.manifest.effects, r.effect), FindObservation(a.observations, r.observation);
    assert found.Some? ==> Plans(a.manifest, r.effect, found.value);
    assert seen.Some? ==> Sees(a, r.observation, seen.value);
  }

  lemma EvidenceAnswered(a: Aggregate, id: int)
    ensures match OnEvidence(a, id)
      case Ok(b) => Answered(a, b, AttachEvidence(id), None)
      case Err(e) => Answered(a, a, AttachEvidence(id), Some(e))
  {
  }

  lemma VerificationAnswered(a: Aggregate, v: Verification)
    ensures match OnVerification(a, v)
      case Ok(b) => Answered(a, b, RecordVerification(v), None)
      case Err(e) => Answered(a, a, RecordVerification(v), Some(e))
  {
    if i :| 0 <= i < |a.verifications| && a.verifications[i].id == v.id { assert a.verifications[i] in a.verifications; }
  }

  lemma CompensationAnswered(a: Aggregate, id: int, effect: int)
    ensures match OnCompensation(a, id, effect)
      case Ok(b) => Answered(a, b, RecordCompensation(id, effect), None)
      case Err(e) => Answered(a, a, RecordCompensation(id, effect), Some(e))
  {
    FindEffectIs(a.manifest.effects, effect);
    forall e { PlansOne(a.manifest, effect, e); }
    var found := FindEffect(a.manifest.effects, effect);
    assert found.Some? ==> Plans(a.manifest, effect, found.value);
  }

  // ----- the aggregate as it was -----

  function OfKind(k: Kind): Entry -> bool {
    (e: Entry) => e.kind == k
  }

  function Decided(): Entry -> bool {
    (e: Entry) => e.kind == OutcomeAccepted || e.kind == OutcomeRejected
  }

  function Count(journal: seq<Entry>, p: Entry -> bool): nat {
    |Filter(journal, p)|
  }

  function Take<T>(s: seq<T>, n: nat): seq<T> {
    if n <= |s| then s[..n] else s
  }

  /** What the aggregate held when its journal had `n` entries. */
  function AsOf(a: Aggregate, n: nat): Aggregate
    requires n <= |a.journal|
  {
    var j := a.journal[..n];
    Aggregate(a.manifest, if Count(j, OfKind(ReceiptRecorded)) > 0 then a.receipt else None,
      Take(a.observations, Count(j, OfKind(EffectObserved))), Take(a.reconciliations, Count(j, OfKind(EffectReconciled))),
      Take(a.evidence, Count(j, OfKind(EvidenceAttached))), Take(a.verifications, Count(j, OfKind(VerificationRecorded))),
      Take(a.compensations, Count(j, OfKind(CompensationRecorded))), Take(a.outcomes, Count(j, Decided())),
      Take(a.commits, Count(j, OfKind(Committed))), j)
  }

  /** Every record has its journal entry and the entries are numbered 1, 2, 3, ... */
  ghost predicate Journal(a: Aggregate) {
    && (forall i :: 0 <= i < |a.journal| ==> a.journal[i].sequence == i + 1)
    && Count(a.journal, OfKind(ReceiptRecorded)) == (if a.receipt.Some? then 1 else 0)
    && Count(a.journal, OfKind(EffectObserved)) == |a.observations|
    && Count(a.journal, OfKind(EffectReconciled)) == |a.reconciliations|
    && Count(a.journal, OfKind(EvidenceAttached)) == |a.evidence|
    && Count(a.journal, OfKind(VerificationRecorded)) == |a.verifications|
    && Count(a.journal, OfKind(CompensationRecorded)) == |a.compensations|
    && Count(a.journal, Decided()) == |a.outcomes|
    && Count(a.journal, OfKind(Committed)) == |a.commits|
  }

  /** `b` has everything `a` has, and what it has more comes after. */
  ghost predicate Extends(a: Aggregate, b: Aggregate) {
    && b.manifest == a.manifest && (a.receipt.Some? ==> b.receipt == a.receipt)
    && a.observations <= b.observations && a.reconciliations <= b.reconciliations && a.evidence <= b.evidence
    && a.verifications <= b.verifications && a.compensations <= b.compensations && a.outcomes <= b.outcomes
    && a.commits <= b.commits && a.journal <= b.journal
  }

  lemma CountSnoc(journal: seq<Entry>, e: Entry, p: Entry -> bool)
    ensures Count(journal + [e], p) == Count(journal, p) + if p(e) then 1 else 0
  {
    FilterAppend(journal, [e], p);
    assert [e][1..] == [];
  }

  lemma CountPrefix(journal: seq<Entry>, n: nat, p: Entry -> bool)
    requires n <= |journal|
    ensures Count(journal[..n], p) <= Count(journal, p)
  {
    assert journal == journal[..n] + journal[n..];
    FilterAppend(journal[..n], journal[n..], p);
  }

  lemma JournaledCounts(journal: seq<Entry>, k: Kind, record: int)
    ensures forall q :: Count(Journaled(journal, k, record), OfKind(q)) == Count(journal, OfKind(q)) + if q == k then 1 else 0
    ensures Count(Journaled(journal, k, record), Decided()) ==
            Count(journal, Decided()) + if k == OutcomeAccepted || k == OutcomeRejected then 1 else 0
    ensures journal <= Journaled(journal, k, record)
  {
    var e := Entry(k, |journal| + 1, record);
    forall q ensures Count(Journaled(journal, k, record), OfKind(q)) == Count(journal, OfKind(q)) + if q == k then 1 else 0 {
      CountSnoc(journal, e, OfKind(q));
    }
    CountSnoc(journal, e, Decided());
  }

  lemma OutcomeAdded(a: Aggregate, o: Outcome, k: Kind, id: int)
    requires Journal(a) && (k == OutcomeAccepted || k == OutcomeRejected)
    ensures var b := a.(outcomes := a.outcomes + [o], journal := Journaled(a.journal, k, id)); Journal(b) && Extends(a, b)
  {
    JournaledCounts(a.journal, k, id);
  }

  lemma OutcomeJournaled(a: Aggregate, id: int)
    requires Journal(a)
    ensures Journal(WithOutcome(a, id)) && Extends(a, WithOutcome(a, id))
  {
    OutcomeAdded(a, OutcomeOf(a, id), if Accepts(a) then OutcomeAccepted else OutcomeRejected, id);
  }

  lemma CommitJournaled(b: Aggregate, commit: Commit)
    requires Journal(b)
    ensures var c := b.(commits := b.commits + [commit], journal := Journaled(b.journal, Committed, commit.id));
      Journal(c) && Extends(b, c)
  {
    JournaledCounts(b.journal, Committed, commit.id);
  }

  lemma ExtendsTransitive(a: Aggregate, b: Aggregate, c: Aggregate)
    requires Extends(a, b) && Extends(b, c)
    ensures Extends(a, c)
  {
  }

  /** One record more, journaled; no decision. */
  ghost predicate Recorded(a: Aggregate, b: Aggregate) {
    Journal(b) && Extends(a, b) && b.commits == a.commits && b.outcomes == a.outcomes
  }

  lemma ReceiptJournaled(a: Aggregate, r: Receipt)
    requires Journal(a) && OnReceipt(a, r).Ok?
    ensures Recorded(a, OnReceipt(a, r).value)
  {
    JournaledCounts(a.journal, ReceiptRecorded, r.id);
  }

  lemma ObservationJournaled(a: Aggregate, o: Observation, class': EffectClass)
    requires Journal(a) && OnObservation(a, o, class').Ok?
    ensures Recorded(a, OnObservation(a, o, class').value)
  {
    JournaledCounts(a.journal, EffectObserved, o.id);
  }

  lemma ReconciliationJournaled(a: Aggregate, r: Reconciliation)
    requires Journal(a) && OnReconciliation(a, r).Ok?
    ensures Recorded(a, OnReconciliation(a, r).value)
  {
    JournaledCounts(a.journal, EffectReconciled, r.id);
  }

  lemma EvidenceJournaled(a: Aggregate, id: int)
    requires Journal(a) && OnEvidence(a, id).Ok?
    ensures Recorded(a, OnEvidence(a, id).value)
  {
    JournaledCounts(a.journal, EvidenceAttached, id);
  }

  lemma VerificationJournaled(a: Aggregate, v: Verification)
    requires Journal(a) && OnVerification(a, v).Ok?
    ensures Recorded(a, OnVerification(a, v).value)
  {
    JournaledCounts(a.journal, VerificationRecorded, v.id);
  }

  lemma CompensationJournaled(a: Aggregate, id: int, effect: int)
    requires Journal(a) && OnCompensation(a, id, effect).Ok?
    ensures Recorded(a, OnCompensation(a, id, effect).value)
  {
    JournaledCounts(a.journal, CompensationRecorded, id);
  }

  lemma RecordJournaled(a: Aggregate, ev: Event)
    requires Journal(a) && !ev.Decide? && Step(a, ev).Ok?
    ensures Recorded(a, Step(a, ev).value)
  {
    match ev
    case RecordReceipt(r) => ReceiptJournaled(a, r);
    case ObserveEffect(o, c) => ObservationJournaled(a, o, c);
    case Reconcile(r) => ReconciliationJournaled(a, r);
    case AttachEvidence(id) => EvidenceJournaled(a, id);
    case RecordVerification(v) => VerificationJournaled(a, v);
    case RecordCompensation(id, e) => CompensationJournaled(a, id, e);
  }

  lemma DecisionJournaled(a: Aggregate, outcome: int, commit: Option<int>)
    requires Journal(a)
    ensures Journal(OnDecision(a, outcome, commit)) && Extends(a, OnDecision(a, outcome, commit))
  {
    OutcomeJournaled(a, outcome);
    if Accepts(a) && commit.Some? {
      CommitJournaled(WithOutcome(a, outcome), CommitOf(a, outcome, commit.value));
      ExtendsTransitive(a, WithOutcome(a, outcome), OnDecision(a, outcome, commit));
    }
  }

  lemma StepJournaled(a: Aggregate, ev: Event)
    requires Journal(a)
    ensures Journal(Next(a, ev)) && Extends(a, Next(a, ev))
  {
    if ev.Decide? { DecisionJournaled(a, ev.outcome, ev.commit); }
    else if Step(a, ev).Ok? { RecordJournaled(a, ev); }
  }

  lemma SameTake<T>(s: seq<T>, t: seq<T>, n: nat)
    requires s <= t && n <= |s|
    ensures Take(s, n) == Take(t, n)
  {
  }

  /** The past does not change: what was held at an earlier point stays what was held then. */
  lemma PastIsFixed(a: Aggregate, b: Aggregate, n: nat)
    requires Journal(a) && Extends(a, b) && n <= |a.journal|
    ensures n <= |b.journal| && AsOf(b, n) == AsOf(a, n)
  {
    var j := a.journal[..n];
    assert b.journal[..n] == j;
    CountPrefix(a.journal, n, OfKind(ReceiptRecorded));
    CountPrefix(a.journal, n, OfKind(EffectObserved));
    CountPrefix(a.journal, n, OfKind(EffectReconciled));
    CountPrefix(a.journal, n, OfKind(EvidenceAttached));
    CountPrefix(a.journal, n, OfKind(VerificationRecorded));
    CountPrefix(a.journal, n, OfKind(CompensationRecorded));
    CountPrefix(a.journal, n, Decided());
    CountPrefix(a.journal, n, OfKind(Committed));
    SameTake(a.observations, b.observations, Count(j, OfKind(EffectObserved)));
    SameTake(a.reconciliations, b.reconciliations, Count(j, OfKind(EffectReconciled)));
    SameTake(a.evidence, b.evidence, Count(j, OfKind(EvidenceAttached)));
    SameTake(a.verifications, b.verifications, Count(j, OfKind(VerificationRecorded)));
    SameTake(a.compensations, b.compensations, Count(j, OfKind(CompensationRecorded)));
    SameTake(a.outcomes, b.outcomes, Count(j, Decided()));
    SameTake(a.commits, b.commits, Count(j, OfKind(Committed)));
  }

  lemma PresentIsNow(a: Aggregate)
    requires Journal(a)
    ensures AsOf(a, |a.journal|) == a
  {
    assert a.journal[..|a.journal|] == a.journal;
  }

  // ----- every run -----

  /** Where independence is recorded, the verifier id given differed from the receipt's provider. */
  ghost predicate Independence(a: Aggregate) {
    forall v :: v in a.verifications && v.independent ==> a.receipt.Some? && Differs(a.receipt.value, v)
  }

  /** At journal position `n` the aggregate justified the commit, which followed its accepted outcome. */
  ghost predicate CommittedAt(a: Aggregate, c: Commit, n: nat) {
    && n + 1 < |a.journal|
    && a.journal[n] == Entry(OutcomeAccepted, n + 1, c.outcome) && a.journal[n + 1] == Entry(Committed, n + 2, c.id)
    && AsOf(a, n).commits == []
    && exists v :: Justified(AsOf(a, n), v) && v.id == c.verification && Independence(AsOf(a, n))
  }

  ghost predicate AtMostOne(a: Aggregate) {
    |a.commits| <= 1 && (|a.commits| == 1 ==> exists n: nat :: CommittedAt(a, a.commits[0], n))
  }

  ghost predicate Inv(a: Aggregate) {
    Journal(a) && Independence(a) && AtMostOne(a)
  }

  lemma CommittedStays(a: Aggregate, b: Aggregate, c: Commit, n: nat)
    requires Journal(a) && Extends(a, b) && CommittedAt(a, c, n)
    ensures CommittedAt(b, c, n)
  {
    PastIsFixed(a, b, n);
    assert b.journal[n] == a.journal[n] && b.journal[n + 1] == a.journal[n + 1];
  }

  lemma DecisionEntries(a: Aggregate, outcome: int, commit: int)
    requires Accepts(a) && a.commits == []
    ensures var b, n := OnDecision(a, outcome, Some(commit)), |a.journal|;
      && b.commits == [CommitOf(a, outcome, commit)] && |b.journal| == n + 2
      && b.journal[n] == Entry(OutcomeAccepted, n + 1, outcome) && b.journal[n + 1] == Entry(Committed, n + 2, commit)
  {
    assert [] + [CommitOf(a, outcome, commit)] == [CommitOf(a, outcome, commit)];
  }

  lemma DecisionCommits(a: Aggregate, outcome: int, commit: int)
    requires Inv(a) && Accepts(a)
    ensures var b := OnDecision(a, outcome, Some(commit));
      |b.commits| == 1 && CommittedAt(b, b.commits[0], |a.journal|)
  {
    var b := OnDecision(a, outcome, Some(commit));
    AcceptsIff(a);
    DecisionEntries(a, outcome, commit);
    DecisionJournaled(a, outcome, Some(commit));
    PastIsFixed(a, b, |a.journal|);
    PresentIsNow(a);
    WasJustified(b, |a.journal|, a, SelectVerification(a).value);
  }

  lemma WasJustified(b: Aggregate, n: nat, a: Aggregate, v: Verification)
    requires n + 1 < |b.journal| && AsOf(b, n) == a && a.commits == [] && Justified(a, v) && Independence(a)
    requires |b.commits| == 1 && b.commits[0].verification == v.id
    requires b.journal[n] == Entry(OutcomeAccepted, n + 1, b.commits[0].outcome)
    requires b.journal[n + 1] == Entry(Committed, n + 2, b.commits[0].id)
    ensures CommittedAt(b, b.commits[0], n)
  {
    assert Justified(AsOf(b, n), v);
  }

  lemma StepKeepsIndependence(a: Aggregate, ev: Event)
    requires Independence(a)
    ensures Independence(Next(a, ev))
  {
    var b := Next(a, ev);
    forall v | v in b.verifications && v.independent ensures b.receipt.Some? && Differs(b.receipt.value, v) {
      if v !in a.verifications { assert ev.RecordVerification? && v == Checked(a, ev.verification); }
    }
  }

  lemma StepKeepsInv(a: Aggregate, ev: Event)
    requires Inv(a)
    ensures Inv(Next(a, ev))
  {
    var b := Next(a, ev);
    StepJournaled(a, ev);
    StepKeepsIndependence(a, ev);
    if ev.Decide? && Accepts(a) && ev.commit.Some? {
      DecisionCommits(a, ev.outcome, ev.commit.value);
    } else {
      SameCommits(a, ev);
      if |a.commits| == 1 {
        var n: nat :| CommittedAt(a, a.commits[0], n);
        CommittedStays(a, b, a.commits[0], n);
      }
    }
  }

  lemma SameCommits(a: Aggregate, ev: Event)
    requires Journal(a) && !(ev.Decide? && Accepts(a) && ev.commit.Some?)
    ensures Next(a, ev).commits == a.commits
  {
    if !ev.Decide? && Step(a, ev).Ok? { RecordJournaled(a, ev); }
  }

  lemma {:induction false} RunKeepsInv(a: Aggregate, events: seq<Event>)
    requires Inv(a)
    ensures Inv(After(a, events))
    decreases |events|
  {
    if events != [] {
      RunKeepsInv(a, events[..|events| - 1]);
      StepKeepsInv(After(a, events[..|events| - 1]), events[|events| - 1]);
    }
  }

  lemma CreatedInv(id: int, intent: int, plan: int, effects: seq<Effect>, allowed: (bool, bool, bool, bool), contract: Contract)
    ensures Inv(Create(id, intent, plan, effects, allowed, contract))
  {
    JournaledCounts([], IntentRecorded, intent);
    JournaledCounts(Journaled([], IntentRecorded, intent), PlanRecorded, plan);
    JournaledCounts(Journaled(Journaled([], IntentRecorded, intent), PlanRecorded, plan), ManifestCreated, id);
  }

  /**
   Whatever is recorded in whatever order, a manifest gets at most one semantic commit, right after its
   accepted outcome, and at that point every condition of the gate held.
   */
  lemma OneJustifiedCommit(id: int, intent: int, plan: int, effects: seq<Effect>, allowed: (bool, bool, bool, bool),
                           contract: Contract, events: seq<Event>)
    ensures var a := After(Create(id, intent, plan, effects, allowed, contract), events);
      && |a.commits| <= 1
      && (|a.commits| == 1 ==> allowed == (true, true, true, true) && exists n: nat :: CommittedAt(a, a.commits[0], n))
      && forall i :: 0 <= i < |a.journal| ==> a.journal[i].sequence == i + 1
  {
    CreatedInv(id, intent, plan, effects, allowed, contract);
    RunKeepsInv(Create(id, intent, plan, effects, allowed, contract), events);
    RunKeepsManifest(Create(id, intent, plan, effects, allowed, contract), events);
  }

  // ----- who counts as independent -----

  /** Independence recorded with a verification is independence from the receipt's provider. */
  ghost predicate OthersOnly(a: Aggregate) {
    forall v :: v in a.verifications && v.independent ==> a.receipt.Some? && a.receipt.value.provider != v.verifier
  }

  /** The receipt's own provider, its id padded with blanks, is recorded as an independent verifier. */
  predicate Impersonates(a: Aggregate, ev: Event) {
    && ev.RecordVerification? && Step(a, ev).Ok? && ev.verification.padded && ev.verification.independent
    && a.receipt.Some? && a.receipt.value.provider == ev.verification.verifier
  }

  lemma VerificationsGrow(a: Aggregate, ev: Event)
    requires Journal(a)
    ensures var b := Next(a, ev);
      && (a.receipt.Some? ==> b.receipt == a.receipt)
      && (forall v :: v in b.verifications <==>
            v in a.verifications || (ev.RecordVerification? && Step(a, ev).Ok? && v == Checked(a, ev.verification)))
  {
    StepJournaled(a, ev);
  }

  /** A call keeps the recorded independence real exactly when it is not such a call. */
  lemma StepKeepsOthersIff(a: Aggregate, ev: Event)
    requires Inv(a)
    ensures OthersOnly(Next(a, ev)) <==> OthersOnly(a) && !Impersonates(a, ev)
  {
    var b := Next(a, ev);
    VerificationsGrow(a, ev);
    if Impersonates(a, ev) { assert Checked(a, ev.verification) in b.verifications; }
    if OthersOnly(b) {
      forall v | v in a.verifications && v.independent ensures a.receipt.Some? && a.receipt.value.provider != v.verifier {
        assert v in b.verifications;
      }
    }
  }

  /** No call of the run is such a call. */
  ghost predicate Honest(a: Aggregate, events: seq<Event>)
    decreases |events|
  {
    events == [] || (Honest(a, events[..|events| - 1]) && !Impersonates(After(a, events[..|events| - 1]), events[|events| - 1]))
  }

  /**
   After any run, every verification recorded as independent names a verifier other than the receipt's provider
   if and only if no call of the run gave that provider's id padded with blanks and claimed independence.
   */
  lemma {:induction false} OthersOnlyIff(a: Aggregate, events: seq<Event>)
    requires Inv(a) && OthersOnly(a)
    ensures OthersOnly(After(a, events)) <==> Honest(a, events)
    decreases |events|
  {
    if events != [] {
      var init := events[..|events| - 1];
      OthersOnlyIff(a, init);
      RunKeepsInv(a, init);
      StepKeepsOthersIff(After(a, init), events[|events| - 1]);
    }
  }

  /** In such a run a commit under a contract that demands independence rests on another verifier than the provider. */
  lemma CommitIsIndependent(id: int, intent: int, plan: int, effects: seq<Effect>, allowed: (bool, bool, bool, bool),
                            contract: Contract, events: seq<Event>) returns (n: nat, v: Verification)
    requires contract.independent && Honest(Create(id, intent, plan, effects, allowed, contract), events)
    requires |After(Create(id, intent, plan, effects, allowed, contract), events).commits| == 1
    ensures var a := After(Create(id, intent, plan, effects, allowed, contract), events);
      && CommittedAt(a, a.commits[0], n) && Justified(AsOf(a, n), v) && v.id == a.commits[0].verification
      && AsOf(a, n).receipt.Some? && AsOf(a, n).receipt.value.provider != v.verifier
  {
    var start := Create(id, intent, plan, effects, allowed, contract);
    var a := After(start, events);
    CreatedInv(id, intent, plan, effects, allowed, contract);
    RunKeepsInv(start, events);
    OthersOnlyIff(start, events);
    RunKeepsManifest(start, events);
    n :| CommittedAt(a, a.commits[0], n);
    v :| Justified(AsOf(a, n), v) && v.id == a.commits[0].verification;
    JustifiedByOther(a, n, v);
  }

  lemma JustifiedByOther(a: Aggregate, n: nat, v: Verification)
    requires n <= |a.journal| && OthersOnly(a) && a.manifest.contract.independent && Justified(AsOf(a, n), v)
    ensures AsOf(a, n).receipt.Some? && AsOf(a, n).receipt.value.provider != v.verifier
  {
    assert v in a.verifications;
  }

  lemma {:induction false} RunKeepsManifest(a: Aggregate, events: seq<Event>)
    requires Inv(a)
    ensures After(a, events).manifest == a.manifest
    decreases |events|
  {
    if events != [] {
      var init := events[..|events| - 1];
      RunKeepsManifest(a, init);
      RunKeepsInv(a, init);
      StepJournaled(After(a, init), events[|events| - 1]);
    }
  }

  /** Padding decides: the only difference is whether a contract that demands independence is satisfied. */
  lemma PaddingDecides(a: Aggregate, v: Verification)
    requires a.receipt.Some? && a.receipt.value.provider == v.verifier && v.independent && a.manifest.contract.independent
    ensures !Satisfies(a.manifest.contract, Checked(a, v.(padded := false)))
    ensures Satisfies(a.manifest.contract, Checked(a, v.(padded := true))) <==> Satisfies(a.manifest.contract, v)
  {
    assert Satisfies(a.manifest.contract, Checked(a, v.(padded := true))) ==> Satisfies(a.manifest.contract, v);
  }

  const STRICT := Contract([], true, 0.0, 0, 1)

  /** A run in which the provider verifies its own work under a padded id, and the work is committed. */
  lemma PaddedVerifierCommits(provider: int)
    ensures var v := Verification(5, provider, true, Verified, true, [], 1, 0.0, 0, true);
      var a := After(Create(1, 2, 3, [], (true, true, true, true), STRICT),
                     [RecordReceipt(Receipt(4, provider, true)), RecordVerification(v), Decide(6, Some(7))]);
      && |a.commits| == 1 && a.commits[0].verification == 5
      && v in a.verifications && a.receipt.Some? && a.receipt.value.provider == v.verifier && !OthersOnly(a)
  {
    var v := Verification(5, provider, true, Verified, true, [], 1, 0.0, 0, true);
    var start := Create(1, 2, 3, [], (true, true, true, true), STRICT);
    var events := [RecordReceipt(Receipt(4, provider, true)), RecordVerification(v), Decide(6, Some(7))];
    var received := OnReceipt(start, Receipt(4, provider, true)).value;
    var verified := OnVerification(received, v).value;
    assert events[..2] == [events[0], events[1]] && events[..2][..1] == [events[0]] && [events[0]][..0] == [];
    assert After(start, events[..2][..1]) == received;
    assert After(start, events[..2]) == verified;
    PaddedIsAccepted(verified, v);
  }

  lemma PaddedIsAccepted(a: Aggregate, v: Verification)
    requires a.commits == [] && a.manifest.authorized && a.manifest.effects == [] && a.manifest.contract == STRICT
    requires a.receipt.Some? && a.receipt.value.succeeded && a.verifications == [v] && Satisfies(STRICT, v) && v.cost == 0.0
    ensures Accepts(a) && SelectVerification(a) == Some(v)
  {
    assert [v][..0] == [];
    assert Spent([v], 0) == Spent([], 0) + (if v.currency == 0 then v.cost else 0.0);
    assert Justified(a, v);
    AcceptsIff(a);
  }

  // ----- accepted outcomes and commits -----

  function AcceptedOnes(): Outcome -> bool {
    (o: Outcome) => o.accepted
  }

  /** As many commits as accepted outcomes. */
  ghost predicate Paired(a: Aggregate) {
    |Filter(a.outcomes, AcceptedOnes())| == |a.commits|
  }

  /** A call keeps outcomes and commits paired exactly when it does not accept with a malformed commit id. */
  lemma PairedIff(a: Aggregate, ev: Event)
    requires Journal(a) && Paired(a)
    ensures Paired(Next(a, ev)) <==> !(ev.Decide? && Accepts(a) && ev.commit.None?)
  {
    if ev.Decide? {
      var o := OutcomeOf(a, ev.outcome);
      FilterAppend(a.outcomes, [o], AcceptedOnes());
      assert [o][1..] == [];
    } else if Step(a, ev).Ok? {
      RecordJournaled(a, ev);
    }
  }

  /** What justifies a commit does not depend on outcomes and journal. */
  lemma JustifiedStays(a: Aggregate, b: Aggregate, v: Verification)
    requires Justified(a, v) && b == a.(outcomes := b.outcomes, journal := b.journal)
    ensures Justified(b, v)
  {
    forall e | e in b.manifest.effects
      ensures (exists o :: o in b.observations && o.effect == e.id) && LastStatus(b, e.id, Confirmed)
    {
      assert (exists o :: o in a.observations && o.effect == e.id) && LastStatus(a, e.id, Confirmed);
    }
  }

  /** After such a call the manifest has an accepted outcome, no commit, and may be accepted again. */
  lemma MalformedCommitLeavesAccepted(a: Aggregate, outcome: int)
    requires Journal(a) && Accepts(a)
    ensures var b := OnDecision(a, outcome, None);
      && b.commits == [] && b.outcomes != [] && b.outcomes[|b.outcomes| - 1].accepted && Accepts(b)
  {
    var b := OnDecision(a, outcome, None);
    AcceptsIff(a);
    JustifiedStays(a, b, SelectVerification(a).value);
    AcceptsIff(b);
  }

  // ----- the aggregate object -----

  class ExecutionAggregate {
    const manifest: Manifest
    var receipt: Option<Receipt>
    var observations: seq<Observation>
    var reconciliations: seq<Reconciliation>
    var evidence: seq<int>
    var verifications: seq<Verification>
    var compensations: seq<int>
    var outcomes: seq<Outcome>
    var commits: seq<Commit>
    var journal: seq<Entry>

    function State(): Aggregate
      reads this
    {
      Aggregate(manifest, receipt, observations, reconciliations, evidence, verifications, compensations, outcomes, commits, journal)
    }

    constructor (id: int, intent: int, plan: int, effects: seq<Effect>, allowed: (bool, bool, bool, bool), contract: Contract)
      ensures State() == Create(id, intent, plan, effects, allowed, contract) && Inv(State())
    {
      manifest := Manifest(id, effects, allowed.0 && allowed.1 && allowed.2 && allowed.3, contract);
      receipt, observations, reconciliations, evidence := None, [], [], [];
      verifications, compensations, outcomes, commits, journal := [], [], [], [], [];
      new;
      AppendEntry(IntentRecorded, intent);
      AppendEntry(PlanRecorded, plan);
      AppendEntry(ManifestCreated, id);
      CreatedInv(id, intent, plan, effects, allowed, contract);
    }

    /** `createManifest`: the effects of a plan have distinct ids. */
    static method CreateManifest(id: int, intent: int, plan: int, effects: seq<Effect>, allowed: (bool, bool, bool, bool), contract: Contract)
      returns (aggregate: ExecutionAggregate?, thrown: Option<EffectError>)
      ensures DistinctEffects(effects) <==> thrown == None
      ensures thrown.Some? ==> exists i, j :: 0 <= i < j < |effects| && effects[i].id == effects[j].id && thrown == Some(DuplicateEffect(effects[j].id))
      ensures DistinctEffects(effects) <==> aggregate != null
      ensures aggregate != null ==> fresh(aggregate) && aggregate.State() == Create(id, intent, plan, effects, allowed, contract)
      ensures aggregate != null ==> Fresh(aggregate.State(), id, intent, plan, effects, allowed, contract)
    {
      var ids: set<int> := {};
      for i := 0 to |effects|
        invariant forall x :: x in ids <==> exists j :: 0 <= j < i && effects[j].id == x
        invariant DistinctEffects(effects[..i])
      {
        if effects[i].id in ids { return null, Some(DuplicateEffect(effects[i].id)); }
        ids := ids + {effects[i].id};
      }
      assert effects[..|effects|] == effects;
      aggregate := new ExecutionAggregate(id, intent, plan, effects, allowed, contract);
      CreatedFresh(id, intent, plan, effects, allowed, contract);
      thrown := None;
    }

    method AppendEntry(kind: Kind, record: int)
      modifies this`journal
      ensures journal == Journaled(old(journal), kind, record)
    {
      journal := journal + [Entry(kind, |journal| + 1, record)];
    }

    method RecordReceipt(r: Receipt) returns (thrown: Option<EffectError>)
      modifies this
      ensures match OnReceipt(old(State()), r)
        case Ok(b) => thrown == None && State() == b
        case Err(e) => thrown == Some(e) && State() == old(State())
      ensures Answered(old(State()), State(), Event.RecordReceipt(r), thrown)
    {
      ReceiptAnswered(State(), r);
      if !manifest.authorized { return Some(BlockedManifest); }
      if receipt.Some? { return Some(ReceiptExists); }
      receipt := Some(r);
      AppendEntry(ReceiptRecorded, r.id);
      return None;
    }

    method ObserveEffect(o: Observation, class': EffectClass) returns (thrown: Option<EffectError>)
      modifies this
      ensures match OnObservation(old(State()), o, class')
        case Ok(b) => thrown == None && State() == b
        case Err(e) => thrown == Some(e) && State() == old(State())
      ensures Answered(old(State()), State(), Event.ObserveEffect(o, class'), thrown)
    {
      ObservationAnswered(State(), o, class');
      var expected := FindEffect(manifest.effects, o.effect);
      if expected.None? { return Some(UnknownEffect(o.effect)); }
      if expected.value.class' != class' { return Some(ClassMismatch); }
      if exists i :: 0 <= i < |observations| && observations[i].id == o.id { return Some(DuplicateRecord(o.id)); }
      observations := observations + [o];
      AppendEntry(EffectObserved, o.id);
      return None;
    }

    method ReconcileEffect(r: Reconciliation) returns (thrown: Option<EffectError>)
      modifies this
      ensures match OnReconciliation(old(State()), r)
        case Ok(b) => thrown == None && State() == b
        case Err(e) => thrown == Some(e) && State() == old(State())
      ensures Answered(old(State()), State(), Event.Reconcile(r), thrown)
    {
      ReconciliationAnswered(State(), r);
      if FindEffect(manifest.effects, r.effect).None? { return Some(UnknownEffect(r.effect)); }
      var observed := FindObservation(observations, r.observation);
      if observed.None? || observed.value.effect != r.effect { return Some(ObservationMismatch); }
      if exists i :: 0 <= i < |reconciliations| && reconciliations[i].id == r.id { return Some(DuplicateRecord(r.id)); }
      reconciliations := reconciliations + [r];
      AppendEntry(EffectReconciled, r.id);
      return None;
    }

    method AttachEvidence(id: int) returns (thrown: Option<EffectError>)
      modifies this
      ensures match OnEvidence(old(State()), id)
        case Ok(b) => thrown == None && State() == b
        case Err(e) => thrown == Some(e) && State() == old(State())
      ensures Answered(old(State()), State(), Event.AttachEvidence(id), thrown)
    {
      EvidenceAnswered(State(), id);
      if id in evidence { return Some(DuplicateRecord(id)); }
      evidence := evidence + [id];
      AppendEntry(EvidenceAttached, id);
      return None;
    }

    method RecordVerification(v: Verification) returns (thrown: Option<EffectError>)
      modifies this
      ensures match OnVerification(old(State()), v)
        case Ok(b) => thrown == None && State() == b
        case Err(e) => thrown == Some(e) && State() == old(State())
      ensures Answered(old(State()), State(), Event.RecordVerification(v), thrown)
    {
      VerificationAnswered(State(), v);
      if v.attempt < 1 { return Some(InvalidAttempt); }
      if v.cost < 0.0 { return Some(InvalidCost); }
      if exists i :: 0 <= i < |verifications| && verifications[i].id == v.id { return Some(DuplicateRecord(v.id)); }
      var independent := v.independent && receipt.Some? && Differs(receipt.value, v);
      verifications := verifications + [v.(independent := independent)];
      AppendEntry(VerificationRecorded, v.id);
      return None;
    }

    method RecordCompensation(id: int, effect: int) returns (thrown: Option<EffectError>)
      modifies this
      ensures match OnCompensation(old(State()), id, effect)
        case Ok(b) => thrown == None && State() == b
        case Err(e) => thrown == Some(e) && State() == old(State())
      ensures Answered(old(State()), State(), Event.RecordCompensation(id, effect), thrown)
    {
      CompensationAnswered(State(), id, effect);
      var expected := FindEffect(manifest.effects, effect);
      if expected.None? { return Some(UnknownEffect(effect)); }
      if expected.value.class' != External { return Some(NotExternal); }
      if id in compensations { return Some(DuplicateRecord(id)); }
      compensations := compensations + [id];
      AppendEntry(CompensationRecorded, id);
      return None;
    }

    /** `selectVerification`: the budget first, then the verifications from the newest. */
    method Select() returns (selected: Option<Verification>, reasons: set<Reason>)
      ensures selected == SelectVerification(State()) && reasons == VerificationReasons(State())
      ensures match selected case Some(v) => Selected(State(), v) case None => forall v :: !Selected(State(), v)
    {
      SelectedIs(State());
      var contract := manifest.contract;
      reasons, selected := {}, None;
      if Spent(verifications, contract.currency) > contract.maximumCost { return None, {BudgetExceeded}; }
      var n := |verifications|;
      assert verifications[..n] == verifications;
      while n > 0
        invariant n <= |verifications|
        invariant Latest(contract, verifications) == Latest(contract, verifications[..n])
        invariant reasons == ObjectionsFrom(contract, verifications, n)
        invariant forall i :: n <= i < |verifications| ==> Objection(contract, verifications[i]).Some?
      {
        var result := verifications[n - 1];
        assert verifications[..n][..n - 1] == verifications[..n - 1];
        var objection := Objection(contract, result);
        if objection.None? { return Some(result), {}; }
        ObjectionAdded(contract, verifications, n);
        reasons := reasons + {objection.value};
        n := n - 1;
      }
      if verifications == [] { reasons := {MissingVerification}; }
    }

    method EffectLoop() returns (reasons: set<Reason>)
      ensures reasons == AllEffectReasons(State(), manifest.effects)
    {
      reasons := {};
      for i := 0 to |manifest.effects|
        invariant reasons == AllEffectReasons(State(), manifest.effects[..i])
      {
        assert manifest.effects[..i + 1][..i] == manifest.effects[..i];
        reasons := reasons + EffectReasons(State(), manifest.effects[i]);
      }
      assert manifest.effects[..|manifest.effects|] == manifest.effects;
    }

    method EvidenceLoop() returns (reasons: set<Reason>)
      ensures reasons == EvidenceReasons(manifest.contract.requiredEvidence, evidence)
    {
      var required := manifest.contract.requiredEvidence;
      reasons := {};
      for i := 0 to |required|
        invariant reasons == EvidenceReasons(required[..i], evidence)
      {
        MissingSnoc(required[..i], required[i], evidence);
        assert required[..i + 1] == required[..i] + [required[i]];
        if required[i] !in evidence { reasons := reasons + {MissingEvidence(required[i])}; }
      }
      assert required[..|required|] == required;
    }

    /** `commitId` is absent when it is malformed: the outcome has been recorded by then. */
    method DecideOutcome(outcomeId: int, commitId: Option<int>) returns (outcome: Outcome, thrown: Option<EffectError>)
      modifies this
      ensures outcome == OutcomeOf(old(State()), outcomeId)
      ensures State() == OnDecision(old(State()), outcomeId, commitId)
      ensures outcome.id == outcomeId && DecidedAs(old(State()), State(), outcome, commitId)
      ensures thrown == if outcome.accepted && commitId.None? then Some(MalformedCommitId) else None
    {
      var effectReasons := EffectLoop();
      var evidenceReasons := EvidenceLoop();
      var verification, verificationReasons := Select();
      outcome := OutcomeOf(State(), outcomeId);
      assert outcome.reasons == (if commits != [] then {AlreadyCommitted} else {})
        + (if manifest.authorized then {} else {NotAuthorized})
        + (if receipt.Some? && receipt.value.succeeded then {} else {NotSucceeded})
        + effectReasons + evidenceReasons + verificationReasons;
      outcomes := outcomes + [outcome];
      AppendEntry(if outcome.accepted then OutcomeAccepted else OutcomeRejected, outcomeId);
      assert State() == WithOutcome(old(State()), outcomeId);
      thrown := None;
      if outcome.accepted {
        if commitId.None? {
          thrown := Some(MalformedCommitId);
        } else {
          commits := commits + [Commit(commitId.value, outcomeId, verification.value.id, (set e | e in evidence), SemanticIds(manifest.effects))];
          AppendEntry(Committed, commitId.value);
        }
      }
      DecisionMeans(old(State()), outcomeId, commitId);
    }
  }

  function ObjectionsFrom(c: Contract, verifications: seq<Verification>, n: nat): set<Reason>
    requires n <= |verifications|
  {
    set i | n <= i < |verifications| && Objection(c, verifications[i]).Some? :: Objection(c, verifications[i]).value
  }

  lemma ObjectionAdded(c: Contract, verifications: seq<Verification>, n: nat)
    requires 0 < n <= |verifications| && Objection(c, verifications[n - 1]).Some?
    ensures ObjectionsFrom(c, verifications, n - 1) ==
            ObjectionsFrom(c, verifications, n) + {Objection(c, verifications[n - 1]).value}
  {
  }

  lemma MissingSnoc(required: seq<int>, r: int, evidence: seq<int>)
    ensures EvidenceReasons(required + [r], evidence) ==
            EvidenceReasons(required, evidence) + if r in evidence then {} else {MissingEvidence(r)}
  {
    var all, some := EvidenceReasons(required + [r], evidence), EvidenceReasons(required, evidence);
    forall x: int ensures MissingEvidence(x) in all <==> MissingEvidence(x) in some || (x == r && r !in evidence) {
      MissingListed(required + [r], evidence, x);
      MissingListed(required, evidence, x);
    }
    SameMissing(all, some + if r in evidence then {} else {MissingEvidence(r)});
  }

  lemma SameMissing(s: set<Reason>, t: set<Reason>)
    requires forall x :: x in s ==> x.MissingEvidence?
    requires forall x :: x in t ==> x.MissingEvidence?
    requires forall x :: MissingEvidence(x) in s <==> MissingEvidence(x) in t
    ensures s == t
  {
    forall x ensures x in s <==> x in t {
      if x.MissingEvidence? { assert x == MissingEvidence(x.evidence); }
    }
  }
}
