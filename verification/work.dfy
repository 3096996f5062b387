/**
 packages/work: the registry of governed work. Operations carry an optimistic version and a
 per-workspace ledger sequence; `replay` re-applies a history sorted by (workspace, sequence),
 which is not the order the operations were made in.
 */
module Work {
  import opened Wrappers
  import opened Collections
  import opened Sorting
  import Replay

  type Context = map<int, int>

  datatype Participant = Participant(principalId: int, kind: int)

  datatype Roles = Roles(workOwners: seq<int>, decisionAuthorities: seq<int>, reviewers: seq<int>, approvers: seq<int>)

  datatype Outcome = Outcome(id: int, value: int, recordedBy: int, recordedAt: int)

  datatype Instance = Instance(
    id: int, workspaceId: int, intent: int, version: int, participants: seq<Participant>, roles: Roles,
    context: Context, episodeIds: seq<int>, activityIds: seq<int>, assignmentIds: seq<int>,
    outcomes: seq<Outcome>, createdAt: int)

  datatype Episode = Episode(
    id: int, workspaceId: int, workInstanceId: int, sequence: int, objective: int,
    startedBy: int, context: Context, startedAt: int)

  datatype ActivityStatus = Planned | Running | Paused

  datatype Activity = Activity(
    id: int, activityType: int, workspaceId: int, workInstanceId: int, workEpisodeId: int,
    status: ActivityStatus, context: Context, createdBy: int, createdAt: int)

  datatype ChangeKind = HandOff | TakeOver | GiveBack | Suspend | Resume

  datatype TransitionKind = Assigned | Changed(kind: ChangeKind)

  datatype Transition = Transition(
    kind: TransitionKind, actor: int, authorization: int, from: Option<Participant>, to: Participant,
    context: Context, at: int)

  datatype AssignmentStatus = Active | Suspended

  datatype Assignment = Assignment(
    id: int, workspaceId: int, workInstanceId: int, activityId: int, assignee: Participant,
    previousAssignee: Option<Participant>, status: AssignmentStatus, context: Context,
    transitions: seq<Transition>)

  datatype Body =
    | InstanceCreated(instance: Instance)
    | EpisodeStarted(episode: Episode)
    | ActivityAdded(activity: Activity)
    | ActivityAssigned(assignment: Assignment)
    | AssignmentChanged(kind: ChangeKind, assignmentId: int, authorization: int, to: Option<Participant>, context: Context)
    | OutcomeRecorded(outcome: Outcome)

  /** `expectedVersion` is not read for a creation. */
  datatype Operation = Operation(
    id: int, ledgerSequence: int, workspaceId: int, workInstanceId: int, actor: int, at: int,
    expectedVersion: int, body: Body)

  datatype Entry = Entry(
    id: int, sequence: int, workspaceId: int, workInstanceId: int, actor: int,
    episodeId: Option<int>, activityId: Option<int>, assignmentId: Option<int>, at: int)

  datatype WorkError =
    | InvalidOperation
    | DuplicateOperation
    | DuplicateSequence
    | DuplicateId
    | MissingInstance
    | OutsideWorkspace
    | VersionConflict
    | NotAParticipant
    | WrongInstance
    | MissingReference
    | NotTheAssignee
    | MissingTarget
    | NoPreviousAssignee
    | WrongStatus
    | InvalidInput

  /** Everything the registry stores except the list of operations itself. */
  datatype Core = Core(
    instances: map<int, Instance>, episodes: map<int, Episode>, activities: map<int, Activity>,
    assignments: map<int, Assignment>, streams: map<int, seq<Entry>>,
    operationIds: set<int>, ledgerSequences: set<(int, int)>, lastSequence: map<int, int>)

  const EMPTY: Core := Core(map[], map[], map[], map[], map[], {}, {}, map[])

  // ----- one operation, as a function of the stored state -----

  datatype Update<V> = Keep | Set(key: int, value: V)

  function Put<V>(m: map<int, V>, u: Update<V>): map<int, V> {
    if u.Set? then m[u.key := u.value] else m
  }

  /** What one accepted operation writes. */
  datatype Effect = Effect(key: int, instance: Instance, episode: Update<Episode>, activity: Update<Activity>, assignment: Update<Assignment>)

  predicate Names(participants: seq<Participant>, principal: int) {
    exists i :: 0 <= i < |participants| && participants[i].principalId == principal
  }

  /** `find` by principal, then compare kinds. */
  predicate Registered(participants: seq<Participant>, p: Participant) {
    exists i :: 0 <= i < |participants| && participants[i] == p &&
                forall j :: 0 <= j < i ==> participants[j].principalId != p.principalId
  }

  function Advance(i: Instance): Instance {
    i.(version := i.version + 1)
  }

  function PlanEpisode(s: Core, i: Instance, e: Episode): Result<Effect, WorkError> {
    if e.id in s.episodes then Err(DuplicateId)
    else if !Names(i.participants, e.startedBy) then Err(NotAParticipant)
    else if e.workspaceId != i.workspaceId then Err(OutsideWorkspace)
    else if e.workInstanceId != i.id then Err(WrongInstance)
    else Ok(Effect(i.id, Advance(i.(episodeIds := i.episodeIds + [e.id])), Set(e.id, e), Keep, Keep))
  }

  function PlanActivity(s: Core, i: Instance, a: Activity): Result<Effect, WorkError> {
    if a.id in s.activities then Err(DuplicateId)
    else if !Names(i.participants, a.createdBy) then Err(NotAParticipant)
    else if a.workspaceId != i.workspaceId then Err(OutsideWorkspace)
    else if a.workInstanceId != i.id then Err(WrongInstance)
    else if a.workEpisodeId !in s.episodes || s.episodes[a.workEpisodeId].workInstanceId != i.id then Err(MissingReference)
    else Ok(Effect(i.id, Advance(i.(activityIds := i.activityIds + [a.id])), Keep, Set(a.id, a), Keep))
  }

  function PlanAssignment(s: Core, i: Instance, a: Assignment): Result<Effect, WorkError> {
    if a.id in s.assignments then Err(DuplicateId)
    else if a.workspaceId != i.workspaceId then Err(OutsideWorkspace)
    else if a.workInstanceId != i.id then Err(WrongInstance)
    else if !Registered(i.participants, a.assignee) then Err(NotAParticipant)
    else if a.activityId !in s.activities || s.activities[a.activityId].workInstanceId != i.id then Err(MissingReference)
    else
      var activity := s.activities[a.activityId];
      Ok(Effect(i.id, Advance(i.(assignmentIds := i.assignmentIds + [a.id])), Keep,
                Set(activity.id, activity.(status := Running)), Set(a.id, a)))
  }

  /** Assignee, previous assignee and status after a change; the checks are the branch's own. */
  function PlanCustody(i: Instance, a: Assignment, kind: ChangeKind, to: Option<Participant>)
    : Result<(Participant, Option<Participant>, AssignmentStatus), WorkError>
  {
    match kind
    case HandOff | TakeOver =>
      if to.None? then Err(MissingTarget)
      else if !Registered(i.participants, to.value) then Err(NotAParticipant)
      else Ok((to.value, Some(a.assignee), Active))
    case GiveBack =>
      if a.previousAssignee.None? then Err(NoPreviousAssignee)
      else Ok((a.previousAssignee.value, Some(a.assignee), Active))
    case Suspend =>
      if a.status != Active then Err(WrongStatus) else Ok((a.assignee, a.previousAssignee, Suspended))
    case Resume =>
      if a.status != Suspended then Err(WrongStatus) else Ok((a.assignee, a.previousAssignee, Active))
  }

  function ChangedAssignment(a: Assignment, op: Operation, assignee: Participant, previous: Option<Participant>, status: AssignmentStatus): Assignment
    requires op.body.AssignmentChanged?
  {
    var from := if a.assignee.principalId == assignee.principalId then None else Some(a.assignee);
    var t := Transition(Changed(op.body.kind), op.actor, op.body.authorization, from, assignee, op.body.context, op.at);
    a.(assignee := assignee, previousAssignee := previous, status := status,
       context := a.context + op.body.context, transitions := a.transitions + [t])
  }

  function PlanChange(s: Core, i: Instance, op: Operation): Result<Effect, WorkError>
    requires op.body.AssignmentChanged?
  {
    if op.body.assignmentId !in s.assignments then Err(MissingReference)
    else
      var a := s.assignments[op.body.assignmentId];
      if a.workspaceId != i.workspaceId then Err(OutsideWorkspace)
      else if a.workInstanceId != i.id then Err(WrongInstance)
      else if op.body.kind != TakeOver && a.assignee.principalId != op.actor then Err(NotTheAssignee)
      else match PlanCustody(i, a, op.body.kind, op.body.to)
        case Err(e) => Err(e)
        case Ok((assignee, previous, status)) =>
          if a.activityId !in s.activities then Err(MissingReference)  // cannot happen in a reachable registry
          else
            var activity := s.activities[a.activityId];
            Ok(Effect(i.id, Advance(i), Keep,
                      Set(activity.id, activity.(status := if status == Suspended then Paused else Running)),
                      Set(a.id, ChangedAssignment(a, op, assignee, previous, status))))
  }

  function PlanOutcome(i: Instance, o: Outcome): Result<Effect, WorkError> {
    if exists k :: 0 <= k < |i.outcomes| && i.outcomes[k].id == o.id then Err(DuplicateId)
    else if !Names(i.participants, o.recordedBy) then Err(NotAParticipant)
    else Ok(Effect(i.id, Advance(i.(outcomes := i.outcomes + [o])), Keep, Keep, Keep))
  }

  function Plan(s: Core, op: Operation): Result<Effect, WorkError> {
    if op.body.InstanceCreated? then
      if op.workInstanceId in s.instances then Err(DuplicateId)
      else Ok(Effect(op.workInstanceId, op.body.instance, Keep, Keep, Keep))
    else if op.workInstanceId !in s.instances then Err(MissingInstance)
    else
      var i := s.instances[op.workInstanceId];
      if i.workspaceId != op.workspaceId then Err(OutsideWorkspace)
      else if op.expectedVersion != i.version then Err(VersionConflict)
      else if !Names(i.participants, op.actor) then Err(NotAParticipant)
      else match op.body
        case EpisodeStarted(e) => PlanEpisode(s, i, e)
        case ActivityAdded(a) => PlanActivity(s, i, a)
        case ActivityAssigned(a) => PlanAssignment(s, i, a)
        case AssignmentChanged(_, _, _, _, _) => PlanChange(s, i, op)
        case OutcomeRecorded(o) => PlanOutcome(i, o)
  }

  function EntryFor(op: Operation, sequence: int): Entry {
    var episode := match op.body
      case EpisodeStarted(e) => Some(e.id)
      case ActivityAdded(a) => Some(a.workEpisodeId)
      case _ => None;
    var activity := match op.body
      case ActivityAdded(a) => Some(a.id)
      case ActivityAssigned(a) => Some(a.activityId)
      case _ => None;
    var assignment := match op.body
      case ActivityAssigned(a) => Some(a.id)
      case AssignmentChanged(_, id, _, _, _) => Some(id)
      case _ => None;
    Entry(op.id, sequence, op.workspaceId, op.workInstanceId, op.actor, episode, activity, assignment, op.at)
  }

  function Stream(s: Core, instance: int): seq<Entry> {
    if instance in s.streams then s.streams[instance] else []
  }

  function LastSequence(s: Core, workspace: int): int {
    if workspace in s.lastSequence then s.lastSequence[workspace] else 0
  }

  function Max(a: int, b: int): int { if a < b then b else a }

  function Merge(s: Core, op: Operation, e: Effect): Core {
    var stream := Stream(s, op.workInstanceId);
    Core(s.instances[e.key := e.instance], Put(s.episodes, e.episode), Put(s.activities, e.activity),
         Put(s.assignments, e.assignment),
         s.streams[op.workInstanceId := stream + [EntryFor(op, |stream| + 1)]],
         s.operationIds + {op.id}, s.ledgerSequences + {(op.workspaceId, op.ledgerSequence)},
         s.lastSequence[op.workspaceId := Max(LastSequence(s, op.workspaceId), op.ledgerSequence)])
  }

  function Admit(s: Core, op: Operation): Option<WorkError> {
    if op.ledgerSequence < 1 || (!op.body.InstanceCreated? && op.expectedVersion < 1) then Some(InvalidOperation)
    else if op.id in s.operationIds then Some(DuplicateOperation)
    else if (op.workspaceId, op.ledgerSequence) in s.ledgerSequences then Some(DuplicateSequence)
    else None
  }

  function Apply(s: Core, op: Operation): Result<Core, WorkError> {
    match Admit(s, op)
    case Some(e) => Err(e)
    case None =>
      match Plan(s, op)
      case Err(e) => Err(e)
      case Ok(effect) => Ok(Merge(s, op, effect))
  }

  function Run(s: Core, ops: seq<Operation>): Result<Core, WorkError> {
    Replay.Run(Apply, s, ops)
  }

  // ----- what every reachable state satisfies -----

  ghost predicate DistinctPrincipals(participants: seq<Participant>) {
    forall i, j :: 0 <= i < j < |participants| ==> participants[i].principalId != participants[j].principalId
  }

  /** How the public methods build an operation's payload. */
  ghost predicate WellFormed(op: Operation) {
    match op.body
    case InstanceCreated(i) =>
      && i.id == op.workInstanceId && i.workspaceId == op.workspaceId && i.version == 1
      && i.episodeIds == [] && i.activityIds == [] && i.assignmentIds == [] && i.outcomes == []
      && DistinctPrincipals(i.participants)
    case ActivityAssigned(a) =>
      && a.status == Active && a.previousAssignee == None && |a.transitions| == 1
      && a.transitions[0].kind == Assigned && a.transitions[0].from == None && a.transitions[0].to == a.assignee
    case _ => true
  }

  /** An unbroken custody chain among the registered participants, ending in the assignee. */
  ghost predicate Custody(a: Assignment, participants: seq<Participant>) {
    var ts := a.transitions;
    && |ts| >= 1 && ts[0].kind == Assigned && ts[0].from == None
    && ts[|ts| - 1].to == a.assignee
    && (forall k :: 1 <= k < |ts| ==> ts[k].kind.Changed? && Passed(ts[k - 1].to, ts[k]))
    && (forall k :: 0 <= k < |ts| ==> ts[k].to in participants)
    && (a.previousAssignee.Some? ==> a.previousAssignee.value in participants)
    && (a.status == Suspended <==> ts[|ts| - 1].kind == Changed(Suspend))
  }

  /** The holder either stays or passes the work on, and then is named as the one it came from. */
  ghost predicate Passed(holder: Participant, t: Transition) {
    match t.from
    case None => t.to == holder
    case Some(p) => p == holder && t.to.principalId != holder.principalId
  }

  ghost predicate StreamMatches(s: Core, id: int)
    requires id in s.instances
  {
    var stream := Stream(s, id);
    |stream| == s.instances[id].version && forall k :: 0 <= k < |stream| ==> stream[k].sequence == k + 1
  }

  ghost predicate InstancesOk(s: Core) {
    forall id :: id in s.instances ==>
      s.instances[id].id == id && DistinctPrincipals(s.instances[id].participants) && StreamMatches(s, id)
  }

  ghost predicate OwnedBy(s: Core, instance: int, workspace: int) {
    instance in s.instances && s.instances[instance].workspaceId == workspace
  }

  ghost predicate EpisodesOk(s: Core) {
    forall id :: id in s.episodes ==>
      s.episodes[id].id == id && OwnedBy(s, s.episodes[id].workInstanceId, s.episodes[id].workspaceId)
  }

  ghost predicate ActivitiesOk(s: Core) {
    forall id :: id in s.activities ==>
      s.activities[id].id == id && OwnedBy(s, s.activities[id].workInstanceId, s.activities[id].workspaceId)
  }

  ghost predicate AssignmentOk(s: Core, a: Assignment) {
    && OwnedBy(s, a.workInstanceId, a.workspaceId)
    && a.activityId in s.activities && s.activities[a.activityId].workInstanceId == a.workInstanceId
    && Custody(a, s.instances[a.workInstanceId].participants)
  }

  ghost predicate AssignmentsOk(s: Core) {
    forall id :: id in s.assignments ==> s.assignments[id].id == id && AssignmentOk(s, s.assignments[id])
  }

  ghost predicate Inv(s: Core) {
    s.streams.Keys <= s.instances.Keys && InstancesOk(s) && EpisodesOk(s) && ActivitiesOk(s) && AssignmentsOk(s)
  }

  // ----- every accepted operation keeps the invariant -----

  lemma RegisteredIsParticipant(participants: seq<Participant>, p: Participant)
    requires Registered(participants, p)
    ensures p in participants
  {
  }

  lemma SamePrincipalSameParticipant(participants: seq<Participant>, p: Participant, q: Participant)
    requires DistinctPrincipals(participants) && p in participants && q in participants
    requires p.principalId == q.principalId
    ensures p == q
  {
    var i :| 0 <= i < |participants| && participants[i] == p;
    var j :| 0 <= j < |participants| && participants[j] == q;
  }

  lemma CustodyExtends(i: Instance, a: Assignment, op: Operation)
    requires op.body.AssignmentChanged? && DistinctPrincipals(i.participants) && Custody(a, i.participants)
    requires PlanCustody(i, a, op.body.kind, op.body.to).Ok?
    ensures
      var (assignee, previous, status) := PlanCustody(i, a, op.body.kind, op.body.to).value;
      Custody(ChangedAssignment(a, op, assignee, previous, status), i.participants)
  {
    var (assignee, previous, status) := PlanCustody(i, a, op.body.kind, op.body.to).value;
    var b := ChangedAssignment(a, op, assignee, previous, status);
    var n := |a.transitions|;
    assert a.transitions[n - 1].to == a.assignee && a.assignee in i.participants;
    assert assignee in i.participants;
    if a.assignee.principalId == assignee.principalId {
      SamePrincipalSameParticipant(i.participants, a.assignee, assignee);
    }
    assert Passed(a.transitions[n - 1].to, b.transitions[n]);
    forall k | 1 <= k < |b.transitions| ensures b.transitions[k].kind.Changed? && Passed(b.transitions[k - 1].to, b.transitions[k]) {
      if k < n { assert b.transitions[k] == a.transitions[k] && b.transitions[k - 1] == a.transitions[k - 1]; }
    }
  }

  /** What an effect may write, whatever the operation: entries of its own instance and workspace. */
  ghost predicate EffectOk(s: Core, op: Operation, e: Effect) {
    && e.key == e.instance.id == op.workInstanceId && e.instance.workspaceId == op.workspaceId
    && DistinctPrincipals(e.instance.participants)
    && (if op.workInstanceId in s.instances
        then e.instance.workspaceId == s.instances[op.workInstanceId].workspaceId &&
             e.instance.participants == s.instances[op.workInstanceId].participants &&
             e.instance.version == s.instances[op.workInstanceId].version + 1
        else e.instance.version == 1 && e.episode.Keep? && e.activity.Keep? && e.assignment.Keep?)
    && (e.episode.Set? ==>
          var v := e.episode.value;
          v.id == e.episode.key && v.workInstanceId == op.workInstanceId && v.workspaceId == op.workspaceId &&
          v.id !in s.episodes)
    && (e.activity.Set? ==>
          var v := e.activity.value;
          v.id == e.activity.key && v.workInstanceId == op.workInstanceId && v.workspaceId == op.workspaceId &&
          (v.id in s.activities ==> s.activities[v.id].workInstanceId == op.workInstanceId))
    && (e.assignment.Set? ==>
          var v := e.assignment.value;
          v.id == e.assignment.key && v.workInstanceId == op.workInstanceId && v.workspaceId == op.workspaceId &&
          v.activityId in s.activities && s.activities[v.activityId].workInstanceId == op.workInstanceId &&
          Custody(v, e.instance.participants))
  }

  lemma PlanChangeOk(s: Core, i: Instance, op: Operation)
    requires Inv(s) && op.body.AssignmentChanged? && op.workInstanceId in s.instances
    requires i == s.instances[op.workInstanceId] && i.workspaceId == op.workspaceId
    requires PlanChange(s, i, op).Ok?
    ensures EffectOk(s, op, PlanChange(s, i, op).value)
  {
    var a := s.assignments[op.body.assignmentId];
    assert AssignmentOk(s, a);
    CustodyExtends(i, a, op);
  }

  lemma PlanOk(s: Core, op: Operation)
    requires Inv(s) && WellFormed(op) && Plan(s, op).Ok?
    ensures EffectOk(s, op, Plan(s, op).value)
  {
    if op.workInstanceId in s.instances {
      var i := s.instances[op.workInstanceId];
      assert i.id == op.workInstanceId;
      match op.body
      case AssignmentChanged(_, _, _, _, _) => PlanChangeOk(s, i, op);
      case ActivityAssigned(a) => RegisteredIsParticipant(i.participants, a.assignee);
      case _ =>
    }
  }

  lemma MergeInstances(s: Core, op: Operation, e: Effect)
    requires Inv(s) && EffectOk(s, op, e)
    ensures var t := Merge(s, op, e); t.streams.Keys <= t.instances.Keys && InstancesOk(t)
  {
    var t := Merge(s, op, e);
    forall id | id in t.instances ensures StreamMatches(t, id) {
      if id == op.workInstanceId {
        if id in s.instances { assert StreamMatches(s, id); }
      } else {
        assert StreamMatches(s, id) && Stream(t, id) == Stream(s, id);
      }
    }
  }

  lemma MergeOwned(s: Core, op: Operation, e: Effect, instance: int, workspace: int)
    requires EffectOk(s, op, e) && OwnedBy(s, instance, workspace)
    ensures OwnedBy(Merge(s, op, e), instance, workspace)
  {
  }

  lemma MergeAssignments(s: Core, op: Operation, e: Effect)
    requires Inv(s) && EffectOk(s, op, e)
    ensures AssignmentsOk(Merge(s, op, e))
  {
    var t := Merge(s, op, e);
    forall id | id in t.assignments ensures t.assignments[id].id == id && AssignmentOk(t, t.assignments[id]) {
      var a := t.assignments[id];
      if e.assignment.Set? && id == e.assignment.key {
      } else {
        assert AssignmentOk(s, a);
        MergeOwned(s, op, e, a.workInstanceId, a.workspaceId);
        assert t.activities[a.activityId].workInstanceId == a.workInstanceId;
      }
    }
  }

  lemma MergeKeepsInv(s: Core, op: Operation, e: Effect)
    requires Inv(s) && EffectOk(s, op, e)
    ensures Inv(Merge(s, op, e))
  {
    var t := Merge(s, op, e);
    MergeInstances(s, op, e);
    MergeAssignments(s, op, e);
    forall id | id in t.episodes ensures t.episodes[id].id == id && OwnedBy(t, t.episodes[id].workInstanceId, t.episodes[id].workspaceId) {
      if id in s.episodes { MergeOwned(s, op, e, s.episodes[id].workInstanceId, s.episodes[id].workspaceId); }
    }
    forall id | id in t.activities ensures t.activities[id].id == id && OwnedBy(t, t.activities[id].workInstanceId, t.activities[id].workspaceId) {
      if id in s.activities { MergeOwned(s, op, e, s.activities[id].workInstanceId, s.activities[id].workspaceId); }
    }
  }

  lemma ApplyKeepsInv(s: Core, op: Operation)
    requires Inv(s) && WellFormed(op) && Apply(s, op).Ok?
    ensures Inv(Apply(s, op).value)
  {
    PlanOk(s, op);
    MergeKeepsInv(s, op, Plan(s, op).value);
  }

  // ----- operations of different workspaces commute -----

  datatype Key = InstanceKey(id: int) | EpisodeKey(id: int) | ActivityKey(id: int) | AssignmentKey(id: int)

  /** The workspace an entry belongs to. */
  ghost function Owner(s: Core, k: Key): Option<int> {
    match k
    case InstanceKey(id) => if id in s.instances then Some(s.instances[id].workspaceId) else None
    case EpisodeKey(id) => if id in s.episodes then Some(s.episodes[id].workspaceId) else None
    case ActivityKey(id) => if id in s.activities then Some(s.activities[id].workspaceId) else None
    case AssignmentKey(id) => if id in s.assignments then Some(s.assignments[id].workspaceId) else None
  }

  /** Every entry the operation reads or writes. */
  ghost function Footprint(s: Core, op: Operation): set<Key> {
    {InstanceKey(op.workInstanceId)} +
    match op.body
    case EpisodeStarted(e) => {EpisodeKey(e.id)}
    case ActivityAdded(a) => {ActivityKey(a.id), EpisodeKey(a.workEpisodeId)}
    case ActivityAssigned(a) => {AssignmentKey(a.id), ActivityKey(a.activityId)}
    case AssignmentChanged(_, id, _, _, _) =>
      {AssignmentKey(id)} + if id in s.assignments then {ActivityKey(s.assignments[id].activityId)} else {}
    case _ => {}
  }

  ghost predicate SameAt<V(!new)>(m: map<int, V>, n: map<int, V>, k: int) {
    (k in m <==> k in n) && (k in m ==> m[k] == n[k])
  }

  ghost predicate Agree(s: Core, t: Core, k: Key) {
    match k
    case InstanceKey(id) => SameAt(s.instances, t.instances, id) && SameAt(s.streams, t.streams, id)
    case EpisodeKey(id) => SameAt(s.episodes, t.episodes, id)
    case ActivityKey(id) => SameAt(s.activities, t.activities, id)
    case AssignmentKey(id) => SameAt(s.assignments, t.assignments, id)
  }

  /** An operation looks nowhere outside its footprint. */
  lemma PlanLocal(s: Core, t: Core, op: Operation)
    requires forall k :: k in Footprint(s, op) ==> Agree(s, t, k)
    ensures Plan(s, op) == Plan(t, op) && Footprint(s, op) == Footprint(t, op)
  {
    assert Agree(s, t, InstanceKey(op.workInstanceId));
    match op.body
    case EpisodeStarted(e) => assert Agree(s, t, EpisodeKey(e.id));
    case ActivityAdded(a) => assert Agree(s, t, ActivityKey(a.id)) && Agree(s, t, EpisodeKey(a.workEpisodeId));
    case ActivityAssigned(a) => assert Agree(s, t, AssignmentKey(a.id)) && Agree(s, t, ActivityKey(a.activityId));
    case AssignmentChanged(_, id, _, _, _) =>
      assert Agree(s, t, AssignmentKey(id));
      if id in s.assignments { assert Agree(s, t, ActivityKey(s.assignments[id].activityId)); }
    case _ =>
  }

  lemma WritesInFootprint(s: Core, op: Operation)
    requires Inv(s) && WellFormed(op) && Plan(s, op).Ok?
    ensures
      var e := Plan(s, op).value;
      && e.key == op.workInstanceId && InstanceKey(e.key) in Footprint(s, op)
      && (e.episode.Set? ==> EpisodeKey(e.episode.key) in Footprint(s, op))
      && (e.activity.Set? ==> ActivityKey(e.activity.key) in Footprint(s, op))
      && (e.assignment.Set? ==> AssignmentKey(e.assignment.key) in Footprint(s, op))
  {
    PlanOk(s, op);
    if op.workInstanceId in s.instances && op.body.AssignmentChanged? {
      assert AssignmentOk(s, s.assignments[op.body.assignmentId]);
    }
  }

  lemma MergeElsewhere(s: Core, op: Operation, e: Effect, k: Key)
    requires k != InstanceKey(op.workInstanceId) && e.key == op.workInstanceId
    requires e.episode.Set? ==> k != EpisodeKey(e.episode.key)
    requires e.activity.Set? ==> k != ActivityKey(e.activity.key)
    requires e.assignment.Set? ==> k != AssignmentKey(e.assignment.key)
    ensures Agree(s, Merge(s, op, e), k)
  {
  }

  /** ... and writes nowhere outside it. */
  lemma MergeLocal(s: Core, op: Operation, k: Key)
    requires Inv(s) && WellFormed(op) && Plan(s, op).Ok? && k !in Footprint(s, op)
    ensures Agree(s, Merge(s, op, Plan(s, op).value), k)
  {
    WritesInFootprint(s, op);
    MergeElsewhere(s, op, Plan(s, op).value, k);
  }

  lemma FootprintBefore(s: Core, op: Operation, k: Key)
    requires Inv(s) && WellFormed(op) && Plan(s, op).Ok? && k in Footprint(s, op)
    ensures Owner(s, k) == None || Owner(s, k) == Some(op.workspaceId)
  {
    PlanOk(s, op);
    if op.workInstanceId in s.instances && op.body.AssignmentChanged? {
      assert AssignmentOk(s, s.assignments[op.body.assignmentId]);
    }
  }

  predicate Written(e: Effect, k: Key) {
    || k == InstanceKey(e.key) || (e.episode.Set? && k == EpisodeKey(e.episode.key))
    || (e.activity.Set? && k == ActivityKey(e.activity.key)) || (e.assignment.Set? && k == AssignmentKey(e.assignment.key))
  }

  lemma WrittenIsOwned(s: Core, op: Operation, e: Effect, k: Key)
    requires EffectOk(s, op, e) && Written(e, k)
    ensures Owner(Merge(s, op, e), k) == Some(op.workspaceId)
  {
  }

  lemma ReadIsOwned(s: Core, op: Operation, k: Key)
    requires Inv(s) && WellFormed(op) && Plan(s, op).Ok? && k in Footprint(s, op) && !Written(Plan(s, op).value, k)
    ensures Owner(s, k) == Some(op.workspaceId)
  {
  }

  lemma FootprintAfter(s: Core, op: Operation, k: Key)
    requires Inv(s) && WellFormed(op) && Plan(s, op).Ok? && k in Footprint(s, op)
    ensures Owner(Merge(s, op, Plan(s, op).value), k) == Some(op.workspaceId)
  {
    PlanOk(s, op);
    WritesInFootprint(s, op);
    var e := Plan(s, op).value;
    if Written(e, k) {
      WrittenIsOwned(s, op, e, k);
    } else {
      ReadIsOwned(s, op, k);
      MergeElsewhere(s, op, e, k);
    }
  }

  /** Before an accepted operation, its footprint is free or its workspace's; afterwards it is all its workspace's. */
  lemma FootprintOwners(s: Core, op: Operation, k: Key)
    requires Inv(s) && WellFormed(op) && Plan(s, op).Ok? && k in Footprint(s, op)
    ensures Owner(s, k) == None || Owner(s, k) == Some(op.workspaceId)
    ensures Owner(Merge(s, op, Plan(s, op).value), k) == Some(op.workspaceId)
  {
    FootprintBefore(s, op, k);
    FootprintAfter(s, op, k);
  }

  lemma PutCommutes<V>(m: map<int, V>, u: Update<V>, v: Update<V>)
    requires u.Set? && v.Set? ==> u.key != v.key
    ensures Put(Put(m, u), v) == Put(Put(m, v), u)
  {
  }

  lemma MapSetCommutes<V>(m: map<int, V>, j: int, x: V, k: int, y: V)
    requires j != k
    ensures m[j := x][k := y] == m[k := y][j := x]
  {
  }

  ghost predicate DisjointWrites(a: Operation, ea: Effect, b: Operation, eb: Effect) {
    && ea.key == a.workInstanceId && eb.key == b.workInstanceId
    && a.workInstanceId != b.workInstanceId && a.workspaceId != b.workspaceId
    && (ea.episode.Set? && eb.episode.Set? ==> ea.episode.key != eb.episode.key)
    && (ea.activity.Set? && eb.activity.Set? ==> ea.activity.key != eb.activity.key)
    && (ea.assignment.Set? && eb.assignment.Set? ==> ea.assignment.key != eb.assignment.key)
  }

  lemma MergeCommutes(s: Core, a: Operation, ea: Effect, b: Operation, eb: Effect)
    requires DisjointWrites(a, ea, b, eb)
    ensures Merge(Merge(s, a, ea), b, eb) == Merge(Merge(s, b, eb), a, ea)
  {
    var sa, sb := Merge(s, a, ea), Merge(s, b, eb);
    MapSetCommutes(s.instances, a.workInstanceId, ea.instance, b.workInstanceId, eb.instance);
    PutCommutes(s.episodes, ea.episode, eb.episode);
    PutCommutes(s.activities, ea.activity, eb.activity);
    PutCommutes(s.assignments, ea.assignment, eb.assignment);
    assert Stream(sa, b.workInstanceId) == Stream(s, b.workInstanceId);
    assert Stream(sb, a.workInstanceId) == Stream(s, a.workInstanceId);
    assert LastSequence(sa, b.workspaceId) == LastSequence(s, b.workspaceId);
    assert LastSequence(sb, a.workspaceId) == LastSequence(s, a.workspaceId);
    MapSetCommutes(s.streams, a.workInstanceId, sa.streams[a.workInstanceId], b.workInstanceId, sb.streams[b.workInstanceId]);
    MapSetCommutes(s.lastSequence, a.workspaceId, sa.lastSequence[a.workspaceId], b.workspaceId, sb.lastSequence[b.workspaceId]);
    assert s.operationIds + {a.id} + {b.id} == s.operationIds + {b.id} + {a.id};
    var ka, kb := (a.workspaceId, a.ledgerSequence), (b.workspaceId, b.ledgerSequence);
    assert s.ledgerSequences + {ka} + {kb} == s.ledgerSequences + {kb} + {ka};
  }

  lemma FootprintsDisjoint(s: Core, a: Operation, b: Operation)
    requires Inv(s) && WellFormed(a) && WellFormed(b) && a.workspaceId != b.workspaceId
    requires Plan(s, a).Ok? && Plan(Merge(s, a, Plan(s, a).value), b).Ok?
    ensures Footprint(s, a) !! Footprint(Merge(s, a, Plan(s, a).value), b)
  {
    var sa := Merge(s, a, Plan(s, a).value);
    PlanOk(s, a);
    MergeKeepsInv(s, a, Plan(s, a).value);
    forall k | k in Footprint(s, a) && k in Footprint(sa, b) ensures false {
      FootprintOwners(s, a, k);
      FootprintOwners(sa, b, k);
    }
  }

  lemma PlanEitherWay(s: Core, a: Operation, b: Operation)
    requires Inv(s) && WellFormed(a) && WellFormed(b) && a.workspaceId != b.workspaceId
    requires Plan(s, a).Ok? && Plan(Merge(s, a, Plan(s, a).value), b).Ok?
    ensures
      var ea := Plan(s, a).value;
      var eb := Plan(Merge(s, a, ea), b).value;
      Plan(s, b) == Ok(eb) && Plan(Merge(s, b, eb), a) == Ok(ea) && DisjointWrites(a, ea, b, eb)
  {
    var ea := Plan(s, a).value;
    var sa := Merge(s, a, ea);
    var eb := Plan(sa, b).value;
    FootprintsDisjoint(s, a, b);
    PlanOk(s, a);
    MergeKeepsInv(s, a, ea);
    forall k | k in Footprint(sa, b) ensures Agree(sa, s, k) { MergeLocal(s, a, k); }
    PlanLocal(sa, s, b);
    var sb := Merge(s, b, eb);
    forall k | k in Footprint(s, a) ensures Agree(s, sb, k) { MergeLocal(s, b, k); }
    PlanLocal(s, sb, a);
    WritesInFootprint(s, a);
    WritesInFootprint(sa, b);
  }

  /** Two accepted operations of different workspaces can be made in the other order, with the same outcome. */
  lemma Commute(s: Core, a: Operation, b: Operation)
    requires Inv(s) && WellFormed(a) && WellFormed(b) && a.workspaceId != b.workspaceId
    requires Apply(s, a).Ok? && Apply(Apply(s, a).value, b).Ok?
    ensures Apply(s, b).Ok? && Apply(Apply(s, b).value, a) == Apply(Apply(s, a).value, b)
  {
    PlanEitherWay(s, a, b);
    var ea := Plan(s, a).value;
    var eb := Plan(s, b).value;
    MergeCommutes(s, a, ea, b, eb);
    assert (a.workspaceId, a.ledgerSequence) != (b.workspaceId, b.ledgerSequence);
  }

  // ----- replay -----

  /** compareOperations: workspace first, then ledger sequence. */
  predicate InReplayOrder(a: Operation, b: Operation) {
    a.workspaceId < b.workspaceId || (a.workspaceId == b.workspaceId && a.ledgerSequence <= b.ledgerSequence)
  }

  function Workspace(op: Operation): int { op.workspaceId }

  function Sequence(op: Operation): int { op.ledgerSequence }

  /** Operations as the public methods make them: well formed, each with the next sequence of its workspace, all accepted. */
  ghost predicate LiveRun(ops: seq<Operation>)
    decreases |ops|
  {
    ops == [] ||
    (LiveRun(ops[..|ops| - 1]) && LiveNext(ops[..|ops| - 1], ops[|ops| - 1]))
  }

  ghost predicate LiveNext(ops: seq<Operation>, op: Operation) {
    && Run(EMPTY, ops).Ok? && WellFormed(op)
    && op.ledgerSequence == LastSequence(Run(EMPTY, ops).value, op.workspaceId) + 1
    && Apply(Run(EMPTY, ops).value, op).Ok?
  }

  lemma LiveRunSnoc(ops: seq<Operation>, op: Operation)
    requires LiveRun(ops) && LiveNext(ops, op)
    ensures LiveRun(ops + [op]) && Run(EMPTY, ops + [op]) == Apply(Run(EMPTY, ops).value, op)
  {
    assert (ops + [op])[..|ops|] == ops;
    Replay.RunSnoc(Apply, EMPTY, ops, op);
  }

  function InWorkspace(ops: seq<Operation>, workspace: int): seq<Operation> {
    Filter(ops, (op: Operation) => op.workspaceId == workspace)
  }

  lemma InWorkspaceSnoc(ops: seq<Operation>, op: Operation, workspace: int)
    ensures InWorkspace(ops + [op], workspace) ==
            if op.workspaceId == workspace then InWorkspace(ops, workspace) + [op] else InWorkspace(ops, workspace)
  {
    FilterAppend(ops, [op], (o: Operation) => o.workspaceId == workspace);
  }

  /** Each workspace's operations carry the sequences 1, 2, 3, ... with no gap. */
  lemma {:induction false} SequencesGapFree(ops: seq<Operation>, workspace: int)
    requires LiveRun(ops)
    ensures Run(EMPTY, ops).Ok?
    ensures LastSequence(Run(EMPTY, ops).value, workspace) == |InWorkspace(ops, workspace)|
    ensures forall i :: 0 <= i < |InWorkspace(ops, workspace)| ==> InWorkspace(ops, workspace)[i].ledgerSequence == i + 1
    decreases |ops|
  {
    if ops != [] {
      var init, op := ops[..|ops| - 1], ops[|ops| - 1];
      SplitLast(ops);
      SequencesGapFree(init, workspace);
      InWorkspaceSnoc(init, op, workspace);
      LiveRunSnoc(init, op);
    }
  }

  lemma {:induction false} LiveOperations(ops: seq<Operation>)
    requires LiveRun(ops)
    ensures Replay.All(ops, WellFormed) && Replay.NumberedUp(ops, Workspace, Sequence)
    decreases |ops|
  {
    if ops != [] {
      var init, op := ops[..|ops| - 1], ops[|ops| - 1];
      SplitLast(ops);
      LiveOperations(init);
      forall i | 0 <= i < |init| && init[i].workspaceId == op.workspaceId ensures init[i].ledgerSequence < op.ledgerSequence {
        SequencesGapFree(init, op.workspaceId);
        FilterMember(init, (o: Operation) => o.workspaceId == op.workspaceId, init[i]);
        var k :| 0 <= k < |InWorkspace(init, op.workspaceId)| && InWorkspace(init, op.workspaceId)[k] == init[i];
      }
      forall i | 0 <= i < |ops| ensures ops[i] == if i < |init| then init[i] else op {
      }
    }
  }

  lemma ApplyKeeps()
    ensures Replay.Keeps(Apply, Inv, WellFormed)
  {
    forall s, op | Inv(s) && WellFormed(op) && Apply(s, op).Ok? ensures Inv(Apply(s, op).value) {
      ApplyKeepsInv(s, op);
    }
  }

  lemma ApplyCommutes()
    ensures Replay.ScopesCommute(Apply, Inv, WellFormed, Workspace)
  {
    forall s, a, b | Inv(s) && WellFormed(a) && WellFormed(b) && Workspace(a) != Workspace(b)
      ensures Replay.Commute(Apply, s, a, b)
    {
      if Apply(s, a).Ok? && Apply(Apply(s, a).value, b).Ok? { Commute(s, a, b); }
    }
  }

  /** In every live run the invariant holds: versions, streams, ownership and custody chains. */
  lemma LiveStateOk(ops: seq<Operation>)
    requires LiveRun(ops)
    ensures Run(EMPTY, ops).Ok? && Inv(Run(EMPTY, ops).value)
  {
    SequencesGapFree(ops, 0);
    LiveOperations(ops);
    ApplyKeeps();
    Replay.RunKeeps(Apply, Inv, WellFormed, EMPTY, ops);
  }

  /** Replaying the sorted history of any live run succeeds and rebuilds the same stored state. */
  lemma ReplayRebuilds(ops: seq<Operation>)
    requires LiveRun(ops)
    ensures Run(EMPTY, SortBy(ops, InReplayOrder)) == Run(EMPTY, ops)
    ensures Run(EMPTY, ops).Ok?
  {
    LiveStateOk(ops);
    LiveOperations(ops);
    ApplyKeeps();
    ApplyCommutes();
    Replay.SortedReplay(Apply, Inv, WellFormed, Workspace, Sequence, InReplayOrder, EMPTY, ops);
  }

  // ----- when a live call is accepted -----

  ghost predicate SequencesBelow(s: Core) {
    forall w, n :: (w, n) in s.ledgerSequences ==> n <= LastSequence(s, w)
  }

  lemma ApplyKeepsBelow(s: Core, op: Operation)
    requires SequencesBelow(s) && Apply(s, op).Ok?
    ensures SequencesBelow(Apply(s, op).value)
  {
    var t := Apply(s, op).value;
    forall w, n | (w, n) in t.ledgerSequences ensures n <= LastSequence(t, w) {
      assert (w, n) in s.ledgerSequences || (w, n) == (op.workspaceId, op.ledgerSequence);
    }
  }

  lemma {:induction false} LiveSequencesBelow(ops: seq<Operation>)
    requires LiveRun(ops)
    ensures Run(EMPTY, ops).Ok? && SequencesBelow(Run(EMPTY, ops).value)
    decreases |ops|
  {
    if ops != [] {
      var init, op := ops[..|ops| - 1], ops[|ops| - 1];
      SplitLast(ops);
      LiveSequencesBelow(init);
      LiveRunSnoc(init, op);
      ApplyKeepsBelow(Run(EMPTY, init).value, op);
    }
  }

  /** The next sequence is always free: a live call is refused only for its id, its version or what it asks for. */
  lemma LiveAccepts(ops: seq<Operation>, s: Core, op: Operation)
    requires LiveRun(ops) && Run(EMPTY, ops) == Ok(s) && op.ledgerSequence == LastSequence(s, op.workspaceId) + 1
    ensures (op.workspaceId, op.ledgerSequence) !in s.ledgerSequences && op.ledgerSequence >= 1
    ensures Apply(s, op).Ok? <==>
            op.id !in s.operationIds && (op.body.InstanceCreated? || op.expectedVersion >= 1) && Plan(s, op).Ok?
  {
    LiveSequencesBelow(ops);
    SequencesGapFree(ops, op.workspaceId);
  }

  // ----- what an operation asks for and what it does -----

  ghost predicate TakesPart(participants: seq<Participant>, principal: int) {
    exists p :: p in participants && p.principalId == principal
  }

  /** The operation id is new and the caller, a participant, has read the instance's current version. */
  ghost predicate Ready(s: Core, operationId: int, workspace: int, instanceId: int, expectedVersion: int, actor: int) {
    && operationId !in s.operationIds && expectedVersion >= 1
    && instanceId in s.instances && s.instances[instanceId].workspaceId == workspace
    && s.instances[instanceId].version == expectedVersion && TakesPart(s.instances[instanceId].participants, actor)
  }

  /** Who may change an assignment in which way. */
  ghost predicate MayChange(participants: seq<Participant>, a: Assignment, kind: ChangeKind, to: Option<Participant>, actor: int) {
    && (kind != TakeOver ==> a.assignee.principalId == actor)
    && (kind == HandOff || kind == TakeOver ==> to.Some? && to.value in participants)
    && (kind == GiveBack ==> a.previousAssignee.Some?)
    && (kind == Suspend ==> a.status == Active)
    && (kind == Resume ==> a.status == Suspended)
  }

  /** The payload belongs to the instance, and names only what exists there. */
  ghost predicate Belongs(s: Core, i: Instance, op: Operation) {
    match op.body
    case EpisodeStarted(e) =>
      e.id !in s.episodes && e.workspaceId == i.workspaceId && e.workInstanceId == i.id && TakesPart(i.participants, e.startedBy)
    case ActivityAdded(a) =>
      && a.id !in s.activities && a.workspaceId == i.workspaceId && a.workInstanceId == i.id && TakesPart(i.participants, a.createdBy)
      && a.workEpisodeId in s.episodes && s.episodes[a.workEpisodeId].workInstanceId == i.id
    case ActivityAssigned(a) =>
      && a.id !in s.assignments && a.workspaceId == i.workspaceId && a.workInstanceId == i.id && a.assignee in i.participants
      && a.activityId in s.activities && s.activities[a.activityId].workInstanceId == i.id
    case AssignmentChanged(kind, id, _, to, _) =>
      && id in s.assignments && s.assignments[id].workInstanceId == i.id
      && MayChange(i.participants, s.assignments[id], kind, to, op.actor)
    case OutcomeRecorded(o) => TakesPart(i.participants, o.recordedBy) && forall k :: 0 <= k < |i.outcomes| ==> i.outcomes[k].id != o.id
    case InstanceCreated(_) => true
  }

  /** Everything an operation is refused for but its sequence. */
  ghost predicate Unopposed(s: Core, op: Operation) {
    if op.body.InstanceCreated? then op.id !in s.operationIds && op.workInstanceId !in s.instances
       else
         && Ready(s, op.id, op.workspaceId, op.workInstanceId, op.expectedVersion, op.actor)
         && Belongs(s, s.instances[op.workInstanceId], op)
  }

  ghost predicate Acceptable(s: Core, op: Operation) {
    op.ledgerSequence >= 1 && (op.workspaceId, op.ledgerSequence) !in s.ledgerSequences && Unopposed(s, op)
  }

  lemma RegisteredIff(participants: seq<Participant>, p: Participant)
    requires DistinctPrincipals(participants)
    ensures Registered(participants, p) <==> p in participants
  {
    if p in participants { var i :| 0 <= i < |participants| && participants[i] == p; }
  }

  lemma NamesIff(participants: seq<Participant>, principal: int)
    ensures Names(participants, principal) <==> TakesPart(participants, principal)
  {
    if Names(participants, principal) {
      var k :| 0 <= k < |participants| && participants[k].principalId == principal;
      assert participants[k] in participants;
    }
  }

  lemma PlanChangeIff(s: Core, i: Instance, op: Operation)
    requires Inv(s) && op.body.AssignmentChanged? && op.workInstanceId in s.instances && i == s.instances[op.workInstanceId]
    ensures PlanChange(s, i, op).Ok? <==> Belongs(s, i, op)
  {
    if op.body.assignmentId in s.assignments { assert AssignmentOk(s, s.assignments[op.body.assignmentId]); }
    if op.body.to.Some? { RegisteredIff(i.participants, op.body.to.value); }
  }

  lemma PlanIff(s: Core, op: Operation)
    requires Inv(s) && !op.body.InstanceCreated? && op.workInstanceId in s.instances
    ensures var i := s.instances[op.workInstanceId];
      Plan(s, op).Ok? <==> i.workspaceId == op.workspaceId && i.version == op.expectedVersion && TakesPart(i.participants, op.actor) && Belongs(s, i, op)
  {
    var i := s.instances[op.workInstanceId];
    NamesIff(i.participants, op.actor);
    match op.body
    case EpisodeStarted(e) => NamesIff(i.participants, e.startedBy);
    case ActivityAdded(a) => NamesIff(i.participants, a.createdBy);
    case ActivityAssigned(a) => RegisteredIff(i.participants, a.assignee);
    case AssignmentChanged(_, _, _, _, _) => PlanChangeIff(s, i, op);
    case OutcomeRecorded(o) => NamesIff(i.participants, o.recordedBy);
    case _ =>
  }

  /** In a registry that keeps the invariant, an operation is accepted if and only if there is nothing to refuse it for. */
  lemma ApplyAcceptsIff(s: Core, op: Operation)
    requires Inv(s)
    ensures Apply(s, op).Ok? <==> Acceptable(s, op)
  {
    if !op.body.InstanceCreated? && op.workInstanceId in s.instances { PlanIff(s, op); }
  }

  /** The entry that the operation leaves in its instance's stream. */
  ghost predicate Notes(op: Operation, e: Entry) {
    && e.id == op.id && e.workspaceId == op.workspaceId && e.workInstanceId == op.workInstanceId && e.actor == op.actor && e.at == op.at
    && match op.body
       case EpisodeStarted(p) => e.episodeId == Some(p.id) && e.activityId == None && e.assignmentId == None
       case ActivityAdded(a) => e.episodeId == Some(a.workEpisodeId) && e.activityId == Some(a.id) && e.assignmentId == None
       case ActivityAssigned(a) => e.episodeId == None && e.activityId == Some(a.activityId) && e.assignmentId == Some(a.id)
       case AssignmentChanged(_, id, _, _, _) => e.episodeId == None && e.activityId == None && e.assignmentId == Some(id)
       case _ => e.episodeId == None && e.activityId == None && e.assignmentId == None
  }

  /** Its id and its sequence are taken, and its entry, numbered by the instance's new version, ends the stream. */
  ghost predicate Logged(s: Core, t: Core, op: Operation) {
    var id := op.workInstanceId;
    var before := if id in s.streams then s.streams[id] else [];
    && t.operationIds == s.operationIds + {op.id} && t.ledgerSequences == s.ledgerSequences + {(op.workspaceId, op.ledgerSequence)}
    && id in t.instances && id in t.streams && t.streams == s.streams[id := t.streams[id]]
    && |t.streams[id]| == |before| + 1 && t.streams[id][..|before|] == before
    && Notes(op, t.streams[id][|before|]) && t.streams[id][|before|].sequence == t.instances[id].version
    && op.workspaceId in t.lastSequence && t.lastSequence == s.lastSequence[op.workspaceId := t.lastSequence[op.workspaceId]]
    && t.lastSequence[op.workspaceId] >= op.ledgerSequence
    && (op.workspaceId in s.lastSequence ==> t.lastSequence[op.workspaceId] >= s.lastSequence[op.workspaceId])
    && (t.lastSequence[op.workspaceId] == op.ledgerSequence ||
        (op.workspaceId in s.lastSequence && t.lastSequence[op.workspaceId] == s.lastSequence[op.workspaceId]))
  }

  /** Who holds the work after a change, who held it before, and what the transition says. */
  ghost predicate HandedOn(
    a: Assignment, b: Assignment, kind: ChangeKind, to: Option<Participant>, actor: int, authorization: int, context: Context, at: int)
  {
    && (kind == HandOff || kind == TakeOver ==> to == Some(b.assignee))
    && (kind == GiveBack ==> a.previousAssignee == Some(b.assignee))
    && (kind == Suspend || kind == Resume ==> b.assignee == a.assignee && b.previousAssignee == a.previousAssignee)
    && (kind == HandOff || kind == TakeOver || kind == GiveBack ==> b.previousAssignee == Some(a.assignee))
    && (b.status == Suspended <==> kind == Suspend)
    && b.context == a.context + context
    && b.id == a.id && b.workspaceId == a.workspaceId && b.workInstanceId == a.workInstanceId && b.activityId == a.activityId
    && |b.transitions| == |a.transitions| + 1 && b.transitions[..|a.transitions|] == a.transitions
    && var t := b.transitions[|a.transitions|];
    && t.kind == Changed(kind) && t.to == b.assignee
    && t.from == (if b.assignee.principalId == a.assignee.principalId then None else Some(a.assignee))
    && t.actor == actor && t.authorization == authorization && t.context == context && t.at == at
  }

  /** Only the instance of the operation changes, and only in its version and what is named. */
  ghost predicate Grown(s: Core, t: Core, op: Operation, episodes: seq<int>, activities: seq<int>, assignments: seq<int>, outcomes: seq<Outcome>) {
    var id := op.workInstanceId;
    && id in s.instances && id in t.instances
    && t.instances == s.instances[id := t.instances[id]]
    && var i, j := s.instances[id], t.instances[id];
    && j.version == i.version + 1
    && j.episodeIds == i.episodeIds + episodes && j.activityIds == i.activityIds + activities
    && j.assignmentIds == i.assignmentIds + assignments && j.outcomes == i.outcomes + outcomes
    && j.id == i.id && j.workspaceId == i.workspaceId && j.intent == i.intent && j.participants == i.participants
    && j.roles == i.roles && j.context == i.context && j.createdAt == i.createdAt
  }

  /** The activity gets a status and keeps everything else; no other activity changes. */
  ghost predicate OnlyStatus(s: Core, t: Core, activity: int, status: ActivityStatus) {
    && activity in s.activities && activity in t.activities && t.activities == s.activities[activity := t.activities[activity]]
    && var a, b := s.activities[activity], t.activities[activity];
    && b.status == status && b.id == a.id && b.activityType == a.activityType && b.workspaceId == a.workspaceId
    && b.workInstanceId == a.workInstanceId && b.workEpisodeId == a.workEpisodeId && b.context == a.context
    && b.createdBy == a.createdBy && b.createdAt == a.createdAt
  }

  /** What an accepted operation makes of the stored records. */
  ghost predicate Stores(s: Core, t: Core, op: Operation) {
    match op.body
    case InstanceCreated(i) =>
      && t.instances == s.instances[op.workInstanceId := i]
      && t.episodes == s.episodes && t.activities == s.activities && t.assignments == s.assignments
    case EpisodeStarted(e) =>
      && Grown(s, t, op, [e.id], [], [], [])
      && t.episodes == s.episodes[e.id := e] && t.activities == s.activities && t.assignments == s.assignments
    case ActivityAdded(a) =>
      && Grown(s, t, op, [], [a.id], [], [])
      && t.episodes == s.episodes && t.activities == s.activities[a.id := a] && t.assignments == s.assignments
    case ActivityAssigned(a) =>
      && Grown(s, t, op, [], [], [a.id], []) && OnlyStatus(s, t, a.activityId, Running)
      && t.episodes == s.episodes && t.assignments == s.assignments[a.id := a]
    case OutcomeRecorded(o) =>
      && Grown(s, t, op, [], [], [], [o])
      && t.episodes == s.episodes && t.activities == s.activities && t.assignments == s.assignments
    case AssignmentChanged(kind, id, authorization, to, context) =>
      && Grown(s, t, op, [], [], [], []) && t.episodes == s.episodes
      && id in s.assignments && id in t.assignments && t.assignments == s.assignments[id := t.assignments[id]]
      && var a, b := s.assignments[id], t.assignments[id];
      && HandedOn(a, b, kind, to, op.actor, authorization, context, op.at)
      && OnlyStatus(s, t, a.activityId, if kind == Suspend then Paused else Running)
  }

  lemma GrownByNothing<T>(s: seq<T>)
    ensures s + [] == s
  {
  }

  lemma ChangeStores(s: Core, op: Operation)
    requires Inv(s) && op.body.AssignmentChanged? && Apply(s, op).Ok?
    ensures Stores(s, Apply(s, op).value, op)
  {
    var i := s.instances[op.workInstanceId];
    var a := s.assignments[op.body.assignmentId];
    assert AssignmentOk(s, a);
    assert StreamMatches(s, op.workInstanceId);
    GrownByNothing(i.episodeIds);
    GrownByNothing(i.activityIds);
    GrownByNothing(i.assignmentIds);
    GrownByNothing(i.outcomes);
  }

  /** An accepted operation has exactly the effect that its kind stands for. */
  lemma ApplyStores(s: Core, op: Operation)
    requires Inv(s) && Apply(s, op).Ok?
    ensures Stores(s, Apply(s, op).value, op)
  {
    if op.body.AssignmentChanged? {
      ChangeStores(s, op);
    } else if !op.body.InstanceCreated? {
      var i := s.instances[op.workInstanceId];
      assert StreamMatches(s, op.workInstanceId);
      GrownByNothing(i.episodeIds);
      GrownByNothing(i.activityIds);
      GrownByNothing(i.assignmentIds);
      GrownByNothing(i.outcomes);
    }
  }

  lemma ApplyLogs(s: Core, op: Operation)
    requires Inv(s) && WellFormed(op) && Apply(s, op).Ok?
    ensures Logged(s, Apply(s, op).value, op)
  {
    ApplyKeepsInv(s, op);
    assert StreamMatches(Apply(s, op).value, op.workInstanceId);
  }

  /** What an error says is so. */
  ghost predicate Refused(s: Core, op: Operation, error: WorkError) {
    match error
    case InvalidOperation => op.ledgerSequence < 1 || (!op.body.InstanceCreated? && op.expectedVersion < 1)
    case DuplicateOperation => op.id in s.operationIds
    case DuplicateSequence => (op.workspaceId, op.ledgerSequence) in s.ledgerSequences
    case MissingInstance => !op.body.InstanceCreated? && op.workInstanceId !in s.instances
    case DuplicateId =>
      (match op.body
       case InstanceCreated(_) => op.workInstanceId in s.instances
       case EpisodeStarted(e) => e.id in s.episodes
       case ActivityAdded(a) => a.id in s.activities
       case ActivityAssigned(a) => a.id in s.assignments
       case OutcomeRecorded(o) =>
         op.workInstanceId in s.instances && exists r :: r in s.instances[op.workInstanceId].outcomes && r.id == o.id
       case AssignmentChanged(_, _, _, _, _) => false)
    case _ =>
      && !op.body.InstanceCreated? && op.workInstanceId in s.instances
      && RefusedIn(s, s.instances[op.workInstanceId], op, error)
  }

  ghost predicate RefusedIn(s: Core, i: Instance, op: Operation, error: WorkError) {
    match error
    case VersionConflict => i.version != op.expectedVersion
    case OutsideWorkspace =>
      || i.workspaceId != op.workspaceId
      || (match op.body
          case EpisodeStarted(e) => e.workspaceId != i.workspaceId
          case ActivityAdded(a) => a.workspaceId != i.workspaceId
          case ActivityAssigned(a) => a.workspaceId != i.workspaceId
          case AssignmentChanged(_, id, _, _, _) => id in s.assignments && s.assignments[id].workspaceId != i.workspaceId
          case _ => false)
    case WrongInstance =>
      (match op.body
       case EpisodeStarted(e) => e.workInstanceId != i.id
       case ActivityAdded(a) => a.workInstanceId != i.id
       case ActivityAssigned(a) => a.workInstanceId != i.id
       case AssignmentChanged(_, id, _, _, _) => id in s.assignments && s.assignments[id].workInstanceId != i.id
       case _ => false)
    case NotAParticipant =>
      || !TakesPart(i.participants, op.actor)
      || (match op.body
          case EpisodeStarted(e) => !TakesPart(i.participants, e.startedBy)
          case ActivityAdded(a) => !TakesPart(i.participants, a.createdBy)
          case ActivityAssigned(a) => a.assignee !in i.participants
          case AssignmentChanged(kind, _, _, to, _) => (kind == HandOff || kind == TakeOver) && to.Some? && to.value !in i.participants
          case OutcomeRecorded(o) => !TakesPart(i.participants, o.recordedBy)
          case _ => false)
    case MissingReference =>
      (match op.body
       case ActivityAdded(a) => a.workEpisodeId !in s.episodes || s.episodes[a.workEpisodeId].workInstanceId != i.id
       case ActivityAssigned(a) => a.activityId !in s.activities || s.activities[a.activityId].workInstanceId != i.id
       case AssignmentChanged(_, id, _, _, _) => id !in s.assignments
       case _ => false)
    case _ => op.body.AssignmentChanged? && op.body.assignmentId in s.assignments && RefusedChange(s.assignments[op.body.assignmentId], op, error)
  }

  predicate RefusedChange(a: Assignment, op: Operation, error: WorkError)
    requires op.body.AssignmentChanged?
  {
    match error
    case NotTheAssignee => op.body.kind != TakeOver && a.assignee.principalId != op.actor
    case MissingTarget => (op.body.kind == HandOff || op.body.kind == TakeOver) && op.body.to == None
    case NoPreviousAssignee => op.body.kind == GiveBack && a.previousAssignee == None
    case WrongStatus => (op.body.kind == Suspend && a.status == Suspended) || (op.body.kind == Resume && a.status == Active)
    case _ => false
  }

  lemma PlanChangeRefuses(s: Core, i: Instance, op: Operation)
    requires Inv(s) && op.body.AssignmentChanged? && op.workInstanceId in s.instances && i == s.instances[op.workInstanceId]
    requires PlanChange(s, i, op).Err?
    ensures RefusedIn(s, i, op, PlanChange(s, i, op).error)
  {
    if op.body.assignmentId in s.assignments { assert AssignmentOk(s, s.assignments[op.body.assignmentId]); }
    if op.body.to.Some? { RegisteredIff(i.participants, op.body.to.value); }
  }

  lemma PlanRefuses(s: Core, i: Instance, op: Operation)
    requires Inv(s) && !op.body.InstanceCreated? && op.workInstanceId in s.instances && i == s.instances[op.workInstanceId]
    requires Plan(s, op).Err?
    ensures Refused(s, op, Plan(s, op).error)
  {
    NamesIff(i.participants, op.actor);
    match op.body
    case EpisodeStarted(e) => NamesIff(i.participants, e.startedBy);
    case ActivityAdded(a) => NamesIff(i.participants, a.createdBy);
    case ActivityAssigned(a) => RegisteredIff(i.participants, a.assignee);
    case AssignmentChanged(_, _, _, _, _) => if PlanChange(s, i, op).Err? { PlanChangeRefuses(s, i, op); }
    case OutcomeRecorded(o) =>
      NamesIff(i.participants, o.recordedBy);
      if exists k :: 0 <= k < |i.outcomes| && i.outcomes[k].id == o.id {
        var k :| 0 <= k < |i.outcomes| && i.outcomes[k].id == o.id;
        assert i.outcomes[k] in i.outcomes;
      }
    case _ =>
  }

  /** The error of a refused operation is the case. */
  lemma ApplyRefuses(s: Core, op: Operation)
    requires Inv(s) && Apply(s, op).Err?
    ensures Refused(s, op, Apply(s, op).error)
  {
    if Admit(s, op).None? && !op.body.InstanceCreated? && op.workInstanceId in s.instances {
      PlanRefuses(s, s.instances[op.workInstanceId], op);
    }
  }

  /** What applying an operation means: its full effect and its log, or nothing and an error that is the case. */
  ghost predicate Answers(s: Core, t: Core, op: Operation, failed: Option<WorkError>) {
    && (failed == None <==> Acceptable(s, op))
    && (failed == None ==> Stores(s, t, op) && (WellFormed(op) ==> Logged(s, t, op)))
    && (failed.Some? ==> t == s && Refused(s, op, failed.value))
  }

  /** The operation is the newest of the list, with all of its effect. */
  ghost predicate Performed(s: Core, before: seq<Operation>, t: Core, after: seq<Operation>, op: Operation) {
    after == before + [op] && Stores(s, t, op) && Logged(s, t, op)
  }

  lemma ApplyAnswers(s: Core, op: Operation)
    requires Inv(s)
    ensures match Apply(s, op) case Ok(t) => Answers(s, t, op, None) case Err(e) => Answers(s, s, op, Some(e))
  {
    ApplyAcceptsIff(s, op);
    if Apply(s, op).Ok? {
      ApplyStores(s, op);
      if WellFormed(op) { ApplyLogs(s, op); }
    } else {
      ApplyRefuses(s, op);
    }
  }

  // ----- the registry -----

  predicate ById(p: Participant, q: Participant) { p.principalId <= q.principalId }

  lemma SortedDistinctPrincipals(participants: seq<Participant>)
    ensures DistinctPrincipals(SortBy(participants, ById)) <==> DistinctPrincipals(participants)
  {
    SortPermutes(participants, ById);
    if DistinctPrincipals(participants) { PrincipalsOfPermutation(participants, SortBy(participants, ById)); }
    if DistinctPrincipals(SortBy(participants, ById)) { PrincipalsOfPermutation(SortBy(participants, ById), participants); }
  }

  lemma PrincipalsOfPermutation(s: seq<Participant>, t: seq<Participant>)
    requires multiset(s) == multiset(t) && DistinctPrincipals(s)
    ensures DistinctPrincipals(t)
  {
    MultisetDistinct(s, t);
    SameElements(s, t);
    forall i, j | 0 <= i < j < |t| ensures t[i].principalId != t[j].principalId {
      assert t[i] in s && t[j] in s;
      if t[i].principalId == t[j].principalId { SamePrincipalSameParticipant(s, t[i], t[j]); }
    }
  }

  predicate DistinctInts(ids: seq<int>) {
    forall i, j :: 0 <= i < j < |ids| ==> ids[i] != ids[j]
  }

  predicate AllNamed(participants: seq<Participant>, ids: seq<int>) {
    forall i :: 0 <= i < |ids| ==> Names(participants, ids[i])
  }

  /** normalizeRoles accepts: owners and authorities present, no duplicates, participants only. */
  predicate RolesAccepted(roles: Roles, participants: seq<Participant>) {
    && roles.workOwners != [] && roles.decisionAuthorities != []
    && DistinctInts(roles.workOwners) && DistinctInts(roles.decisionAuthorities)
    && DistinctInts(roles.reviewers) && DistinctInts(roles.approvers)
    && AllNamed(participants, roles.workOwners) && AllNamed(participants, roles.decisionAuthorities)
    && AllNamed(participants, roles.reviewers) && AllNamed(participants, roles.approvers)
  }

  ghost predicate RoleFits(ids: seq<int>, participants: seq<Participant>) {
    (forall i, j :: 0 <= i < j < |ids| ==> ids[i] != ids[j]) && forall id :: id in ids ==> TakesPart(participants, id)
  }

  /** Somebody owns the work and somebody decides; nobody has a role twice, and all who have one take part. */
  ghost predicate RolesFit(roles: Roles, participants: seq<Participant>) {
    && roles.workOwners != [] && roles.decisionAuthorities != []
    && RoleFits(roles.workOwners, participants) && RoleFits(roles.decisionAuthorities, participants)
    && RoleFits(roles.reviewers, participants) && RoleFits(roles.approvers, participants)
  }

  lemma SortedNames(participants: seq<Participant>, principal: int)
    ensures Names(SortBy(participants, ById), principal) <==> TakesPart(participants, principal)
  {
    NamesIff(SortBy(participants, ById), principal);
    SortElements(participants, ById);
  }

  lemma RoleIff(ids: seq<int>, participants: seq<Participant>)
    ensures DistinctInts(ids) && AllNamed(SortBy(participants, ById), ids) <==> RoleFits(ids, participants)
  {
    forall id { SortedNames(participants, id); }
    if AllNamed(SortBy(participants, ById), ids) {
      forall id | id in ids ensures TakesPart(participants, id) {
        var i :| 0 <= i < |ids| && ids[i] == id;
      }
    }
  }

  lemma RolesIff(roles: Roles, participants: seq<Participant>)
    ensures RolesAccepted(roles, SortBy(participants, ById)) <==> RolesFit(roles, participants)
  {
    RoleIff(roles.workOwners, participants);
    RoleIff(roles.decisionAuthorities, participants);
    RoleIff(roles.reviewers, participants);
    RoleIff(roles.approvers, participants);
  }

  /** Assignments never lose their activity, whatever operations are applied. */
  ghost predicate Linked(s: Core) {
    forall id :: id in s.assignments ==> s.assignments[id].activityId in s.activities
  }

  lemma ApplyKeepsLinked(s: Core, op: Operation)
    requires Linked(s) && Apply(s, op).Ok?
    ensures Linked(Apply(s, op).value)
  {
  }

  /** What the caller supplies for every change of an assignment. */
  datatype ChangeInput = ChangeInput(
    operationId: int, workspaceId: int, workInstanceId: int, assignmentId: int, expectedVersion: int,
    actor: int, authorization: int, context: Context, at: int)

  class WorkRegistry {
    var instances: map<int, Instance>
    var episodes: map<int, Episode>
    var activities: map<int, Activity>
    var assignments: map<int, Assignment>
    var streams: map<int, seq<Entry>>
    var operations: seq<Operation>
    var operationIds: set<int>
    var ledgerSequences: set<(int, int)>
    var lastSequence: map<int, int>

    function Stored(): Core
      reads this
    {
      Core(instances, episodes, activities, assignments, streams, operationIds, ledgerSequences, lastSequence)
    }

    /** The registry was filled by live calls, and holds exactly what they produced. */
    ghost predicate Valid()
      reads this
    {
      LiveRun(operations) && Run(EMPTY, operations) == Ok(Stored())
    }

    constructor ()
      ensures Valid() && Stored() == EMPTY && operations == []
    {
      instances, episodes, activities, assignments, streams := map[], map[], map[], map[], map[];
      operations, operationIds, ledgerSequences, lastSequence := [], {}, {}, map[];
    }

    function NextLedgerSequence(workspace: int): int
      reads this
    {
      LastSequence(Stored(), workspace) + 1
    }

    method Advance(instance: Instance)
      modifies this`instances
      ensures instances == old(instances)[instance.id := instance.(version := instance.version + 1)]
    {
      instances := instances[instance.id := instance.(version := instance.version + 1)];
    }

    method ApplyEpisode(instance: Instance, episode: Episode) returns (failed: Option<WorkError>)
      modifies this`instances, this`episodes
      ensures match PlanEpisode(old(Stored()), instance, episode)
        case Err(e) => failed == Some(e) && instances == old(instances) && episodes == old(episodes)
        case Ok(f) => failed == None && instances == old(instances)[f.key := f.instance] && episodes == Put(old(episodes), f.episode)
    {
      if episode.id in episodes { return Some(DuplicateId); }
      if !Names(instance.participants, episode.startedBy) { return Some(NotAParticipant); }
      if episode.workspaceId != instance.workspaceId { return Some(OutsideWorkspace); }
      if episode.workInstanceId != instance.id { return Some(WrongInstance); }
      episodes := episodes[episode.id := episode];
      Advance(instance.(episodeIds := instance.episodeIds + [episode.id]));
      failed := None;
    }

    method ApplyActivity(instance: Instance, activity: Activity) returns (failed: Option<WorkError>)
      modifies this`instances, this`activities
      ensures match PlanActivity(old(Stored()), instance, activity)
        case Err(e) => failed == Some(e) && instances == old(instances) && activities == old(activities)
        case Ok(f) => failed == None && instances == old(instances)[f.key := f.instance] && activities == Put(old(activities), f.activity)
    {
      if activity.id in activities { return Some(DuplicateId); }
      if !Names(instance.participants, activity.createdBy) { return Some(NotAParticipant); }
      if activity.workspaceId != instance.workspaceId { return Some(OutsideWorkspace); }
      if activity.workInstanceId != instance.id { return Some(WrongInstance); }
      if activity.workEpisodeId !in episodes || episodes[activity.workEpisodeId].workInstanceId != instance.id {
        return Some(MissingReference);
      }
      activities := activities[activity.id := activity];
      Advance(instance.(activityIds := instance.activityIds + [activity.id]));
      failed := None;
    }

    method ApplyAssignment(instance: Instance, assignment: Assignment) returns (failed: Option<WorkError>)
      modifies this`instances, this`activities, this`assignments
      ensures match PlanAssignment(old(Stored()), instance, assignment)
        case Err(e) => failed == Some(e) && instances == old(instances) && activities == old(activities) && assignments == old(assignments)
        case Ok(f) =>
          failed == None && instances == old(instances)[f.key := f.instance] &&
          activities == Put(old(activities), f.activity) && assignments == Put(old(assignments), f.assignment)
    {
      if assignment.id in assignments { return Some(DuplicateId); }
      if assignment.workspaceId != instance.workspaceId { return Some(OutsideWorkspace); }
      if assignment.workInstanceId != instance.id { return Some(WrongInstance); }
      if !Registered(instance.participants, assignment.assignee) { return Some(NotAParticipant); }
      if assignment.activityId !in activities || activities[assignment.activityId].workInstanceId != instance.id {
        return Some(MissingReference);
      }
      var activity := activities[assignment.activityId];
      activities := activities[activity.id := activity.(status := Running)];
      assignments := assignments[assignment.id := assignment];
      Advance(instance.(assignmentIds := instance.assignmentIds + [assignment.id]));
      failed := None;
    }

    method ApplyAssignmentChange(instance: Instance, op: Operation) returns (failed: Option<WorkError>)
      requires op.body.AssignmentChanged? && Linked(Stored())
      modifies this`instances, this`activities, this`assignments
      ensures match PlanChange(old(Stored()), instance, op)
        case Err(e) => failed == Some(e) && instances == old(instances) && activities == old(activities) && assignments == old(assignments)
        case Ok(f) =>
          failed == None && instances == old(instances)[f.key := f.instance] &&
          activities == Put(old(activities), f.activity) && assignments == Put(old(assignments), f.assignment)
    {
      var kind, to := op.body.kind, op.body.to;
      if op.body.assignmentId !in assignments { return Some(MissingReference); }
      var assignment := assignments[op.body.assignmentId];
      if assignment.workspaceId != instance.workspaceId { return Some(OutsideWorkspace); }
      if assignment.workInstanceId != instance.id { return Some(WrongInstance); }
      if kind != TakeOver && assignment.assignee.principalId != op.actor { return Some(NotTheAssignee); }
      var assignee, previous, status := assignment.assignee, assignment.previousAssignee, assignment.status;
      if kind == HandOff || kind == TakeOver {
        if to.None? { return Some(MissingTarget); }
        if !Registered(instance.participants, to.value) { return Some(NotAParticipant); }
        previous := Some(assignment.assignee);
        assignee := to.value;
        status := Active;
      } else if kind == GiveBack {
        if assignment.previousAssignee.None? { return Some(NoPreviousAssignee); }
        assignee := assignment.previousAssignee.value;
        previous := Some(assignment.assignee);
        status := Active;
      } else if kind == Suspend {
        if assignment.status != Active { return Some(WrongStatus); }
        status := Suspended;
      } else {
        if assignment.status != Suspended { return Some(WrongStatus); }
        status := Active;
      }
      var from := if assignment.assignee.principalId == assignee.principalId then None else Some(assignment.assignee);
      var transition := Transition(Changed(kind), op.actor, op.body.authorization, from, assignee, op.body.context, op.at);
      var changed := assignment.(assignee := assignee, previousAssignee := previous, status := status,
        context := assignment.context + op.body.context, transitions := assignment.transitions + [transition]);
      assignments := assignments[assignment.id := changed];
      var activity := activities[assignment.activityId];
      activities := activities[activity.id := activity.(status := if status == Suspended then Paused else Running)];
      Advance(instance);
      failed := None;
    }

    method ApplyOutcome(instance: Instance, outcome: Outcome) returns (failed: Option<WorkError>)
      modifies this`instances
      ensures match PlanOutcome(instance, outcome)
        case Err(e) => failed == Some(e) && instances == old(instances)
        case Ok(f) => failed == None && instances == old(instances)[f.key := f.instance]
    {
      if exists k :: 0 <= k < |instance.outcomes| && instance.outcomes[k].id == outcome.id { return Some(DuplicateId); }
      if !Names(instance.participants, outcome.recordedBy) { return Some(NotAParticipant); }
      Advance(instance.(outcomes := instance.outcomes + [outcome]));
      failed := None;
    }

    /** The body of `#apply` after the admission checks; a refusal has written nothing. */
    method Change(op: Operation) returns (failed: Option<WorkError>)
      requires Linked(Stored())
      modifies this`instances, this`episodes, this`activities, this`assignments
      ensures match Plan(old(Stored()), op)
        case Err(e) => failed == Some(e) && Stored() == old(Stored())
        case Ok(f) =>
          failed == None && instances == old(instances)[f.key := f.instance] && episodes == Put(old(episodes), f.episode) &&
          activities == Put(old(activities), f.activity) && assignments == Put(old(assignments), f.assignment)
    {
      if op.body.InstanceCreated? {
        if op.workInstanceId in instances { return Some(DuplicateId); }
        instances := instances[op.workInstanceId := op.body.instance];
        return None;
      }
      if op.workInstanceId !in instances { return Some(MissingInstance); }
      var instance := instances[op.workInstanceId];
      if instance.workspaceId != op.workspaceId { return Some(OutsideWorkspace); }
      if op.expectedVersion != instance.version { return Some(VersionConflict); }
      if !Names(instance.participants, op.actor) { return Some(NotAParticipant); }
      match op.body
      case EpisodeStarted(e) => failed := ApplyEpisode(instance, e);
      case ActivityAdded(a) => failed := ApplyActivity(instance, a);
      case ActivityAssigned(a) => failed := ApplyAssignment(instance, a);
      case AssignmentChanged(_, _, _, _, _) => failed := ApplyAssignmentChange(instance, op);
      case OutcomeRecorded(o) => failed := ApplyOutcome(instance, o);
    }

    /** The bookkeeping at the end of `#apply`: stream entry, ids, sequences. */
    method Record(op: Operation)
      modifies this`streams, this`operationIds, this`ledgerSequences, this`lastSequence, this`operations
      ensures
        var stream := Stream(old(Stored()), op.workInstanceId);
        streams == old(streams)[op.workInstanceId := stream + [EntryFor(op, |stream| + 1)]]
      ensures operationIds == old(operationIds) + {op.id}
      ensures ledgerSequences == old(ledgerSequences) + {(op.workspaceId, op.ledgerSequence)}
      ensures lastSequence == old(lastSequence)[op.workspaceId := Max(LastSequence(old(Stored()), op.workspaceId), op.ledgerSequence)]
      ensures operations == old(operations) + [op]
    {
      var stream := if op.workInstanceId in streams then streams[op.workInstanceId] else [];
      streams := streams[op.workInstanceId := stream + [EntryFor(op, |stream| + 1)]];
      operationIds := operationIds + {op.id};
      ledgerSequences := ledgerSequences + {(op.workspaceId, op.ledgerSequence)};
      var last := if op.workspaceId in lastSequence then lastSequence[op.workspaceId] else 0;
      lastSequence := lastSequence[op.workspaceId := Max(last, op.ledgerSequence)];
      operations := operations + [op];
    }

    /** `#apply`: either the operation takes its full effect, or nothing changes. */
    method ApplyOperation(op: Operation) returns (failed: Option<WorkError>)
      requires Linked(Stored())
      modifies this
      ensures Linked(Stored())
      ensures match Apply(old(Stored()), op)
        case Err(e) => failed == Some(e) && Stored() == old(Stored()) && operations == old(operations)
        case Ok(s) => failed == None && Stored() == s && operations == old(operations) + [op]
      ensures old(Inv(Stored())) ==> Answers(old(Stored()), Stored(), op, failed)
    {
      if op.ledgerSequence < 1 || (!op.body.InstanceCreated? && op.expectedVersion < 1) {
        failed := Some(InvalidOperation);
      } else if op.id in operationIds {
        failed := Some(DuplicateOperation);
      } else if (op.workspaceId, op.ledgerSequence) in ledgerSequences {
        failed := Some(DuplicateSequence);
      } else {
        failed := Change(op);
        if failed == None {
          Record(op);
          assert Apply(old(Stored()), op) == Ok(Stored());
          ApplyKeepsLinked(old(Stored()), op);
        }
      }
      if old(Inv(Stored())) { ApplyAnswers(old(Stored()), op); }
    }

    /** A live call: the operation gets the next sequence of its workspace. */
    method ApplyLive(op: Operation) returns (failed: Option<WorkError>)
      requires Valid() && WellFormed(op) && op.ledgerSequence == NextLedgerSequence(op.workspaceId)
      modifies this
      ensures Valid()
      ensures failed == None ==> Performed(old(Stored()), old(operations), Stored(), operations, op)
      ensures failed.Some? ==> Stored() == old(Stored()) && operations == old(operations) && old(Refused(Stored(), op, failed.value))
      ensures failed == None <==> old(Unopposed(Stored(), op))
    {
      LiveAccepts(operations, Stored(), op);
      LiveStateOk(operations);
      ghost var before := operations;
      failed := ApplyOperation(op);
      if failed == None { LiveRunSnoc(before, op); }
    }

    method ReadInstance(workspace: int, id: int) returns (r: Result<Instance, WorkError>)
      requires Valid()
      ensures r.Ok? ==> r.value.id == id
      ensures r == if id !in instances then Err(MissingInstance)
                   else if instances[id].workspaceId != workspace then Err(OutsideWorkspace)
                   else Ok(instances[id])
    {
      LiveStateOk(operations);
      if id !in instances { return Err(MissingInstance); }
      if instances[id].workspaceId != workspace { return Err(OutsideWorkspace); }
      r := Ok(instances[id]);
    }

    /** The participants in order, if there are any, none twice, and the roles and the creator are among them. */
    method NormalizeInput(participants: seq<Participant>, roles: Roles, createdBy: int) returns (r: Result<seq<Participant>, WorkError>)
      ensures r.Ok? <==>
        participants != [] && DistinctPrincipals(participants) && RolesFit(roles, participants) && TakesPart(participants, createdBy)
      ensures r.Ok? ==>
        && multiset(r.value) == multiset(participants) && DistinctPrincipals(r.value)
        && forall i, j :: 0 <= i < j < |r.value| ==> r.value[i].principalId < r.value[j].principalId
    {
      if participants == [] { return Err(InvalidInput); }
      var sorted := SortBy(participants, ById);
      SortPermutes(participants, ById);
      SortSorts(participants, ById);
      SortedDistinctPrincipals(participants);
      RolesIff(roles, participants);
      SortedNames(participants, createdBy);
      if !(forall i, j :: 0 <= i < j < |sorted| ==> sorted[i].principalId != sorted[j].principalId) { return Err(InvalidInput); }
      if !RolesAccepted(roles, sorted) { return Err(InvalidInput); }
      if !Names(sorted, createdBy) { return Err(NotAParticipant); }
      r := Ok(sorted);
    }

    method CreateWorkInstance(operationId: int, id: int, workspace: int, intent: int, createdBy: int,
                              participants: seq<Participant>, roles: Roles, context: Context, at: int)
      returns (r: Result<Instance, WorkError>)
      requires Valid()
      modifies this
      ensures Valid()
      ensures r.Ok? <==>
        && participants != [] && DistinctPrincipals(participants) && RolesFit(roles, participants)
        && TakesPart(participants, createdBy) && operationId !in old(operationIds) && id !in old(instances)
      ensures r.Err? ==> Stored() == old(Stored()) && operations == old(operations)
      ensures r.Ok? ==>
        && r.value == Instance(id, workspace, intent, 1, r.value.participants, roles, context, [], [], [], [], at)
        && multiset(r.value.participants) == multiset(participants)
        && (forall i, j :: 0 <= i < j < |r.value.participants| ==> r.value.participants[i].principalId < r.value.participants[j].principalId)
        && id !in old(instances) && instances == old(instances)[id := r.value]
        && Performed(old(Stored()), old(operations), Stored(), operations,
             Operation(operationId, old(NextLedgerSequence(workspace)), workspace, id, createdBy, at, 0, InstanceCreated(r.value)))
    {
      var sorted := NormalizeInput(participants, roles, createdBy);
      if sorted.Err? { return Err(sorted.error); }
      var instance := Instance(id, workspace, intent, 1, sorted.value, roles, context, [], [], [], [], at);
      var op := Operation(operationId, NextLedgerSequence(workspace), workspace, id, createdBy, at, 0, InstanceCreated(instance));
      var failed := ApplyLive(op);
      r := if failed.Some? then Err(failed.value) else Ok(instance);
    }

    method StartEpisode(operationId: int, id: int, workspace: int, instanceId: int, expectedVersion: int,
                        objective: int, actor: int, context: Context, at: int)
      returns (r: Result<Episode, WorkError>)
      requires Valid()
      modifies this
      ensures Valid()
      ensures r.Ok? <==> old(Ready(Stored(), operationId, workspace, instanceId, expectedVersion, actor)) && id !in old(episodes)
      ensures r.Err? ==> Stored() == old(Stored()) && operations == old(operations)
      ensures r.Ok? ==>
        && instanceId in old(instances)
        && r.value == Episode(id, workspace, instanceId, |old(instances)[instanceId].episodeIds| + 1, objective, actor, context, at)
        && id !in old(episodes) && episodes == old(episodes)[id := r.value]
        && Performed(old(Stored()), old(operations), Stored(), operations,
             Operation(operationId, old(NextLedgerSequence(workspace)), workspace, instanceId, actor, at, expectedVersion, EpisodeStarted(r.value)))
    {
      var read := ReadInstance(workspace, instanceId);
      if read.Err? { return Err(read.error); }
      var instance := read.value;
      var episode := Episode(id, instance.workspaceId, instance.id, |instance.episodeIds| + 1, objective, actor, context, at);
      var op := Operation(operationId, NextLedgerSequence(workspace), workspace, instanceId, actor, at, expectedVersion, EpisodeStarted(episode));
      var failed := ApplyLive(op);
      r := if failed.Some? then Err(failed.value) else Ok(episode);
    }

    method AddActivity(operationId: int, id: int, activityType: int, workspace: int, instanceId: int, episodeId: int,
                       expectedVersion: int, actor: int, context: Context, at: int)
      returns (r: Result<Activity, WorkError>)
      requires Valid()
      modifies this
      ensures Valid()
      ensures r.Ok? <==>
        && old(Ready(Stored(), operationId, workspace, instanceId, expectedVersion, actor)) && id !in old(activities)
        && episodeId in old(episodes) && old(episodes)[episodeId].workInstanceId == instanceId
      ensures r.Err? ==> Stored() == old(Stored()) && operations == old(operations)
      ensures r.Ok? ==>
        && id !in old(activities) && activities == old(activities)[id := r.value]
        && r.value == Activity(id, activityType, workspace, instanceId, episodeId, Planned, context, actor, at)
        && Performed(old(Stored()), old(operations), Stored(), operations,
             Operation(operationId, old(NextLedgerSequence(workspace)), workspace, instanceId, actor, at, expectedVersion, ActivityAdded(r.value)))
    {
      var read := ReadInstance(workspace, instanceId);
      if read.Err? { return Err(read.error); }
      var instance := read.value;
      var activity := Activity(id, activityType, instance.workspaceId, instance.id, episodeId, Planned, context, actor, at);
      var op := Operation(operationId, NextLedgerSequence(workspace), workspace, instanceId, actor, at, expectedVersion, ActivityAdded(activity));
      var failed := ApplyLive(op);
      r := if failed.Some? then Err(failed.value) else Ok(activity);
    }

    method AssignActivity(operationId: int, id: int, workspace: int, instanceId: int, activityId: int, expectedVersion: int,
                          assignedBy: int, assignee: Participant, authorization: int, context: Context, at: int)
      returns (r: Result<Assignment, WorkError>)
      requires Valid()
      modifies this
      ensures Valid()
      ensures r.Ok? <==>
        && old(Ready(Stored(), operationId, workspace, instanceId, expectedVersion, assignedBy)) && id !in old(assignments)
        && assignee in old(instances)[instanceId].participants
        && activityId in old(activities) && old(activities)[activityId].workInstanceId == instanceId
      ensures r.Err? ==> Stored() == old(Stored()) && operations == old(operations)
      ensures r.Ok? ==>
        && id !in old(assignments) && assignments == old(assignments)[id := r.value]
        && r.value == Assignment(id, workspace, instanceId, activityId, assignee, None, Active, context,
             [Transition(Assigned, assignedBy, authorization, None, assignee, context, at)])
        && activityId in activities && activities[activityId].status == Running
        && Performed(old(Stored()), old(operations), Stored(), operations,
             Operation(operationId, old(NextLedgerSequence(workspace)), workspace, instanceId, assignedBy, at, expectedVersion, ActivityAssigned(r.value)))
    {
      var read := ReadInstance(workspace, instanceId);
      if read.Err? { return Err(read.error); }
      var instance := read.value;
      var first := Transition(Assigned, assignedBy, authorization, None, assignee, context, at);
      var assignment := Assignment(id, instance.workspaceId, instance.id, activityId, assignee, None, Active, context, [first]);
      var op := Operation(operationId, NextLedgerSequence(workspace), workspace, instanceId, assignedBy, at, expectedVersion, ActivityAssigned(assignment));
      var failed := ApplyLive(op);
      r := if failed.Some? then Err(failed.value) else Ok(assignment);
    }

    /** handoffActivity, takeOverActivity, giveBackActivity, suspendActivity and resumeActivity. */
    method ChangeAssignment(input: ChangeInput, kind: ChangeKind, to: Option<Participant>)
      returns (r: Result<Assignment, WorkError>)
      requires Valid()
      modifies this
      ensures Valid()
      ensures r.Ok? <==>
        && old(Ready(Stored(), input.operationId, input.workspaceId, input.workInstanceId, input.expectedVersion, input.actor))
        && input.assignmentId in old(assignments) && old(assignments)[input.assignmentId].workInstanceId == input.workInstanceId
        && MayChange(old(instances)[input.workInstanceId].participants, old(assignments)[input.assignmentId], kind, to, input.actor)
      ensures r.Err? ==> Stored() == old(Stored()) && operations == old(operations)
      ensures r.Ok? ==>
        && input.assignmentId in old(assignments) && input.assignmentId in assignments
        && r.value == assignments[input.assignmentId]
        && Performed(old(Stored()), old(operations), Stored(), operations,
             Operation(input.operationId, old(NextLedgerSequence(input.workspaceId)), input.workspaceId, input.workInstanceId,
               input.actor, input.at, input.expectedVersion,
               AssignmentChanged(kind, input.assignmentId, input.authorization, to, input.context)))
      ensures r.Ok? ==> HandedOn(old(assignments)[input.assignmentId], r.value, kind, to,
                                 input.actor, input.authorization, input.context, input.at)
      ensures r.Ok? ==>
        OnlyStatus(old(Stored()), Stored(), r.value.activityId, if kind == Suspend then Paused else Running)
    {
      var read := ReadInstance(input.workspaceId, input.workInstanceId);
      if read.Err? { return Err(read.error); }
      var op := Operation(input.operationId, NextLedgerSequence(input.workspaceId), input.workspaceId, input.workInstanceId,
        input.actor, input.at, input.expectedVersion,
        AssignmentChanged(kind, input.assignmentId, input.authorization, to, input.context));
      var failed := ApplyLive(op);
      if failed.Some? { return Err(failed.value); }
      r := Ok(assignments[input.assignmentId]);
    }

    method RecordOutcome(operationId: int, id: int, workspace: int, instanceId: int, expectedVersion: int,
                         actor: int, value: int, at: int)
      returns (r: Result<Outcome, WorkError>)
      requires Valid()
      modifies this
      ensures Valid()
      ensures r.Ok? <==>
        && old(Ready(Stored(), operationId, workspace, instanceId, expectedVersion, actor))
        && forall k :: 0 <= k < |old(instances)[instanceId].outcomes| ==> old(instances)[instanceId].outcomes[k].id != id
      ensures r.Err? ==> Stored() == old(Stored()) && operations == old(operations)
      ensures r.Ok? ==>
        && instanceId in old(instances) && instanceId in instances
        && instances[instanceId].outcomes == old(instances)[instanceId].outcomes + [r.value]
        && r.value == Outcome(id, value, actor, at)
        && Performed(old(Stored()), old(operations), Stored(), operations,
             Operation(operationId, old(NextLedgerSequence(workspace)), workspace, instanceId, actor, at, expectedVersion, OutcomeRecorded(r.value)))
    {
      var read := ReadInstance(workspace, instanceId);
      if read.Err? { return Err(read.error); }
      var outcome := Outcome(id, value, actor, at);
      var op := Operation(operationId, NextLedgerSequence(workspace), workspace, instanceId, actor, at, expectedVersion, OutcomeRecorded(outcome));
      var failed := ApplyLive(op);
      r := if failed.Some? then Err(failed.value) else Ok(outcome);
    }

    method History() returns (history: seq<Operation>)
      ensures history == SortBy(operations, InReplayOrder)
    {
      history := SortBy(operations, InReplayOrder);
    }

    /** Any list of operations: the outcome is that of running it in replay order. */
    static method Replay(ops: seq<Operation>) returns (r: Result<WorkRegistry, WorkError>)
      ensures match Run(EMPTY, SortBy(ops, InReplayOrder))
        case Err(e) => r == Err(e)
        case Ok(s) => r.Ok? && fresh(r.value) && r.value.Stored() == s && r.value.operations == SortBy(ops, InReplayOrder)
    {
      var registry := new WorkRegistry();
      var ordered := SortBy(ops, InReplayOrder);
      for i := 0 to |ordered|
        invariant fresh(registry) && Linked(registry.Stored()) && registry.operations == ordered[..i]
        invariant Run(EMPTY, ordered[..i]) == Ok(registry.Stored())
      {
        RunTake(ordered, i);
        var failed := registry.ApplyOperation(ordered[i]);
        if failed.Some? { return Err(failed.value); }
      }
      assert ordered[..|ordered|] == ordered;
      r := Ok(registry);
    }

    /** Replaying a registry's own history rebuilds everything it stores, in another registry. */
    method ReplayHistory() returns (replayed: WorkRegistry)
      requires Valid()
      ensures fresh(replayed) && replayed.Stored() == Stored()
    {
      var history := History();
      ReplayRebuilds(operations);
      SortedTwice(operations);
      var r := Replay(history);
      replayed := r.value;
    }
  }

  lemma RunTake(ops: seq<Operation>, i: nat)
    requires i < |ops| && Run(EMPTY, ops[..i]).Ok?
    ensures ops[..i + 1] == ops[..i] + [ops[i]]
    ensures Run(EMPTY, ops[..i + 1]) == Apply(Run(EMPTY, ops[..i]).value, ops[i])
    ensures Apply(Run(EMPTY, ops[..i]).value, ops[i]).Err? ==>
              Run(EMPTY, ops) == Err(Apply(Run(EMPTY, ops[..i]).value, ops[i]).error)
  {
    assert ops[..i + 1] == ops[..i] + [ops[i]];
    Replay.RunSnoc(Apply, EMPTY, ops[..i], ops[i]);
    Replay.RunAppend(Apply, EMPTY, ops[..i + 1], ops[i + 1..]);
    assert ops == ops[..i + 1] + ops[i + 1..];
  }

  lemma SortedTwice(ops: seq<Operation>)
    ensures SortBy(SortBy(ops, InReplayOrder), InReplayOrder) == SortBy(ops, InReplayOrder)
  {
    SortSorts(ops, InReplayOrder);
    SortKeepsSorted(SortBy(ops, InReplayOrder), InReplayOrder);
  }
}
