# Woyengi state kernel: a Dafny model

Woyengi keeps state as append-only records and derives everything else from them: bitemporal
projections, work registries rebuilt by replay, reversible identity merges, provenance graphs,
merged logs, durable events, gated execution. This project models the algorithms and protocols
behind those promises and proves what they keep over every input and every run.

One module per source file, in a file of the same kind of name. Each module has

- data types for the values of the source file, with ids and instants as integers (their rank in
  the order the source compares them by) and a `Result` or `Option` where the source throws;
- specification functions on those values, one per operation of the source;
- a class with the fields the source updates in place, whose methods take the source's steps and
  loops and are proved equal to the specification functions, error cases and unchanged state included;
- predicates that say what each operation asks for and answers in the fields of the records alone, and
  that the methods' contracts state beside the specification functions;
- lemmas about the specification: invariants of every run, round trips, refinements, and, where a
  promise does not hold, the condition under which it does and an input for which it does not.

| module | source | main results |
| --- | --- | --- |
| `Provenance` | packages/provenance | Kahn's sort gives the least topological order, and fails exactly on cycles |
| `Bindings` | packages/bindings | bounded traversal is timed, authorised reachability with exact distances and a complete trace |
| `Work` | packages/work | replay sorted by workspace rebuilds every live run, because workspaces commute |
| `Identity` | packages/identity | merge edges stay a forest; what merge and split do to every resolution; when a history replays |
| `State` | packages/state | time travel agrees with replay, exactly when transitions follow their claims |
| `Sync` | packages/sync | last-writer-wins merge is a join; conflicts are the maximal operations, hidden exactly by cycles |
| `Gateway` | packages/provider-gateway | at most one adapter invocation per key over all interleavings, and exactly when re-entrance breaks it |
| `Storage`, `EventBus` | packages/storage, packages/event-bus | atomic batches that leave no gap, from any file that opens; deliveries are a prefix of the wanted events through crashes |
| `Effects` | packages/effects | at most one semantic commit, justified at its journal position |
| `Composition` | packages/composition-runtime | lifecycle paths, bindings of active components, which leases are accounted for |
| `RateLimiter` | services/platform-api | window bound, exact retry time |
| `Permissions` | packages/permissions | authority only shrinks along delegation chains |
| `CanonicalJson`, `WorldBundle` | packages/world-bundle | unique readability (RFC 8259, sections 4 to 7); created bundles conform; the private partition does not show |

`Wrappers`, `Collections`, `Sorting` and `Replay` hold what the modules share: option and result
types, filters and distinct lists, a stable sort with uniqueness of the sorted arrangement, and
re-running a log in another order.

Places where the code differs from what its documentation promises, or checks an argument after it
has changed something; the model follows the code:

- provenance `invalidate` records the source before it checks the reason and time, so a refused call
  still invalidates (packages/provenance/src/index.ts:86-97);
- effects `decide` records an accepted outcome before it checks the commit id, so a malformed one
  leaves an accepted outcome without a commit (packages/effects/src/index.ts:544-548);
- effects `recordVerification` compares the receipt's trimmed provider id with the verifier id as it was
  given and stores the trimmed one, so a provider whose id is given with blanks around it counts as an
  independent verifier of its own work (packages/effects/src/index.ts:448-453);
- a subscription has one cursor while sequences count per workspace, so a subscription that wants events
  of several workspaces can lose some for good (packages/event-bus/src/index.ts:78-93);
- composition `unregisterProvider` deletes the provider before it checks the reason, and only at the
  first component bound to it, so a blank reason leaves components active on a provider that is gone
  (packages/composition-runtime/src/index.ts:160-169);
- composition `registerProvider` stores the provider before it reconciles, so an evaluator that throws,
  or gives a blank reason (packages/composition-runtime/src/index.ts:217, 225), leaves the remaining
  components as they were;
- `acquireRuntime` leases that `normalizeLeases` refuses are disposed by nobody
  (packages/composition-runtime/src/index.ts:230-241).

## Model

| member | source | states |
|---|---|---|
| Provenance.ProvenanceGraph.Build | packages/provenance/src/index.ts:37-84 | `build` succeeds exactly when ids are distinct, references resolve and the parent graph has no cycle; the stored order is parents-first and least among all such orders; each failure says which check failed |
| Provenance.GreedyIsLeastOrder | packages/provenance/src/index.ts:64-77 | always taking the least ready node gives an arrangement that no other topological order precedes position by position |
| Provenance.LeastIsUnique | packages/provenance/src/index.ts:64-77 | there is only one such order, so the stored order is a function of the graph |
| Provenance.DryLeavesCycles | packages/provenance/src/index.ts:78-81 | when the ready list runs dry, the nodes not listed are exactly those on or below a cycle, which the error then names |
| Provenance.DryMeansCyclic | packages/provenance/src/index.ts:78-81 | all nodes were listed if and only if the graph is acyclic |
| Provenance.OrderedIsAcyclic | packages/provenance/src/index.ts:64-81 | any parents-first order of all nodes rules cycles out |
| Provenance.BuildForgetsListing | packages/provenance/src/index.ts:37-84 | two listings of the same nodes give the same graph and the same order |
| Provenance.ProvenanceGraph.TraceUpstream | packages/provenance/src/index.ts:99-112 | the depth-first search returns exactly the strict ancestors, in topological order, or fails on an unknown id |
| Provenance.ProvenanceGraph.TraceDownstream | packages/provenance/src/index.ts:114-125 | the worklist returns exactly the strict descendants, in topological order, or fails on an unknown id |
| Provenance.TracesAreConverse | packages/provenance/src/index.ts:99-125 | a is upstream of b if and only if b is downstream of a |
| Provenance.ProvenanceGraph.Invalidate | packages/provenance/src/index.ts:86-97 | takes the specified step: adds exactly the source and its descendants to what is unsupported, also when the call is then refused as malformed; an unknown id changes nothing |
| Provenance.ProvenanceGraph.SupportStatus | packages/provenance/src/index.ts:127-133 | a node is supported unless it is, or descends from, an invalidated source |
| Provenance.UnsupportedAfterRun | packages/provenance/src/index.ts:86-97 | after any run of invalidation calls, malformed and refused ones included, a node is unsupported exactly when some call named it or an ancestor of it |
| Bindings.BindingGraph.Append | packages/bindings/src/index.ts:59-62 | an id already present is refused and nothing changes; otherwise the binding is added at the end |
| Bindings.BindingGraph.TraverseFrom | packages/bindings/src/index.ts:64-113 | the loops over depth, frontier and candidates compute the level-by-level specification; a negative depth is refused |
| Bindings.TraverseIsReachability | packages/bindings/src/index.ts:64-113 | the records are, each once, exactly the references other than the start reachable in at most the given number of in-time authorised edges, and each `traversed` step carries the shortest distance |
| Bindings.DeeperExtends | packages/bindings/src/index.ts:83-111 | records and trace for one depth are prefixes of those for the next |
| Bindings.ExhaustedStays | packages/bindings/src/index.ts:83-111 | once the frontier is empty, no greater depth adds anything |
| Bindings.TraceIsComplete | packages/bindings/src/index.ts:85-109 | every candidate edge of every reference expanded appears exactly once, in binding order, and nothing else does |
| Bindings.TraceExplains | packages/bindings/src/index.ts:87-102 | each step's decision is the reason that held: out of time first, then denied, then already visited exactly when the target is the start or the target of an earlier traversed step, and traversed otherwise |
| Bindings.StepDepths | packages/bindings/src/index.ts:83-102 | every step, whatever its decision, carries a depth one more than the shortest distance of the reference it starts from |
| Bindings.CandidatesNeverTie | packages/bindings/src/index.ts:31-54 | among bindings that `createBinding` accepts no two candidates of a reference share a binding id, so the sort by id has no ties |
| Bindings.TraverseForgetsOrder | packages/bindings/src/index.ts:64-133 | appending the same bindings in another order changes neither records nor trace |
| Work.ApplyKeepsInv | packages/work/src/index.ts:505-658 | every accepted operation keeps versions equal to stream lengths, streams numbered 1 to version, ownership within one workspace, and custody chains |
| Work.ApplyAcceptsIff | packages/work/src/index.ts:505-658 | an operation is accepted if and only if its sequence and id are free and, unless it creates an instance, it names an instance of its workspace at its current version, its actor takes part, and its payload belongs to the instance and names only what exists there; a change of assignment also needs the assignee as actor (except taking over), a participant as target, a previous assignee or the right status |
| Work.ApplyStores | packages/work/src/index.ts:548-658 | an accepted operation has exactly the effect its kind stands for: the new record, one version more, the id listed in the instance, the activity running or paused, the assignment handed on; all else is as before |
| Work.ApplyLogs | packages/work/src/index.ts:532-546 | it takes its id and sequence, and its entry, numbered by the instance's new version and naming the episode, activity and assignment concerned, ends the stream |
| Work.ApplyRefuses | packages/work/src/index.ts:505-658 | the error of a refused operation is the case |
| Work.CustodyExtends | packages/work/src/index.ts:585-643 | an accepted change extends an unbroken chain of transitions: any `from` is the previous `to`, the last `to` is the assignee, all are registered participants, suspended exactly when the last kind is |
| Work.PlanLocal | packages/work/src/index.ts:505-587 | whether and how an operation is accepted depends only on its own footprint of keys |
| Work.MergeLocal | packages/work/src/index.ts:505-587 | an accepted operation changes nothing outside its footprint |
| Work.FootprintOwners | packages/work/src/index.ts:548-587 | an accepted operation's footprint is free or its workspace's before, and its workspace's after |
| Work.FootprintsDisjoint | packages/work/src/index.ts:548-587 | accepted operations of different workspaces have disjoint footprints |
| Work.Commute | packages/work/src/index.ts:203-207 | two accepted operations of different workspaces are accepted in the other order too, with the same resulting state |
| Work.SequencesGapFree | packages/work/src/index.ts:548-550 | in every live run the operations of each workspace carry ledger sequences 1, 2, 3, ... |
| Work.LiveStateOk | packages/work/src/index.ts:505-711 | the invariant holds after every live run |
| Work.LiveAccepts | packages/work/src/index.ts:505-550 | in a live registry the next sequence is always free: a call is refused only for a used operation id, a version below one, or what it asks for |
| Work.ReplayRebuilds | packages/work/src/index.ts:203-207 | replaying the history of any live run, sorted by workspace and sequence, never fails and gives the same instances, episodes, activities, assignments, streams and sequences |
| Work.WorkRegistry.ApplyOperation | packages/work/src/index.ts:505-546 | an operation takes its full effect, as stated by ApplyStores and ApplyLogs, exactly when it is acceptable; refused, it changes nothing and the error is the case |
| Work.WorkRegistry.ApplyAssignmentChange | packages/work/src/index.ts:585-643 | the branches on the kind of change compute the change of custody that ApplyStores states field by field, or its error with nothing changed |
| Work.WorkRegistry.CreateWorkInstance | packages/work/src/index.ts:209-257 | accepted exactly with distinct participants, owners and authorities present, all who have a role and the creator among them, and new operation and instance ids; then the instance holds its participants by id and gets the next sequence of its workspace; refused, nothing changes |
| Work.WorkRegistry.StartEpisode | packages/work/src/index.ts:259-296 | accepted exactly when the operation and episode ids are new and the actor, a participant, names the instance in its workspace at its current version; then the episode is the next of its instance and the registry and stream show it |
| Work.WorkRegistry.AddActivity | packages/work/src/index.ts:298-336 | the same for an activity, whose episode must exist and belong to the instance |
| Work.WorkRegistry.AssignActivity | packages/work/src/index.ts:338-389 | the same for an assignment, whose assignee must be a registered participant and whose activity must belong to the instance |
| Work.WorkRegistry.ChangeAssignment | packages/work/src/index.ts:391-414 | accepted exactly from the assignee (taking over: from any participant) with a registered target, a previous assignee or the right status as the kind needs; then the assignee is the target, the previous assignee or the same, the previous assignee is the old one (suspending and resuming: unchanged), status and activity are suspended exactly after suspending, contexts are merged, the transition says who, what, from whom and to whom, the version is one higher and nothing else changes |
| Work.WorkRegistry.RecordOutcome | packages/work/src/index.ts:416-447 | the same for an outcome, whose id must be new to the instance |
| Work.WorkRegistry.Replay | packages/work/src/index.ts:203-207 | for any list of operations the loop over the sorted list gives the specified state, or the first error |
| Work.WorkRegistry.ReplayHistory | packages/work/src/index.ts:476-478 | replaying a live registry's own history builds another registry with the same stored state |
| Replay.SortedReplay | packages/work/src/index.ts:812-814 | for any partial step whose scopes commute, sorting an accepted log by (scope, sequence) re-runs to the same state without an error |
| Identity.ClimbIsBounded | packages/identity/src/index.ts:238-249 | a climb along merge edges that ends at all ends within as many steps as there are edges |
| Identity.CanonicalMeans | packages/identity/src/index.ts:238-249 | an entity resolves to the one without a merge edge at the end of its climb; the cycle error is reported exactly if the climb has no end |
| Identity.MergeKeepsForest | packages/identity/src/index.ts:214-228 | merging an entity into one that does not lie at or below it keeps a forest, also when an already merged entity is re-parented; exactly the entities below the merged one now resolve to the target's root |
| Identity.MergeClosesIff | packages/identity/src/index.ts:217-219 | in a forest, a merge edge closes a cycle if and only if the target is the merged entity or lies below it, which the check before a merge excludes |
| Identity.SplitKeepsForest | packages/identity/src/index.ts:230-236 | a split keeps a forest; exactly the entities below the split one now resolve to it |
| Identity.SplitUndoesMerge | packages/identity/src/index.ts:214-236 | splitting right after a merge restores every resolution if and only if the merged entity was a root |
| Identity.CanonicalIds | packages/identity/src/index.ts:238-249 | the distinct canonical ids are the entities without a merge edge; their number is entities minus merge edges |
| Identity.ApplyKeepsInv | packages/identity/src/index.ts:162-191 | every accepted operation keeps the forest and keeps everything stored what the logged operations say: entities created, proposals made and confirmed, alias owners, merge edges and merge history |
| Identity.ApplyAnswers | packages/identity/src/index.ts:162-236 | on a forest an operation is accepted if and only if its id is new, the entities and the proposal it names are there, a created entity is not, a merge is of entities that do not resolve together and a split of a merged one; then exactly what its kind stands for changes; otherwise the error is the case and nothing changes |
| Identity.CycleUnreachable | packages/identity/src/index.ts:241-244 | in every reachable registry each entity resolves; the cycle error is never thrown |
| Identity.AcceptedIff | packages/identity/src/index.ts:162-191 | a list of operations is accepted if and only if each has a new id, creates no entity twice and comes after what it names, and the merges and splits alone are accepted in their order |
| Identity.AliasMembers | packages/identity/src/index.ts:193-197 | an alias resolves to exactly the canonical ids of its owners |
| Identity.AliasListed | packages/identity/src/index.ts:195-196 | each canonical id once, in rising order |
| Identity.AliasAfterMerge | packages/identity/src/index.ts:193-228 | after merging a root, an alias resolves as before with that root replaced by where it went |
| Identity.ReplayForgetsOrder | packages/identity/src/index.ts:147-160 | replay depends only on the set of operations |
| Identity.ReplayRewinds | packages/identity/src/index.ts:147-160 | for operations applied in (time, id) order, replay up to an instant gives the registry as it was after the operations recorded by then |
| Identity.ReplayAccepts | packages/identity/src/index.ts:147-160 | replaying an accepted log up to an instant succeeds if and only if every operation by then comes after what it names in (time, id) order and the merges and splits alone are accepted in that order |
| Identity.ReplayRebuilds | packages/identity/src/index.ts:147-160 | replaying a history gives a registry that answers every call alike if and only if every operation comes after what it names in (time, id) order and the merges and splits alone make the same edges in that order as in the order applied |
| Identity.ReplayRebuildsByLast | packages/identity/src/index.ts:147-160 | equivalently, read off the log: nothing precedes what it names, the merges and splits are accepted in time order, and for every entity the last of them in that order leaves it merged, or not, as the last one applied |
| Identity.ReplayRebuildsInOrder | packages/identity/src/index.ts:147-160 | when merges and splits were applied in time order, it does so if and only if every operation comes after what it names |
| Identity.SameAliases | packages/identity/src/index.ts:193-197 | registries that are alike in this sense resolve every alias alike |
| Identity.BackdatedOperationBreaksReplay | packages/identity/src/index.ts:162-191 | an alias added with an instant before its entity's creation is accepted live but makes the replay throw |
| Identity.IdentityRegistry.FindCanonical | packages/identity/src/index.ts:238-249 | the loop ends for any edges and gives what CanonicalMeans states |
| Identity.IdentityRegistry.MergeEntities | packages/identity/src/index.ts:214-228 | the checks and updates of a merge; refused, nothing changes |
| Identity.IdentityRegistry.SplitEntity | packages/identity/src/index.ts:230-236 | the checks and updates of a split; refused, nothing changes |
| Identity.IdentityRegistry.ApplyOperation | packages/identity/src/index.ts:162-191 | the whole new registry for every kind of operation, or the error with nothing changed; on a reachable registry accepted, answered and refused exactly as stated by ApplyAnswers |
| Identity.IdentityRegistry.FindAll | packages/identity/src/index.ts:195-195 | all owners are resolved, or some owner lies on a cycle |
| Identity.IdentityRegistry.ListOwners | packages/identity/src/index.ts:193-197 | resolving an alias never fails on a reachable registry; it gives the canonical ids of its owners, each once and rising |
| Identity.IdentityRegistry.StatusOf | packages/identity/src/index.ts:199-204 | on a reachable registry a proposal is confirmed exactly when some logged merge names it, and absent exactly when no logged proposal has its id |
| Identity.IdentityRegistry.FromOperations | packages/identity/src/index.ts:147-160 | the replay loop gives the specified registry or the first error |
| State.AgreeingLedgersProjectAlike | packages/state/src/index.ts:112-177 | a projection at an instant depends only on the records with transaction time up to it |
| State.LaterRecordsChangeNothing | packages/state/src/index.ts:72-87 | appending a record from after an instant leaves the view at that instant as it was |
| State.ProjectionForgetsAppendOrder | packages/state/src/index.ts:112-177 | projection and trace are functions of the set of records |
| State.CandidatesAreGoverning | packages/state/src/index.ts:115-128 | the candidates are exactly the claims on subject and predicate, known then, valid then, whose effective lifecycle is verified or provisional |
| State.SelectedWins | packages/state/src/index.ts:213-226 | candidates are listed strictly: one before another is verified where that one is provisional; with the same status it has the greater authority, then the later valid time, the later transaction time, the greater confidence, then the smaller id; the selected one is the first |
| State.NoHiddenConflicts | packages/state/src/index.ts:129-139 | the conflicts are exactly the candidates whose value differs from the selected one's |
| State.EffectiveIsLatest | packages/state/src/index.ts:169-177 | the effective lifecycle is the status of the latest transition recorded by then |
| State.EffectiveIsOwn | packages/state/src/index.ts:169-177 | before any transition it is the claim's own |
| State.EffectiveIff | packages/state/src/index.ts:169-177 | on a ledger the effective lifecycle is the status of the latest transition by (time, id) recorded by then, and the claim's own if there is none |
| State.ProjectionMeans | packages/state/src/index.ts:112-139 | a projection: the candidates are exactly the claims on subject and predicate, known then, valid then and in force, by rank; the first is selected; the conflicts are exactly those with another value, by rank |
| State.TraceMeans | packages/state/src/index.ts:112-167 | the trace counts the claims on subject and predicate, those known then, those also valid then, and the candidates |
| State.AppendMeans | packages/state/src/index.ts:72-87 | a record is refused exactly if its id is in use, a transition also if its target is not a claim; otherwise it is added at the end |
| State.AppendAllAccepts | packages/state/src/index.ts:52-87 | a list of records is accepted exactly when ids are fresh and every target comes first |
| State.ReplayAccepts | packages/state/src/index.ts:52-70 | replaying a ledger's records up to an instant succeeds if and only if every transition by then comes after the claim it targets in (time, id) order |
| State.ReplayIff | packages/state/src/index.ts:52-70 | replaying any list of records up to an instant succeeds if and only if those by then have different ids and each transition among them targets a claim before it in (time, id); the ledger then holds exactly those records |
| State.TimeTravel | packages/state/src/index.ts:52-70 | under that condition, projecting the full ledger at an instant and projecting the replay up to it, or any later limit, give the same selection, candidates, conflicts and counts after discovery |
| State.ReplayRoundTrip | packages/state/src/index.ts:104-110 | a full replay holds the same records and writes them back identically |
| State.CanonicalLists | packages/state/src/index.ts:104-110 | the canonical records are those of the ledger, each once, in the order of (time, id) |
| State.BackdatedTransitionBreaksReplay | packages/state/src/index.ts:78-87 | a transition dated before its claim is accepted live, but the ledger's own records then do not replay |
| State.FlattenedRecords | packages/state/src/index.ts:104-110 | listing transitions target by target before the sort does not show in the canonical records |
| State.ClaimLedger.AppendClaim | packages/state/src/index.ts:72-76 | the claim is added exactly if its id is not in use; otherwise nothing changes |
| State.ClaimLedger.AppendLifecycleTransition | packages/state/src/index.ts:78-87 | the transition is added to its target's history exactly if its id is not in use and its target is a claim; otherwise nothing changes |
| State.ClaimLedger.FromRecords | packages/state/src/index.ts:52-70 | the replay loop succeeds exactly as stated by ReplayIff and then holds exactly the records up to the instant; otherwise it ends at the first error |
| State.ClaimLedger.ListRecords | packages/state/src/index.ts:104-110 | the records of the ledger, each once, by (time, id), whatever its map order |
| State.ClaimLedger.EffectiveStatus | packages/state/src/index.ts:169-177 | computed from the per-target lists, the effective lifecycle that EffectiveIff states |
| State.ClaimLedger.Project | packages/state/src/index.ts:112-167 | the pipeline gives the selection, candidates and conflicts that ProjectionMeans states and the counts that TraceMeans states |
| Sync.SyncForgetsOrder | packages/sync/src/index.ts:70-135 | for distinct ids, synchronising a permutation of the log gives the same result |
| Sync.MergedIsLastWriter | packages/sync/src/index.ts:119-122 | merged in rising (time, id), each written key holds what a writer wrote that no other writer follows in (time, id) |
| Sync.UnionIsJoin | packages/sync/src/index.ts:119-122 | the winners of a union are the pointwise later of the winners of its parts |
| Sync.JoinLaws | packages/sync/src/index.ts:119-122 | that join is commutative, associative and idempotent |
| Sync.UnionOfLogsIsJoin | packages/sync/src/index.ts:70-135 | synchronising two logs together joins, object by object, the winners of each |
| Sync.EmittedStateIsWinners | packages/sync/src/index.ts:119-128 | the state of an emitted object is what the winners among its accepted operations wrote |
| Sync.ResolveMeans | packages/sync/src/index.ts:101-129 | one group: refused for mixed kinds or a kind without policy; reported with its heads in rising (time, id) if it is authoritative and has several; otherwise emitted, each key holding what its last writer in (time, id) wrote, with the ids of all its operations in order |
| Sync.SynchronizedMeans | packages/sync/src/index.ts:70-135 | the whole result, in the fields of the operations: every operation the policies permit has its object emitted or reported, as stated by ResolveMeans, each object once and by id; every other one is rejected with its reason, by id; an error is the case |
| Sync.ListedOnce | packages/sync/src/index.ts:123-128 | with distinct ids an emitted object lists each of its operations once |
| Sync.DenialMeans | packages/sync/src/index.ts:143-156 | a policy permits a target if and only if locality, expiry, devices, regions and agents do, and a denial gives the first reason that holds |
| Sync.HeadsAreMaximal | packages/sync/src/index.ts:138-141 | the heads are the operations that are nobody's ancestor |
| Sync.CandidatesAreMaximal | packages/sync/src/index.ts:107-118 | a reported conflict lists exactly the maximal operations |
| Sync.DominatedHasOneHead | packages/sync/src/index.ts:138-141 | if one operation has all others among its ancestors, there is at most one head, on any history |
| Sync.OneHeadIffDominated | packages/sync/src/index.ts:138-141 | on a history without cycles, whatever the clocks say, there is at most one head if and only if one operation has all others as ancestors |
| Sync.EarlierIsAcyclic | packages/sync/src/index.ts:138-141 | a history in which parents come before children in (time, id) has no cycles |
| Sync.AuthoritativeOutcome | packages/sync/src/index.ts:107-118 | on a history without cycles an authoritative object is emitted exactly when dominated, and otherwise reported with its heads |
| Sync.DominatesIff | packages/sync/src/index.ts:138-141 | on any history an operation has all others as ancestors if and only if there is no other head and every other operation that lies on a cycle is an ancestor of it |
| Sync.HiddenConflictIff | packages/sync/src/index.ts:107-118 | on any history a dominated authoritative object is emitted; an undominated one is emitted all the same if and only if it has at most one head and, whichever operation could be that head, another one lies on a cycle without being its ancestor |
| Sync.CutHistoryConflicts | packages/sync/src/index.ts:88-118 | where the whole log, free of cycles, puts all accepted operations of an authoritative object below one of them, the object is reported as a conflict if and only if some other accepted operation is named as a parent only by denied operations or by operations of other objects |
| Sync.CutBetween | packages/sync/src/index.ts:88-118 | one of those lies between the two: it names the operation that is cut off and is itself an ancestor of the last one |
| Sync.CyclicHistoryHidesConflict | packages/sync/src/index.ts:107-118 | when two operations name each other as parents, a third is emitted although it does not dominate them |
| Sync.CyclicHistoryExists | packages/sync/src/index.ts:39-61 | such a log |
| Sync.RejectedIffDenied | packages/sync/src/index.ts:143-156 | an operation is rejected exactly when its storage policy denies the target |
| Sync.LandsExactlyOnce | packages/sync/src/index.ts:70-135 | every input operation is in exactly one of the rejections, one emitted object, one conflicted group |
| Sync.SyncEngine.Admit | packages/sync/src/index.ts:81-87 | the loop splits the sorted log into the permitted operations, in rising (time, id), and the rejections of all others with their reasons |
| Sync.SyncEngine.GroupByObject | packages/sync/src/index.ts:88-93 | the loop groups accepted operations by object, each group in log order |
| Sync.SyncEngine.ResolveObject | packages/sync/src/index.ts:101-129 | one group is emitted, reported or refused as stated by ResolveMeans |
| Sync.SyncEngine.SynchronizeLog | packages/sync/src/index.ts:70-135 | the result is what SynchronizedMeans states: last writer in (time, id) for every key, conflicts with their heads in that order, rejections with their reasons |
| Gateway.AtMostOncePerKey | packages/provider-gateway/src/index.ts:324-447 | over every interleaving in which the authority evaluator does not re-enter, with the key of a call it is deciding, in a call that may reach the adapter: any two invocations differ in workspace or in idempotency key |
| Gateway.InvokedOnlyWhenGranted | packages/provider-gateway/src/index.ts:366-413 | nothing reaches the adapter without a decision that allows it, has the id of the envelope's authority reference and gives a reason, and without the credential if the binding names one |
| Gateway.NewAttemptBegun | packages/provider-gateway/src/index.ts:344-366 | a new call waits for the authority decision if and only if it is admissible: an external effect is reconciled, the binding exists with the envelope's workspace and application, holds its principal and contract, its provider is registered, offers the contract and has its kind, and the operation is declared with the expected effect; its plan is that provider, that binding and the contract's capability; any other call fails, for a check that does fail |
| Gateway.InvokedWithinBinding | packages/provider-gateway/src/index.ts:344-413 | over every interleaving, re-entering calls included, every invocation stays within the binding that its envelope names: workspace, application, principal, contract, provider, declared operation and effect |
| Gateway.StartedIsForever | packages/provider-gateway/src/index.ts:324-342 | once its invocation began, an entry stays in every later state: the same envelope gets the same promise, another one is refused, and neither changes anything |
| Gateway.RemovedOnlyBeforeInvocation | packages/provider-gateway/src/index.ts:338-340 | an entry leaves the map exactly in the catch handler of its own call, rejected before the invocation, and is replaced only when its call can no longer reach the adapter |
| Gateway.FailureFreesKey | packages/provider-gateway/src/index.ts:338-340 | a call stored under its key that fails before the invocation frees the key; until its handler has run, calls join the rejection, afterwards a new attempt starts |
| Gateway.DeliveredOnlyByLiveProvider | packages/provider-gateway/src/index.ts:413-414 | a result is delivered if the adapter observed one and the registered provider is still the very one invoked; otherwise the call fails |
| Gateway.LostProviderStaysLost | packages/provider-gateway/src/index.ts:253-280 | a provider once unregistered is never equal to a later registration under its id |
| Gateway.RegisterProviderIff | packages/provider-gateway/src/index.ts:253-272 | a provider is taken if and only if its id is new and it offers only known contracts of its own kind; otherwise the error names what is wrong |
| Gateway.BindProviderIff | packages/provider-gateway/src/index.ts:287-318 | a binding is taken if and only if its id is new and its provider is registered and offers all of its contracts; otherwise the error names what is wrong |
| Gateway.ReentranceIff | packages/provider-gateway/src/index.ts:335-341 | a call begun by the evaluator can get the adapter invoked twice for its key if and only if a call with that key is being decided, nothing is stored under the key, and the new call passes the checks and can get its credential |
| Gateway.ReentrantEvaluatorInvokesTwice | packages/provider-gateway/src/index.ts:335-341 | in particular for any second envelope with the key of the first, with or without a credential: some continuation invokes the adapter twice exactly when the second envelope passes the checks and its credential can be resolved |
| Gateway.ProviderGateway.Register | packages/provider-gateway/src/index.ts:253-272 | accepted exactly as stated by RegisterProviderIff, and then the provider is stored under a new registration; otherwise the first problem is reported and nothing changes |
| Gateway.ProviderGateway.Bind | packages/provider-gateway/src/index.ts:287-318 | accepted exactly as stated by BindProviderIff, and then the binding is stored; otherwise the first problem is reported and nothing changes |
| Gateway.ProviderGateway.BeginCall | packages/provider-gateway/src/index.ts:324-366 | under a stored key the call joins its promise, or is refused if the envelope differs, and nothing changes; otherwise one attempt is made, which waits for authority with the plan that the binding and the contract name if and only if the call is admissible, and is rejected otherwise |
| Gateway.ProviderGateway.ExecuteCall | packages/provider-gateway/src/index.ts:324-366 | the same for the whole call, which also stores the promise under its key, and keeps the invariant when nothing re-enters |
| Gateway.ProviderGateway.AuthorityDecided | packages/provider-gateway/src/index.ts:374-413 | the adapter is called if the decision allows, matches the reference, gives a reason and the binding names no credential; a credential is asked for if it names one and there is a resolver; otherwise the call fails |
| Gateway.ProviderGateway.CredentialResolved | packages/provider-gateway/src/index.ts:391-413 | the adapter is called exactly if the credential was resolved; otherwise the call fails |
| Gateway.ProviderGateway.AdapterSettled | packages/provider-gateway/src/index.ts:413-446 | the result is delivered exactly if one was observed and the provider is still registered; otherwise the call fails |
| Gateway.ProviderGateway.CatchRejection | packages/provider-gateway/src/index.ts:338-340 | an entry is deleted exactly if it is the failed attempt's, under its workspace and key, and no invocation began |
| Storage.AppendOk | packages/storage/src/index.ts:134-160 | an accepted batch keeps what was there and continues every workspace's rising numbers; where they had no gap they still have none |
| Storage.AppendMeans | packages/storage/src/index.ts:134-153 | a batch is taken if and only if no record comes with a number and none has an id in use or twice in the batch; then all of it follows what was there, unchanged but for the numbers; otherwise the error is the case |
| Storage.BatchNumbers | packages/storage/src/index.ts:137-143 | each record of an accepted batch gets the number after the last of its own workspace, whatever gaps there were before |
| Storage.NumberIsCount | packages/storage/src/index.ts:137-143 | without gaps that is one more than the workspace has records |
| Storage.AdmitMeans | packages/storage/src/index.ts:107-120 | a record of the file is taken if and only if its number, its own or the next, is positive and beyond its workspace's last and its id is new; otherwise the error is the case |
| Storage.OpenedHolds | packages/storage/src/index.ts:107-128 | an open ledger holds every record of its file, in order and unchanged, under its own number if it has one |
| Storage.OpenedFits | packages/storage/src/index.ts:107-128 | whatever file opens, opens to distinct ids and rising numbers in every workspace, perhaps with gaps |
| Storage.ReopenRestores | packages/storage/src/index.ts:107-128 | opening the file a ledger was written to, gaps or not, gives a ledger that answers every query and numbers everything to come alike |
| Storage.BatchIsAtomic | packages/storage/src/index.ts:134-160 | whatever happens to the write (success, failure, crash before or after the replacement), the ledger afterwards is the one before the batch or the one with all of it, and it is what the file opens to |
| Storage.BatchKeepsOk | packages/storage/src/index.ts:134-160 | where numbers had no gap and the file was written from the ledger, both stay so |
| Storage.AppendAlike | packages/storage/src/index.ts:134-160 | ledgers that answer and number alike accept the same batches, refuse the others with the same error, and stay alike |
| Storage.RunIsLanded | packages/storage/src/index.ts:107-160 | after any run of batches with any fates and restarts, the file opens and holds the open ledger, which answers and numbers as if exactly the batches that landed had been appended in memory |
| Storage.OpenedRuns | packages/storage/src/index.ts:107-160 | in particular from any file that opens, whoever wrote it and whatever gaps it has; a file without gaps stays without |
| Storage.QueryKeepsWorkspace | packages/storage/src/index.ts:258-267 | sorting by workspace and sequence keeps each workspace's own order |
| Storage.QueryLists | packages/storage/src/index.ts:166-177 | a query lists the records, each once, by workspace and sequence |
| Storage.LocalCanonicalLedger.OpenFile | packages/storage/src/index.ts:107-128 | the loop over the file's records gives the ledger that holds them all, or the first invalid record |
| Storage.LocalCanonicalLedger.AssignSequences | packages/storage/src/index.ts:136-143 | the loop assigns the specified numbers or refuses a given one |
| Storage.LocalCanonicalLedger.AppendRecords | packages/storage/src/index.ts:134-160 | one turn of the write queue: accepted exactly as stated by AppendMeans; what memory and file hold afterwards, for every fate of the write |
| EventBus.DeliveriesArePrefix | packages/event-bus/src/index.ts:95-118 | over every interleaving of publications, consumptions, handler failures, crashes and reopens in which the events a subscription wants are of one workspace, whatever else is published or consumed, its deliveries without adjacent repetitions are a prefix of those events |
| EventBus.NoFailureNoRepetition | packages/event-bus/src/index.ts:95-118 | without a crash, failed handler or failed cursor write, the deliveries themselves are that prefix, each once |
| EventBus.FinishedSawAll | packages/event-bus/src/index.ts:95-106 | a consume call that comes to its end has delivered every wanted event published before it began |
| EventBus.PendingMeans | packages/event-bus/src/index.ts:78-93 | pending are exactly the events whose topic begins with one of the prefixes and whose sequence is beyond the one the cursor stands for, by workspace and sequence; a cursor that stands for none is invalid |
| EventBus.PendingDistinct | packages/event-bus/src/index.ts:78-93 | no event is pending twice |
| EventBus.NewEventPendingIff | packages/event-bus/src/index.ts:78-93 | with several workspaces, a new event is pending exactly when it matches and its workspace already has at least as many events as the subscription's cursor says; otherwise it is passed over |
| EventBus.SecondWorkspaceIsLost | packages/event-bus/src/index.ts:78-93 | otherwise it fails: once a subscription has a cursor, the first event of a workspace that had none is stored but, by the next row, never reaches it |
| EventBus.LostForever | packages/event-bus/src/index.ts:78-118 | an event that a subscription lost in this way is delivered to it in no continuation |
| EventBus.OldCursorMeansSequence | packages/event-bus/src/index.ts:82-87 | a cursor that names an event stands for that event's sequence |
| EventBus.LocalEventBus.PendingDeliveries | packages/event-bus/src/index.ts:78-93 | the deliveries, or the invalid cursor, as stated by PendingMeans |
| EventBus.LocalEventBus.CommitSequence | packages/event-bus/src/index.ts:108-118 | file and memory after the cursor write, for every fate of it |
| EventBus.LocalEventBus.HandleItems | packages/event-bus/src/index.ts:100-105 | the loop stops at the first failure; deliveries, commits and both cursor maps are determined by where |
| EventBus.LocalEventBus.ConsumePending | packages/event-bus/src/index.ts:95-106 | a consume call delivers the pending events, as stated by PendingMeans, in order up to and including the first that fails, and the cursor is the last one committed |
| Effects.AcceptsIff | packages/effects/src/index.ts:491-530 | a decision accepts exactly when nothing was committed yet and some verification justifies a commit: authorised, succeeded, every effect observed and last reconciled confirmed, required evidence attached, contract satisfied within the cumulative budget |
| Effects.LatestIs | packages/effects/src/index.ts:615-624 | the verification selected is the latest that satisfies the contract |
| Effects.SelectedSatisfies | packages/effects/src/index.ts:607-625 | one is selected exactly when the budget holds and some verification satisfies the contract |
| Effects.SpentAdds | packages/effects/src/index.ts:610-613 | the cost is summed over exactly the verifications in the budget's currency |
| Effects.ReasonsAre | packages/effects/src/index.ts:491-530 | the reasons of a decision are exactly those that apply, each stated in the fields of the records: what is missing, diverged or uncertain per effect, which evidence, and the first thing in which each verification falls short when none satisfies the contract |
| Effects.DecisionMeans | packages/effects/src/index.ts:491-563 | a decision records one outcome, accepted if and only if nothing was committed and some verification justifies a commit, with the reasons that apply, review required exactly for an uncertain external effect, and the latest satisfying verification; accepted with a well-formed commit id it adds one commit of all evidence and the semantic effects in plan order; each with its journal entry |
| Effects.CreatedFresh | packages/effects/src/index.ts:249-315 | a new manifest is authorised if and only if all four control decisions allow it, and has nothing recorded but its origin |
| Effects.PastIsFixed | packages/effects/src/index.ts:593-604 | what the aggregate held at an earlier journal position stays what it held then |
| Effects.OneJustifiedCommit | packages/effects/src/index.ts:249-563 | whatever is recorded in whatever order, a manifest gets at most one semantic commit, only if all four control decisions allowed it, journaled right after its accepted outcome, and at that position every condition of the gate held; where independence counts, by a verifier whose id, as it was given, differs from the stored id of the receipt's provider |
| Effects.StepKeepsOthersIff | packages/effects/src/index.ts:429-464 | a call keeps every recorded independence an independence from the receipt's provider if and only if it does not give that provider's id padded with blanks and claim independence |
| Effects.OthersOnlyIff | packages/effects/src/index.ts:429-464 | after any run all recorded independence is from another verifier than the receipt's provider if and only if no call of the run did that, as no call with a trimmed id does |
| Effects.CommitIsIndependent | packages/effects/src/index.ts:491-563 | in such a run a commit under a contract that demands independence rests on a verification by another verifier than the provider |
| Effects.PaddingDecides | packages/effects/src/index.ts:448-453 | for a verification by the receipt's provider under such a contract, the trimmed id is never good enough and the padded one is exactly when the rest of the contract is satisfied |
| Effects.PaddedVerifierCommits | packages/effects/src/index.ts:448-453 | a run in which the provider verifies its own work under a padded id and the work is committed |
| Effects.PairedIff | packages/effects/src/index.ts:530-562 | a call keeps accepted outcomes and commits paired exactly when it does not accept with a malformed commit id |
| Effects.MalformedCommitLeavesAccepted | packages/effects/src/index.ts:544-548 | such a call leaves an accepted outcome without a commit, and the manifest can be accepted again |
| Effects.ExecutionAggregate.CreateManifest | packages/effects/src/index.ts:249-315 | a manifest is created exactly when its effect ids are distinct, authorised exactly when all four decisions allow it |
| Effects.ExecutionAggregate.RecordReceipt | packages/effects/src/index.ts:317-344 | recorded exactly if the manifest is authorised and has no receipt; otherwise the error is the case and nothing changes |
| Effects.ExecutionAggregate.ObserveEffect | packages/effects/src/index.ts:346-373 | recorded exactly if the plan has the effect with that class and the id is new; otherwise the error is the case and nothing changes |
| Effects.ExecutionAggregate.ReconcileEffect | packages/effects/src/index.ts:375-406 | recorded exactly if the plan has the effect, the observation is of it and the id is new; otherwise the error is the case and nothing changes |
| Effects.ExecutionAggregate.RecordVerification | packages/effects/src/index.ts:429-464 | recorded exactly if attempt and cost are in range and the id is new, its claim of independence kept only if the verifier id as given differs from the receipt's stored provider id; otherwise the error is the case and nothing changes |
| Effects.ExecutionAggregate.Select | packages/effects/src/index.ts:607-625 | the loop from the newest verification gives the latest that satisfies the contract within the budget, or the reasons |
| Effects.ExecutionAggregate.DecideOutcome | packages/effects/src/index.ts:491-563 | the outcome, commit and journal entries that DecisionMeans states, and whether it throws |
| Composition.ResolvedIsBest | packages/composition-runtime/src/index.ts:244-263 | every requirement is bound to a provider with its capability, visible from the component's scope and suitable, and every other such provider has a lower priority, or the same one and no smaller id; otherwise some requirement has none |
| Composition.ReconcileAnswers | packages/composition-runtime/src/index.ts:209-241 | one reconciliation: a ready component, pending with a provider for every requirement, is started on the best providers with exactly the leases returned if the evaluators allow it and it acquires, fails without bindings and leases if they allow it and it does not acquire, and stays as it was if they refuse or throw; the journal and the granted leases record just that; nothing else changes |
| Composition.AddingComponentAnswers | packages/composition-runtime/src/index.ts:128-137 | registering a component is refused for duplicate capabilities or a taken id; otherwise the component is added as pending, gets its answer, and no other component changes |
| Composition.AddingProviderAnswers | packages/composition-runtime/src/index.ts:139-154 | registering a provider is refused for a taken id; otherwise it is added and every component gets its answer, or, if an evaluator throws, exactly those before that component in id order |
| Composition.EvaluatorsDecide | packages/composition-runtime/src/index.ts:209-241 | in any run: a component that becomes ready when a provider is registered is active afterwards if and only if its evaluators allow it and its acquirer's list is accepted or it has none, failed if and only if they allow it and the acquirer throws or its list is refused, and pending, with nothing bound or held, if and only if they refuse it |
| Composition.StartsWereAllowed | packages/composition-runtime/src/index.ts:216-226 | in any run, every entry to Loading was journaled by a call whose evaluators allowed that component |
| Composition.GrantsWereAllowed | packages/composition-runtime/src/index.ts:216-231 | in any run, every list of leases was granted in a call whose evaluators allowed that component |
| Composition.EveryRun | packages/composition-runtime/src/index.ts:134-186 | after any run of calls, refused, thrown and failed ones included, the journal is numbered without gaps, each component's part is one path of the lifecycle automaton from registration to its state, an active component is bound to visible, matching providers that were registered at some time, and any other holds nothing |
| Composition.ActiveIsRegistered | packages/composition-runtime/src/index.ts:134-186 | those providers are registered now, unless a provider with a component bound to it was lost for a blank reason |
| Composition.StepKeepsInvIff | packages/composition-runtime/src/index.ts:160-169 | a call keeps active components bound to registered providers if and only if it is not the loss of a provider in use for a blank reason |
| Composition.DanglingLossBreaks | packages/composition-runtime/src/index.ts:160-169 | such a call throws with the provider deleted; a component stays active, bound to the provider that is gone, and keeps its leases |
| Composition.BlankLoss | packages/composition-runtime/src/index.ts:160-169 | losing a provider for a blank reason deletes it and changes nothing else; it throws exactly when some component is bound to it |
| Composition.LossUnloads | packages/composition-runtime/src/index.ts:160-186 | losing a provider for a stated reason never throws and unloads exactly the components bound to it |
| Composition.LossKeepsInv | packages/composition-runtime/src/index.ts:160-186 | a loss for a stated reason, or of a provider nobody uses, keeps active components bound to registered providers |
| Composition.LossReleasesAll | packages/composition-runtime/src/index.ts:160-186 | after any run, a component that loses a provider for a stated reason is pending again and has disposed, once and in order, all its acquirer ever returned; others are untouched |
| Composition.LeasesAccountedIff | packages/composition-runtime/src/index.ts:230-241 | after any run, every lease a component's acquirer returned was disposed exactly once, in order, or is held now, if and only if every list it returned was accepted, that is, had well-formed leases and no id twice; a refused list is disposed by nobody |
| Composition.AbortedRegistration | packages/composition-runtime/src/index.ts:149-157 | an evaluator that throws, or refuses for a blank reason, while a provider is registered leaves the provider registered and the components from the throwing one on, in id order, as they were; registering the provider again is refused |
| Composition.CompositionRuntime.ResolveBindings | packages/composition-runtime/src/index.ts:243-261 | the loop over requirements computes the specified bindings or none |
| Composition.CompositionRuntime.ReconcileComponent | packages/composition-runtime/src/index.ts:209-241 | a ready component becomes active, failed or stays pending as the evaluators and the acquirer answer (as stated by ReconcileAnswers), and a throwing evaluator leaves everything as it was |
| Composition.CompositionRuntime.UnloadComponent | packages/composition-runtime/src/index.ts:167-183 | suspended, unloading, every lease disposed, pending, once the reason is known not to be blank |
| Composition.CompositionRuntime.AddComponentCall | packages/composition-runtime/src/index.ts:128-137 | refused with nothing changed, or the component is added, answered and recorded, as stated by AddingComponentAnswers |
| Composition.CompositionRuntime.AddProviderCall | packages/composition-runtime/src/index.ts:139-154 | refused with nothing changed, or the provider is added and the components are answered in id order up to the first that throws, as stated by AddingProviderAnswers |
| Composition.CompositionRuntime.LoseProviderCall | packages/composition-runtime/src/index.ts:160-186 | the components bound to the provider are unloaded in id order; an unknown provider is refused with nothing changed, a blank reason after the provider is deleted |
| RateLimiter.WindowBound | services/platform-api/src/security.ts:32-50 | in every run with non-decreasing times, no window wherever placed holds more than the maximum of allowed calls of a key since it was last evicted, and the keys never exceed their maximum |
| RateLimiter.RefusedUntil | services/platform-api/src/security.ts:36-41 | after a refusal, and whatever calls follow while the key is not evicted, its next call is allowed exactly from the instant its oldest held call leaves the window |
| RateLimiter.RetryAfterIsExact | services/platform-api/src/security.ts:40-40 | the seconds returned are at least one; after any run in which the key is not evicted, nor used again once its oldest held call left the window, retrying after them succeeds and one second earlier does not |
| RateLimiter.EvictedIsAllowed | services/platform-api/src/security.ts:32-45 | a key that is not held, evicted for instance, is allowed at once |
| RateLimiter.AllowDecides | services/platform-api/src/security.ts:32-45 | a call is allowed if and only if fewer than the maximum of the key's held calls are left in the window, and is then held with them; refused, the wait is the least whole number of seconds after which the oldest of them has left it |
| RateLimiter.AllowSpares | services/platform-api/src/security.ts:32-45 | no other key loses its calls, except that without room for a new key the one whose last held call is the oldest, the smaller key on a tie, is forgotten |
| RateLimiter.EvictionTakesOldest | services/platform-api/src/security.ts:47-50 | eviction removes the key whose last allowed call is oldest, and only that |
| RateLimiter.SlidingWindowRateLimiter.AllowCall | services/platform-api/src/security.ts:32-45 | decision and new state of a call |
| RateLimiter.SlidingWindowRateLimiter.EvictOldestKey | services/platform-api/src/security.ts:47-50 | the state after an eviction |
| Permissions.BoundaryTransitive | packages/permissions/src/index.ts:271-273 | being inside a resource boundary is transitive |
| Permissions.BoundaryIsInside | packages/permissions/src/index.ts:271-273 | a value is inside a resource boundary if and only if it is the root or continues it after a slash |
| Permissions.DefineMeans | packages/permissions/src/index.ts:71-126 | a capability is defined if and only if its times, depths and parent fit and its lists are free of duplicates, the required ones not empty and the prefixes inside the workspace; it then says what was given, list by list; otherwise the error is the case |
| Permissions.PassedMeansGranted | packages/permissions/src/index.ts:219-253 | an evaluation passes if and only if every bound, scope and condition of the capability holds and it is not revoked by then |
| Permissions.EvaluationMeans | packages/permissions/src/index.ts:219-253 | an evaluation lists exactly the failures that there are, each stated in the fields of capability and request, and the conditions that the context does not meet |
| Permissions.DelegationMeans | packages/permissions/src/index.ts:168-216 | a delegation is accepted if and only if the parent may delegate, issuer, workspace and depths follow it, the child widens nothing of it, and the two are not the same in every respect |
| Permissions.RefusalMeans | packages/permissions/src/index.ts:168-216 | the error of a refused delegation is the case |
| Permissions.ChildWithinParent | packages/permissions/src/index.ts:168-216 | whatever an accepted child grants, its parent grants at the same instant |
| Permissions.ChainIsFinite | packages/permissions/src/index.ts:128-136 | a registered capability's parent chain is as long as its depth, ends at a root, and is no longer than the root's maximum depth |
| Permissions.Attenuation | packages/permissions/src/index.ts:71-253 | for every run of registrations, a request passed by a capability is passed by all its ancestors, revocations aside |
| Permissions.ReallyNarrowerIff | packages/permissions/src/index.ts:210-265 | an accepted child refuses some request its parent grants if and only if it narrows a respect other than the list of prefixes |
| Permissions.NominalOnlyByPrefixes | packages/permissions/src/index.ts:255-265 | the strictness check passes without narrowing anything only by relisting prefixes |
| Permissions.NominalDelegation | packages/permissions/src/index.ts:255-265 | such a delegation, for any delegating parent: a prefix listed again with one inside it |
| Permissions.AuthorizedIff | packages/permissions/src/index.ts:145-166 | a request is allowed exactly when some unrevoked capability of the principal grants it, and the least such id is named |
| Permissions.CapabilityEngine.RegisterCapability | packages/permissions/src/index.ts:128-136 | registered exactly if the id is new and the parent, if any, is known and the delegation acceptable as stated by DelegationMeans; otherwise the error is the case and nothing changes |
| Permissions.CapabilityEngine.Revoke | packages/permissions/src/index.ts:138-143 | a revocation is recorded once, for a known capability |
| Permissions.CapabilityEngine.EvaluateAll | packages/permissions/src/index.ts:155-159 | the loop evaluates all and finds the first that passes |
| Permissions.CapabilityEngine.AuthorizeRequest | packages/permissions/src/index.ts:145-166 | the least id of a capability that grants the request to its principal and is not revoked, or none if there is none; with one evaluation for each capability of the principal, by id, as stated by EvaluationMeans |
| CanonicalJson.RoundTrip | packages/world-bundle/src/index.ts:625-635 | a reader of the printed form recovers every value in canonical form and stops where it ends |
| CanonicalJson.StringRoundTrip | packages/world-bundle/src/index.ts:626-626 | string escapes, lone surrogates included, read back |
| CanonicalJson.NumberRoundTrip | packages/world-bundle/src/index.ts:627-630 | safe integers read back |
| CanonicalJson.PrintDeterminesCanon | packages/world-bundle/src/index.ts:625-635 | two values print alike exactly when they have the same canonical form |
| CanonicalJson.NormalizeIsCanon | packages/world-bundle/src/index.ts:534-552 | normalisation refuses exactly the values with an unsafe key and otherwise gives the canonical form |
| CanonicalJson.CanonIff | packages/world-bundle/src/index.ts:543-550 | the canonical form is the one value with the same content in which the keys of every object rise, code unit by code unit, a prefix first |
| CanonicalJson.CanonIdempotent | packages/world-bundle/src/index.ts:534-552 | normalising twice is normalising once |
| CanonicalJson.KeyOrderIgnored | packages/world-bundle/src/index.ts:543-550 | the order an object's entries are enumerated in shows neither in the text nor in the normalised value |
| CanonicalJson.UniquelyReadable | packages/world-bundle/src/index.ts:534-635 | for values a bundle accepts: equal text if and only if equal normalised values, and the text reads back to the normalised value |
| CanonicalJson.PrintWellFormed | packages/world-bundle/src/index.ts:625-635 | the text has no control unit and no lone surrogate, whatever the strings and keys of the value hold |
| WorldBundle.CreatedConforms | packages/world-bundle/src/index.ts:93-111 | everything creation returns passes verification |
| WorldBundle.CreatesIff | packages/world-bundle/src/index.ts:93-111 | creation accepts if and only if descriptors and members have their own ids and name the same things, a public one among them, private ones exactly with an evaluator, and no payload has an unsafe key; otherwise the error has its fault |
| WorldBundle.CreatedMeans | packages/world-bundle/src/index.ts:93-111 | the artifact lists exactly the given descriptors and members, the private-evaluator part first and each part by rising id, every payload in canonical form with the digest of its text, under the seal of them all |
| WorldBundle.ConformantIffCreated | packages/world-bundle/src/index.ts:238-276 | an artifact is conformant if and only if creation accepts its own bundle and members and returns an artifact with the same canonical text |
| WorldBundle.VerifiedIff | packages/world-bundle/src/index.ts:238-276 | an artifact is conformant if and only if manifest and members are in that order and agree, payloads are safe and their digests right, and the id is the seal over the canonical members; otherwise the error has its fault |
| WorldBundle.VerifiedPublicIff | packages/world-bundle/src/index.ts:278-317 | the same for a public artifact, which must in addition name no evaluator and carry no private member |
| WorldBundle.PartitionsMean | packages/world-bundle/src/index.ts:361-392 | the check passes exactly when manifest and members name the same members with the same partition and kind, one at least public, private ones exactly with an evaluator |
| WorldBundle.PublicCut | packages/world-bundle/src/index.ts:113-142 | cutting out the public artifact never fails on a conformant bundle and carries exactly the public members |
| WorldBundle.CutIff | packages/world-bundle/src/index.ts:113-142 | the public artifact exists for the conformant bundles alone, with the same order and under its own seal; otherwise the error is that of the verification |
| WorldBundle.PublicConforms | packages/world-bundle/src/index.ts:190-219 | the public artifact cut out of a conformant bundle passes the public verification |
| WorldBundle.PrivateDoesNotShow | packages/world-bundle/src/index.ts:113-142 | conformant bundles with the same shared part and, in canonical text, the same public members have public artifacts with the same id and the same canonical text |
| Sorting.SortForgetsOrder | packages/state/src/index.ts:186-222 | sorting with a comparator that never ties on the elements gives a result independent of their order, as every comparator of the repository is used |

## Left out

- Ids, instants and texts that are only compared are integers; `localeCompare` is taken to be a total order that separates distinct ids, and code-unit comparison of ISO instants to be time order.
- Input validation by prefix, regular expression, trimming or instant parsing is taken as done, except where its place in a method matters (provenance `invalidate`, effects `decide` and `recordVerification`, the reasons and leases of composition).
- Freezing, cloning and provenance metadata carried along unchanged do not appear.
- Safe-integer limits on sequences, versions and counters are not modelled; the integers are unbounded.
- CanonicalJson.UniquelyReadable: numbers are safe integers; fractions, exponents and negative zero are not modelled, and entries are taken in the enumeration order given, so integer-like keys are not moved to the front.
- CanonicalJson.RoundTrip: the reader accepts the printed form only, without insignificant whitespace.
- WorldBundle.CreatedConforms: the digest is an arbitrary function of the canonical text, and the parts of a bundle other than its manifest are one opaque value; leak heuristics by key name, source provenance and runtime compatibility checks are not modelled.
- Work: context values are opaque integers; payload validation before an operation is applied is taken as done, apart from the checks on participants, roles and versions.
- Bindings: binding metadata other than endpoints, times and ids is not modelled; authorisation is any function of the reference.
- Sync.AuthoritativeOutcome: operation ids are distinct within a log; what happens to a log that lists one operation twice is not stated (Sync.DominatesIff does not need it).
- Gateway.AtMostOncePerKey: the contract registry does not grow during a run, availability listeners and the contents of receipts are not modelled, and the fingerprint is the envelope itself.
- Gateway.StartedIsForever: it says nothing about promises that never settle; fairness is not modelled.
- Storage.BatchIsAtomic: a rename either happens or does not; temporary files, partial writes and other processes are not modelled. The object store and the idempotency store are left out.
- EventBus.DeliveriesArePrefix: the wanted events are of one workspace (see EventBus.SecondWorkspaceIsLost for what happens otherwise), one consume call of a subscription at a time, prefixes that do not change.
- EventBus.LocalEventBus.ConsumePending: the class runs one consume call at a time; interleavings are modelled by the steps of `EventBus.Bus`.
- Effects: an engine's lookup of the aggregate by manifest id is left out, aggregates being independent; texts, transport status and correlation ids are not stored.
- Effects.OneJustifiedCommit: costs are real numbers, so rounding of the cumulative sum is not modelled.
- Composition.EveryRun: calls do not overlap, and the transition sink, the clock and `compatible` do not throw; the other callbacks answer through the inputs of a call.
- RateLimiter.WindowBound: times do not decrease; a key that was evicted starts a new history.
- Permissions.Attenuation: revocations are set aside; revoking a parent does not affect its children in the code, and nothing is claimed about it.
- Permissions.PassedMeansGranted: the order in which failed condition names are listed is not modelled; lists that are sorted and unique once defined are sets.
- State: confidence and authority levels are integers; the lifecycle history query and unfiltered history are left out.
- Identity: `history` and `mergeHistory` are compared in the order they are returned in; provenance and authority carried by operations are not modelled.
- HTTP servers, browser pages, command line, SDK clients and deployment scripts are I/O.
- packages/compute, packages/workspace, packages/graph, packages/lifecycle and the other packages repeat these patterns or only validate.
- packages/memory, packages/harness and packages/search score with floating point.
