/**
 packages/world-bundle: portable bundles, whose members match a manifest split into a public and a
 private-evaluator partition, and the public artifact cut out of one.

 The digest is any function of the canonical text; a seal is any function of what the canonical text of an
 artifact shows. Two members have the same canonical text when their fields agree and their payloads print alike.
 */
module WorldBundle {
  import opened Wrappers
  import opened Collections
  import opened Sorting
  import J = CanonicalJson

  datatype Partition = PrivateEvaluator | Public

  datatype Descriptor = Descriptor(id: int, partition: Partition, kind: int)

  datatype MemberInput = MemberInput(id: int, partition: Partition, kind: int, payload: J.Value)

  datatype Member = Member(id: int, partition: Partition, kind: int, payload: J.Value, contentHash: int)

  /** `shared` stands for the identity, compatibility, public and provenance parts, which the public artifact repeats. */
  datatype Bundle = Bundle(shared: int, privateEvaluator: Option<int>, manifest: seq<Descriptor>)

  datatype Artifact = Artifact(bundle: Bundle, members: seq<Member>, id: int)

  datatype BundleError =
    | DuplicateDescriptor | PrivateWithoutEvaluator | UnsafePayload | HashMismatch | DuplicateMember
    | MissingManifestMember | PartitionMismatch | UndeclaredMember | PublicUnmaterialized | PrivateUnmaterialized
    | NonCanonical | IdMismatch | NotPublic

  /** The digest of a text and the seals of full and public artifacts. */
  datatype Digests = Digests(hash: J.Text -> int, full: (Bundle, seq<Member>) -> int, open: (Bundle, seq<Member>) -> int)

  function Rank(p: Partition): int {
    match p case PrivateEvaluator => 0 case Public => 1
  }

  predicate ByDescriptor(a: Descriptor, b: Descriptor) {
    Rank(a.partition) < Rank(b.partition) || (a.partition == b.partition && a.id <= b.id)
  }

  predicate ByMember(a: Member, b: Member) {
    Rank(a.partition) < Rank(b.partition) || (a.partition == b.partition && a.id <= b.id)
  }

  predicate UniqueDescriptors(manifest: seq<Descriptor>) {
    forall i, j :: 0 <= i < j < |manifest| ==> manifest[i].id != manifest[j].id
  }

  predicate UniqueMembers(members: seq<Member>) {
    forall i, j :: 0 <= i < j < |members| ==> members[i].id != members[j].id
  }

  predicate AnyPrivate(manifest: seq<Descriptor>) {
    exists i :: 0 <= i < |manifest| && manifest[i].partition == PrivateEvaluator
  }

  predicate AnyPublic(manifest: seq<Descriptor>) {
    exists i :: 0 <= i < |manifest| && manifest[i].partition == Public
  }

  function Define(b: Bundle): Result<Bundle, BundleError> {
    if !UniqueDescriptors(b.manifest) then Err(DuplicateDescriptor)
    else if b.privateEvaluator.None? && AnyPrivate(b.manifest) then Err(PrivateWithoutEvaluator)
    else Ok(b.(manifest := SortBy(b.manifest, ByDescriptor)))
  }

  // ----- members -----

  function NormalizeMember(d: Digests, m: MemberInput): Result<Member, BundleError> {
    match J.Normalize(m.payload)
    case Err(_) => Err(UnsafePayload)
    case Ok(payload) => Ok(Member(m.id, m.partition, m.kind, payload, d.hash(J.Print(payload))))
  }

  function Input(m: Member): MemberInput {
    MemberInput(m.id, m.partition, m.kind, m.payload)
  }

  function RenormalizeMember(d: Digests, m: Member): Result<Member, BundleError> {
    match NormalizeMember(d, Input(m))
    case Err(e) => Err(e)
    case Ok(n) => if n.contentHash != m.contentHash then Err(HashMismatch) else Ok(n)
  }

  function NormalizeAll(d: Digests, inputs: seq<MemberInput>): Result<seq<Member>, BundleError> {
    if inputs == [] then Ok([]) else
      match NormalizeMember(d, inputs[0])
      case Err(e) => Err(e)
      case Ok(m) =>
        match NormalizeAll(d, inputs[1..])
        case Err(e) => Err(e)
        case Ok(rest) => Ok([m] + rest)
  }

  function RenormalizeAll(d: Digests, members: seq<Member>): Result<seq<Member>, BundleError> {
    if members == [] then Ok([]) else
      match RenormalizeMember(d, members[0])
      case Err(e) => Err(e)
      case Ok(m) =>
        match RenormalizeAll(d, members[1..])
        case Err(e) => Err(e)
        case Ok(rest) => Ok([m] + rest)
  }

  function Arrange(members: seq<Member>): Result<seq<Member>, BundleError> {
    if UniqueMembers(members) then Ok(SortBy(members, ByMember)) else Err(DuplicateMember)
  }

  /** `canonicalJson` gives the two members the same text. */
  predicate SameMember(a: Member, b: Member) {
    && a.id == b.id && a.partition == b.partition && a.kind == b.kind && a.contentHash == b.contentHash
    && J.Print(a.payload) == J.Print(b.payload)
  }

  predicate SameText(a: seq<Member>, b: seq<Member>) {
    |a| == |b| && forall i :: 0 <= i < |a| ==> SameMember(a[i], b[i])
  }

  function CanonMember(m: Member): Member {
    m.(payload := J.Canon(m.payload))
  }

  // ----- partitions -----

  function Find(members: seq<Member>, id: int): Option<Member> {
    if members == [] then None else if members[0].id == id then Some(members[0]) else Find(members[1..], id)
  }

  function CheckManifest(manifest: seq<Descriptor>, members: seq<Member>): Option<BundleError> {
    if manifest == [] then None else
      match Find(members, manifest[0].id)
      case None => Some(MissingManifestMember)
      case Some(m) =>
        if m.partition != manifest[0].partition || m.kind != manifest[0].kind then Some(PartitionMismatch)
        else CheckManifest(manifest[1..], members)
  }

  predicate Declared(manifest: seq<Descriptor>, id: int) {
    exists i :: 0 <= i < |manifest| && manifest[i].id == id
  }

  predicate AllDeclared(manifest: seq<Descriptor>, members: seq<Member>) {
    forall i :: 0 <= i < |members| ==> Declared(manifest, members[i].id)
  }

  function CheckPartitions(b: Bundle, members: seq<Member>): Option<BundleError> {
    match CheckManifest(b.manifest, members)
    case Some(e) => Some(e)
    case None =>
      if !AllDeclared(b.manifest, members) then Some(UndeclaredMember)
      else if !AnyPublic(b.manifest) then Some(PublicUnmaterialized)
      else if b.privateEvaluator.Some? && !AnyPrivate(b.manifest) then Some(PrivateUnmaterialized)
      else if b.privateEvaluator.None? && AnyPrivate(b.manifest) then Some(PartitionMismatch)
      else None
  }

  // ----- artifacts -----

  function Create(d: Digests, input: Bundle, inputs: seq<MemberInput>): Result<Artifact, BundleError> {
    match Define(input)
    case Err(e) => Err(e)
    case Ok(b) =>
      match NormalizeAll(d, inputs)
      case Err(e) => Err(e)
      case Ok(normalized) =>
        match Arrange(normalized)
        case Err(e) => Err(e)
        case Ok(members) =>
          match CheckPartitions(b, members)
          case Some(e) => Err(e)
          case None => Ok(Artifact(b, members, d.full(b, members)))
  }

  /** `None` when the artifact is conformant. */
  function Verify(d: Digests, a: Artifact): Option<BundleError> {
    match Define(a.bundle)
    case Err(e) => Some(e)
    case Ok(b) =>
      if b != a.bundle then Some(NonCanonical)
      else match RenormalizeAll(d, a.members)
        case Err(e) => Some(e)
        case Ok(normalized) =>
          match Arrange(normalized)
          case Err(e) => Some(e)
          case Ok(members) =>
            if !SameText(members, a.members) then Some(NonCanonical)
            else if a.id != d.full(b, members) then Some(IdMismatch)
            else CheckPartitions(b, members)
  }

  function IsPublic(): Member -> bool {
    (m: Member) => m.partition == Public
  }

  function DeclaredPublic(): Descriptor -> bool {
    (m: Descriptor) => m.partition == Public
  }

  function PublicBundle(b: Bundle): Bundle {
    Bundle(b.shared, None, Filter(b.manifest, DeclaredPublic()))
  }

  function ToPublic(d: Digests, a: Artifact): Result<Artifact, BundleError> {
    match Verify(d, a)
    case Some(e) => Err(e)
    case None =>
      var members := Filter(a.members, IsPublic());
      match Define(PublicBundle(a.bundle))
      case Err(e) => Err(e)
      case Ok(b) =>
        match CheckPartitions(b, members)
        case Some(e) => Err(e)
        case None => Ok(Artifact(b, members, d.open(b, MapSeq(members, CanonMember))))
  }

  /** `None` when the public artifact is conformant. */
  function VerifyPublic(d: Digests, a: Artifact): Option<BundleError> {
    match Define(a.bundle)
    case Err(e) => Some(e)
    case Ok(b) =>
      if b != a.bundle then Some(NonCanonical)
      else match RenormalizeAll(d, a.members)
        case Err(e) => Some(e)
        case Ok(normalized) =>
          match Arrange(normalized)
          case Err(e) => Some(e)
          case Ok(members) =>
            if !SameText(members, a.members) then Some(NonCanonical)
            else if exists i :: 0 <= i < |members| && members[i].partition != Public then Some(NotPublic)
            else if a.id != d.open(b, members) then Some(IdMismatch)
            else match CheckPartitions(b, members)
              case Some(e) => Some(e)
              case None => if b.privateEvaluator.Some? || AnyPrivate(b.manifest) then Some(NotPublic) else None
  }

  // ----- creating and verifying -----

  lemma MemberStable(d: Digests, m: MemberInput)
    requires NormalizeMember(d, m).Ok?
    ensures RenormalizeMember(d, NormalizeMember(d, m).value) == Ok(NormalizeMember(d, m).value)
  {
    J.NormalizeIsCanon(m.payload);
    J.UniquelyReadable(m.payload, m.payload);
  }

  lemma CanonPrintsAlike(m: Member)
    ensures SameMember(CanonMember(m), m)
  {
    J.CanonIdempotent(m.payload);
    J.PrintDeterminesCanon(J.Canon(m.payload), m.payload);
  }

  lemma CanonMembersPrintAlike(members: seq<Member>)
    ensures SameText(MapSeq(members, CanonMember), members)
  {
    forall i | 0 <= i < |members| ensures SameMember(CanonMember(members[i]), members[i]) { CanonPrintsAlike(members[i]); }
  }

  lemma SameTextIsSameCanon(a: seq<Member>, b: seq<Member>)
    ensures SameText(a, b) <==> MapSeq(a, CanonMember) == MapSeq(b, CanonMember)
  {
    forall i | 0 <= i < |a| && |a| == |b| ensures SameMember(a[i], b[i]) <==> CanonMember(a[i]) == CanonMember(b[i]) {
      J.PrintDeterminesCanon(a[i].payload, b[i].payload);
    }
    var x, y := MapSeq(a, CanonMember), MapSeq(b, CanonMember);
    if x == y {
      forall i | 0 <= i < |a| ensures CanonMember(a[i]) == CanonMember(b[i]) { assert x[i] == y[i]; }
    }
  }

  /** The member normalises and its hash is right. */
  ghost predicate Sound(d: Digests, m: Member) {
    RenormalizeMember(d, m).Ok?
  }

  lemma SoundIsCanon(d: Digests, m: Member)
    requires Sound(d, m)
    ensures RenormalizeMember(d, m) == Ok(CanonMember(m)) && NormalizeMember(d, Input(m)) == Ok(CanonMember(m))
  {
    J.NormalizeIsCanon(m.payload);
  }

  lemma {:induction false} RenormalizeAllIff(d: Digests, members: seq<Member>)
    ensures RenormalizeAll(d, members).Ok? <==> forall i :: 0 <= i < |members| ==> Sound(d, members[i])
    ensures RenormalizeAll(d, members).Ok? ==> RenormalizeAll(d, members).value == MapSeq(members, CanonMember)
  {
    if members != [] {
      RenormalizeAllIff(d, members[1..]);
      assert forall i :: 0 < i < |members| ==> members[i] == members[1..][i - 1];
      if Sound(d, members[0]) { SoundIsCanon(d, members[0]); }
    }
  }

  lemma {:induction false} NormalizedAt(d: Digests, inputs: seq<MemberInput>, i: nat)
    requires NormalizeAll(d, inputs).Ok? && i < |inputs|
    ensures |NormalizeAll(d, inputs).value| == |inputs|
    ensures NormalizeMember(d, inputs[i]) == Ok(NormalizeAll(d, inputs).value[i])
  {
    if |inputs| > 1 { NormalizedAt(d, inputs[1..], if i > 0 then i - 1 else 0); }
  }

  lemma NormalizedLength(d: Digests, inputs: seq<MemberInput>)
    requires NormalizeAll(d, inputs).Ok?
    ensures |NormalizeAll(d, inputs).value| == |inputs|
  {
    if inputs != [] { NormalizedAt(d, inputs, 0); }
  }

  lemma {:induction false} SoundNormalizes(d: Digests, members: seq<Member>)
    requires forall i :: 0 <= i < |members| ==> Sound(d, members[i])
    ensures NormalizeAll(d, MapSeq(members, Input)) == Ok(MapSeq(members, CanonMember))
  {
    if members != [] {
      assert MapSeq(members, Input)[1..] == MapSeq(members[1..], Input);
      SoundNormalizes(d, members[1..]);
      SoundIsCanon(d, members[0]);
      assert MapSeq(members, CanonMember) == [CanonMember(members[0])] + MapSeq(members[1..], CanonMember);
    } else {
      assert MapSeq(members, Input) == [] && MapSeq(members, CanonMember) == [];
    }
  }

  lemma {:induction false} NormalizedSound(d: Digests, inputs: seq<MemberInput>)
    requires NormalizeAll(d, inputs).Ok?
    ensures forall i :: 0 <= i < |NormalizeAll(d, inputs).value| ==>
              RenormalizeMember(d, NormalizeAll(d, inputs).value[i]) == Ok(NormalizeAll(d, inputs).value[i])
  {
    if inputs != [] {
      MemberStable(d, inputs[0]);
      NormalizedSound(d, inputs[1..]);
    }
  }

  lemma MembersOrdered(members: seq<Member>)
    requires UniqueMembers(members)
    ensures TotalPreorder(ByMember) && AntisymmetricOn(members, ByMember) && Distinct(members)
  {
  }

  lemma DescriptorsOrdered(manifest: seq<Descriptor>)
    requires UniqueDescriptors(manifest)
    ensures TotalPreorder(ByDescriptor) && AntisymmetricOn(manifest, ByDescriptor) && Distinct(manifest)
  {
  }

  lemma SortedUniqueMembers(members: seq<Member>)
    requires UniqueMembers(members)
    ensures UniqueMembers(SortBy(members, ByMember)) && SortedBy(SortBy(members, ByMember), ByMember)
  {
    var sorted := SortBy(members, ByMember);
    MembersOrdered(members);
    SortSorts(members, ByMember);
    SortPermutes(members, ByMember);
    MultisetDistinct(members, sorted);
    SortElements(members, ByMember);
    forall i, j | 0 <= i < j < |sorted| ensures sorted[i].id != sorted[j].id {
      assert sorted[i] in members && sorted[j] in members;
    }
  }

  lemma ArrangeTwice(members: seq<Member>)
    requires UniqueMembers(members)
    ensures Arrange(SortBy(members, ByMember)) == Ok(SortBy(members, ByMember))
  {
    SortedUniqueMembers(members);
    SortKeepsSorted(SortBy(members, ByMember), ByMember);
  }

  lemma SortedUniqueDescriptors(manifest: seq<Descriptor>)
    requires UniqueDescriptors(manifest)
    ensures UniqueDescriptors(SortBy(manifest, ByDescriptor)) && SortedBy(SortBy(manifest, ByDescriptor), ByDescriptor)
    ensures AnyPrivate(SortBy(manifest, ByDescriptor)) == AnyPrivate(manifest)
  {
    var sorted := SortBy(manifest, ByDescriptor);
    DescriptorsOrdered(manifest);
    SortSorts(manifest, ByDescriptor);
    SortPermutes(manifest, ByDescriptor);
    MultisetDistinct(manifest, sorted);
    SortElements(manifest, ByDescriptor);
    forall i, j | 0 <= i < j < |sorted| ensures sorted[i].id != sorted[j].id {
      assert sorted[i] in manifest && sorted[j] in manifest;
    }
    PrivateMember(manifest);
    PrivateMember(sorted);
  }

  lemma PrivateMember(manifest: seq<Descriptor>)
    ensures AnyPrivate(manifest) <==> exists x :: x in manifest && x.partition == PrivateEvaluator
  {
    if AnyPrivate(manifest) {
      var i :| 0 <= i < |manifest| && manifest[i].partition == PrivateEvaluator;
      assert manifest[i] in manifest;
    }
  }

  lemma DefineTwice(b: Bundle)
    requires Define(b).Ok?
    ensures Define(Define(b).value) == Ok(Define(b).value)
  {
    SortedUniqueDescriptors(b.manifest);
    SortKeepsSorted(SortBy(b.manifest, ByDescriptor), ByDescriptor);
  }

  /** Everything that creation returns passes verification. */
  lemma CreatedConforms(d: Digests, input: Bundle, inputs: seq<MemberInput>)
    requires Create(d, input, inputs).Ok?
    ensures Verify(d, Create(d, input, inputs).value).None?
  {
    var a := Create(d, input, inputs).value;
    var normalized := NormalizeAll(d, inputs).value;
    DefineTwice(input);
    NormalizedSound(d, inputs);
    SortElements(normalized, ByMember);
    forall i | 0 <= i < |a.members| ensures RenormalizeMember(d, a.members[i]) == Ok(a.members[i]) {
      assert a.members[i] in normalized;
    }
    forall i | 0 <= i < |a.members| ensures CanonMember(a.members[i]) == a.members[i] {
      assert Sound(d, a.members[i]);
      SoundIsCanon(d, a.members[i]);
    }
    RenormalizeAllIff(d, a.members);
    assert MapSeq(a.members, CanonMember) == a.members;
    ArrangeTwice(normalized);
  }

  /** Equal up to the order in which the payloads enumerate their keys. */
  predicate SameArtifact(a: Artifact, b: Artifact) {
    a.bundle == b.bundle && a.id == b.id && SameText(a.members, b.members)
  }

  lemma SameTextSorted(a: seq<Member>, b: seq<Member>)
    requires |a| == |b| && forall i :: 0 <= i < |a| ==> a[i].id == b[i].id && a[i].partition == b[i].partition
    ensures SortedBy(a, ByMember) ==> SortedBy(b, ByMember)
    ensures UniqueMembers(a) ==> UniqueMembers(b)
  {
  }

  lemma ConformantMembers(d: Digests, a: Artifact)
    requires Verify(d, a).None?
    ensures Arrange(MapSeq(a.members, CanonMember)).Ok?
    ensures RenormalizeAll(d, a.members) == Ok(MapSeq(a.members, CanonMember))
    ensures NormalizeAll(d, MapSeq(a.members, Input)) == Ok(MapSeq(a.members, CanonMember))
  {
    RenormalizeAllIff(d, a.members);
    SoundNormalizes(d, a.members);
  }

  /** If creation arranges what it made of `members` in their own order, they were in it already. */
  lemma AlreadyArranged(d: Digests, members: seq<Member>, made: seq<Member>)
    requires NormalizeAll(d, MapSeq(members, Input)).Ok?
    requires Arrange(NormalizeAll(d, MapSeq(members, Input)).value) == Ok(made) && SameText(made, members)
    ensures made == NormalizeAll(d, MapSeq(members, Input)).value
  {
    var normalized := NormalizeAll(d, MapSeq(members, Input)).value;
    NormalizedLength(d, MapSeq(members, Input));
    forall i | 0 <= i < |members| ensures normalized[i].id == made[i].id && normalized[i].partition == made[i].partition {
      NormalizedAt(d, MapSeq(members, Input), i);
      assert SameMember(made[i], members[i]);
    }
    SortedUniqueMembers(normalized);
    SameTextSorted(made, normalized);
    SortKeepsSorted(normalized, ByMember);
  }

  /** And what passes is what creation returns for it: the two agree, up to key order, on what is conformant. */
  lemma ConformantIffCreated(d: Digests, a: Artifact)
    ensures Verify(d, a).None? <==>
            var c := Create(d, a.bundle, MapSeq(a.members, Input)); c.Ok? && SameArtifact(c.value, a)
  {
    var c := Create(d, a.bundle, MapSeq(a.members, Input));
    if Verify(d, a).None? { ConformantMembers(d, a); }
    if c.Ok? && SameArtifact(c.value, a) {
      var made := c.value.members;
      AlreadyArranged(d, a.members, made);
      forall i | 0 <= i < |a.members| ensures Sound(d, a.members[i]) {
        NormalizedAt(d, MapSeq(a.members, Input), i);
        assert SameMember(made[i], a.members[i]);
      }
      RenormalizeAllIff(d, a.members);
      SoundNormalizes(d, a.members);
    }
  }

  // ----- what the partition check means -----

  function DescriptorOf(m: Member): Descriptor {
    Descriptor(m.id, m.partition, m.kind)
  }

  lemma {:induction false} FoundIs(members: seq<Member>, id: int)
    requires UniqueMembers(members)
    ensures match Find(members, id)
      case None => forall m :: m in members ==> m.id != id
      case Some(m) => m in members && m.id == id && forall n :: n in members && n.id == id ==> n == m
    decreases |members|
  {
    if members != [] {
      assert members == [members[0]] + members[1..];
      FoundIs(members[1..], id);
    }
  }

  ghost predicate Materialized(members: seq<Member>, x: Descriptor) {
    exists m :: m in members && DescriptorOf(m) == x
  }

  lemma {:induction false} ManifestMeans(manifest: seq<Descriptor>, members: seq<Member>)
    requires UniqueMembers(members)
    ensures CheckManifest(manifest, members).None? <==> forall x :: x in manifest ==> Materialized(members, x)
    decreases |manifest|
  {
    if manifest != [] {
      assert manifest == [manifest[0]] + manifest[1..];
      FoundIs(members, manifest[0].id);
      ManifestMeans(manifest[1..], members);
      var f := Find(members, manifest[0].id);
      assert f.Some? && DescriptorOf(f.value) == manifest[0] <==> Materialized(members, manifest[0]) by {
        if Materialized(members, manifest[0]) {
          var m :| m in members && DescriptorOf(m) == manifest[0];
        }
      }
    }
  }

  lemma DeclaredAs(manifest: seq<Descriptor>, members: seq<Member>, m: Member)
    requires UniqueMembers(members) && m in members && Declared(manifest, m.id)
    requires forall x :: x in manifest ==> Materialized(members, x)
    ensures DescriptorOf(m) in manifest
  {
    var i :| 0 <= i < |manifest| && manifest[i].id == m.id;
    assert manifest[i] in manifest;
    var n :| n in members && DescriptorOf(n) == manifest[i];
    var a :| 0 <= a < |members| && members[a] == m;
    var b :| 0 <= b < |members| && members[b] == n;
  }

  /** The check passes exactly when manifest and members name the same things, publicly at least one, privately none without an evaluator. */
  lemma PartitionsMean(b: Bundle, members: seq<Member>)
    requires UniqueMembers(members)
    ensures CheckPartitions(b, members).None? <==>
      && (forall x :: x in b.manifest ==> Materialized(members, x))
      && (forall m :: m in members ==> DescriptorOf(m) in b.manifest)
      && AnyPublic(b.manifest) && (b.privateEvaluator.Some? <==> AnyPrivate(b.manifest))
  {
    ManifestMeans(b.manifest, members);
    if forall x :: x in b.manifest ==> Materialized(members, x) {
      forall m | m in members && Declared(b.manifest, m.id) ensures DescriptorOf(m) in b.manifest {
        DeclaredAs(b.manifest, members, m);
      }
    }
    DeclaredMembers(b.manifest, members);
  }

  lemma DeclaredMembers(manifest: seq<Descriptor>, members: seq<Member>)
    ensures AllDeclared(manifest, members) <==> forall m :: m in members ==> Declared(manifest, m.id)
    ensures forall m :: m in members && DescriptorOf(m) in manifest ==> Declared(manifest, m.id)
  {
    forall i | 0 <= i < |members| ensures members[i] in members {}
    forall m | m in members && DescriptorOf(m) in manifest ensures Declared(manifest, m.id) {
      var i :| 0 <= i < |manifest| && manifest[i] == DescriptorOf(m);
      assert manifest[i].id == m.id;
    }
  }

  // ----- the public artifact -----

  /** The check looks at ids, partitions and kinds only. */
  lemma SameTextPartitions(b: Bundle, x: seq<Member>, y: seq<Member>)
    requires SameText(x, y) && UniqueMembers(x) && CheckPartitions(b, x).None?
    ensures UniqueMembers(y) && CheckPartitions(b, y).None?
  {
    SameTextSorted(x, y);
    PartitionsMean(b, x);
    PartitionsMean(b, y);
    forall m | m in y ensures DescriptorOf(m) in b.manifest {
      var i :| 0 <= i < |y| && y[i] == m;
      assert SameMember(x[i], y[i]) && x[i] in x;
    }
    forall d | d in b.manifest ensures Materialized(y, d) {
      assert Materialized(x, d);
      var m :| m in x && DescriptorOf(m) == d;
      var i :| 0 <= i < |x| && x[i] == m;
      assert SameMember(x[i], y[i]) && y[i] in y;
    }
  }

  lemma ConformantShape(d: Digests, a: Artifact)
    requires Verify(d, a).None?
    ensures UniqueMembers(a.members) && SortedBy(a.members, ByMember)
    ensures UniqueDescriptors(a.bundle.manifest) && SortedBy(a.bundle.manifest, ByDescriptor)
    ensures CheckPartitions(a.bundle, a.members).None?
  {
    var normalized := RenormalizeAll(d, a.members).value;
    var members := Arrange(normalized).value;
    SortedUniqueMembers(normalized);
    SameTextSorted(members, a.members);
    SameTextPartitions(a.bundle, members, a.members);
    SortedUniqueDescriptors(a.bundle.manifest);
  }

  lemma {:induction false} UniqueKept(members: seq<Member>)
    requires UniqueMembers(members)
    ensures UniqueMembers(Filter(members, IsPublic()))
    decreases |members|
  {
    if members != [] {
      UniqueKept(members[1..]);
      var rest := Filter(members[1..], IsPublic());
      forall i | 0 <= i < |rest| ensures rest[i].id != members[0].id {
        FilterMember(members[1..], IsPublic(), rest[i]);
        var k :| 0 <= k < |members[1..]| && members[1..][k] == rest[i];
        assert members[k + 1] == rest[i];
      }
    }
  }

  lemma {:induction false} UniqueDescriptorsKept(manifest: seq<Descriptor>)
    requires UniqueDescriptors(manifest)
    ensures UniqueDescriptors(Filter(manifest, DeclaredPublic()))
    decreases |manifest|
  {
    if manifest != [] {
      UniqueDescriptorsKept(manifest[1..]);
      var rest := Filter(manifest[1..], DeclaredPublic());
      forall i | 0 <= i < |rest| ensures rest[i].id != manifest[0].id {
        FilterMember(manifest[1..], DeclaredPublic(), rest[i]);
        var k :| 0 <= k < |manifest[1..]| && manifest[1..][k] == rest[i];
        assert manifest[k + 1] == rest[i];
      }
    }
  }

  lemma PublicDefined(b: Bundle)
    requires UniqueDescriptors(b.manifest) && SortedBy(b.manifest, ByDescriptor)
    ensures Define(PublicBundle(b)) == Ok(PublicBundle(b))
  {
    UniqueDescriptorsKept(b.manifest);
    FilterSorted(b.manifest, DeclaredPublic(), ByDescriptor);
    SortKeepsSorted(Filter(b.manifest, DeclaredPublic()), ByDescriptor);
    FilterElements(b.manifest, DeclaredPublic());
    PrivateMember(Filter(b.manifest, DeclaredPublic()));
  }

  lemma PublicPartitions(b: Bundle, members: seq<Member>)
    requires UniqueMembers(members) && CheckPartitions(b, members).None?
    ensures CheckPartitions(PublicBundle(b), Filter(members, IsPublic())).None?
  {
    var open, mine := PublicBundle(b), Filter(members, IsPublic());
    PartitionsMean(b, members);
    UniqueKept(members);
    PartitionsMean(open, mine);
    FilterElements(b.manifest, DeclaredPublic());
    FilterElements(members, IsPublic());
    forall x | x in open.manifest ensures Materialized(mine, x) {
      var m :| m in members && DescriptorOf(m) == x;
      assert m in mine;
    }
    var i :| 0 <= i < |b.manifest| && b.manifest[i].partition == Public;
    assert b.manifest[i] in open.manifest;
    var k :| 0 <= k < |open.manifest| && open.manifest[k] == b.manifest[i];
    PrivateMember(open.manifest);
  }

  /** Cutting out the public artifact never fails on a conformant bundle and carries the public members, no others. */
  lemma PublicCut(d: Digests, a: Artifact)
    requires Verify(d, a).None?
    ensures ToPublic(d, a).Ok?
    ensures var p := ToPublic(d, a).value;
      && p.bundle.shared == a.bundle.shared && p.bundle.privateEvaluator == None
      && (forall m :: m in p.members <==> m in a.members && m.partition == Public)
      && (forall x :: x in p.bundle.manifest <==> x in a.bundle.manifest && x.partition == Public)
  {
    ConformantShape(d, a);
    PublicDefined(a.bundle);
    PublicPartitions(a.bundle, a.members);
    FilterElements(a.members, IsPublic());
    FilterElements(a.bundle.manifest, DeclaredPublic());
  }

  lemma SameCut(a: seq<Member>, b: seq<Member>)
    requires UniqueMembers(a) && UniqueMembers(b) && SortedBy(a, ByMember) && SortedBy(b, ByMember)
    requires forall m: Member :: m.partition == Public ==> (m in a <==> m in b)
    ensures Filter(a, IsPublic()) == Filter(b, IsPublic())
  {
    var x, y := Filter(a, IsPublic()), Filter(b, IsPublic());
    FilterElements(a, IsPublic());
    FilterElements(b, IsPublic());
    UniqueKept(a);
    UniqueKept(b);
    MembersOrdered(x);
    MembersOrdered(y);
    FilterSorted(a, IsPublic(), ByMember);
    FilterSorted(b, IsPublic(), ByMember);
    DistinctIsMultiset(x, y);
    SortedUnique(x, y, ByMember);
  }

  lemma SameManifest(a: seq<Descriptor>, b: seq<Descriptor>)
    requires UniqueDescriptors(a) && UniqueDescriptors(b) && SortedBy(a, ByDescriptor) && SortedBy(b, ByDescriptor)
    requires forall m: Descriptor :: m.partition == Public ==> (m in a <==> m in b)
    ensures Filter(a, DeclaredPublic()) == Filter(b, DeclaredPublic())
  {
    var x, y := Filter(a, DeclaredPublic()), Filter(b, DeclaredPublic());
    FilterElements(a, DeclaredPublic());
    FilterElements(b, DeclaredPublic());
    UniqueDescriptorsKept(a);
    UniqueDescriptorsKept(b);
    DescriptorsOrdered(x);
    DescriptorsOrdered(y);
    FilterSorted(a, DeclaredPublic(), ByDescriptor);
    FilterSorted(b, DeclaredPublic(), ByDescriptor);
    DistinctIsMultiset(x, y);
    SortedUnique(x, y, ByDescriptor);
  }

  /** The members as their canonical text shows them. */
  function Canonicals(members: seq<Member>): seq<Member> {
    MapSeq(members, CanonMember)
  }

  function Canonical(a: Artifact): seq<Member> {
    Canonicals(a.members)
  }

  lemma CanonicalShape(d: Digests, a: Artifact)
    requires Verify(d, a).None?
    ensures UniqueMembers(Canonical(a)) && SortedBy(Canonical(a), ByMember)
    ensures CheckPartitions(a.bundle, Canonical(a)).None?
  {
    ConformantShape(d, a);
    CanonMembersPrintAlike(a.members);
    SameTextSorted(a.members, Canonical(a));
    SameTextPartitions(a.bundle, a.members, Canonical(a));
  }

  lemma PublicManifestFollows(d: Digests, a: Artifact, b: Artifact, x: Descriptor)
    requires Verify(d, a).None? && Verify(d, b).None? && x.partition == Public && x in a.bundle.manifest
    requires forall m: Member :: m.partition == Public ==> (m in Canonical(a) <==> m in Canonical(b))
    ensures x in b.bundle.manifest
  {
    CanonicalShape(d, a);
    CanonicalShape(d, b);
    PartitionsMean(a.bundle, Canonical(a));
    PartitionsMean(b.bundle, Canonical(b));
    assert Materialized(Canonical(a), x);
    var m :| m in Canonical(a) && DescriptorOf(m) == x;
    assert m in Canonical(b);
  }

  lemma {:induction false} CanonOfPublic(members: seq<Member>)
    ensures MapSeq(Filter(members, IsPublic()), CanonMember) == Filter(MapSeq(members, CanonMember), IsPublic())
  {
    if members == [] {
    } else {
      CanonOfPublic(members[1..]);
      assert MapSeq(members, CanonMember)[1..] == MapSeq(members[1..], CanonMember);
      assert MapSeq(members, CanonMember)[0] == CanonMember(members[0]);
    }
  }

  lemma ArrangedCanon(members: seq<Member>)
    requires UniqueMembers(members) && SortedBy(members, ByMember)
    ensures Arrange(MapSeq(members, CanonMember)) == Ok(MapSeq(members, CanonMember))
  {
    var canon := MapSeq(members, CanonMember);
    SameTextSorted(members, canon);
    SortKeepsSorted(canon, ByMember);
  }

  lemma CanonPartitions(b: Bundle, members: seq<Member>)
    requires UniqueMembers(members) && CheckPartitions(b, members).None?
    ensures CheckPartitions(b, MapSeq(members, CanonMember)).None?
  {
    CanonMembersPrintAlike(members);
    SameTextPartitions(b, members, MapSeq(members, CanonMember));
  }

  lemma PublicPasses(d: Digests, b: Bundle, members: seq<Member>)
    requires Define(b) == Ok(b) && b.privateEvaluator.None? && !AnyPrivate(b.manifest)
    requires Arrange(MapSeq(members, CanonMember)) == Ok(MapSeq(members, CanonMember))
    requires forall i :: 0 <= i < |members| ==> Sound(d, members[i]) && members[i].partition == Public
    requires CheckPartitions(b, MapSeq(members, CanonMember)).None?
    ensures VerifyPublic(d, Artifact(b, members, d.open(b, MapSeq(members, CanonMember)))).None?
  {
    RenormalizeAllIff(d, members);
    CanonMembersPrintAlike(members);
  }

  lemma PublicManifest(b: Bundle)
    ensures !AnyPrivate(PublicBundle(b).manifest)
  {
    FilterElements(b.manifest, DeclaredPublic());
    PrivateMember(PublicBundle(b).manifest);
  }

  /** The public artifact passes its own verification. */
  lemma PublicConforms(d: Digests, a: Artifact)
    requires Verify(d, a).None?
    ensures ToPublic(d, a).Ok? && VerifyPublic(d, ToPublic(d, a).value).None?
  {
    var mine := Filter(a.members, IsPublic());
    ConformantShape(d, a);
    PublicDefined(a.bundle);
    PublicPartitions(a.bundle, a.members);
    UniqueKept(a.members);
    FilterSorted(a.members, IsPublic(), ByMember);
    ArrangedCanon(mine);
    CanonPartitions(PublicBundle(a.bundle), mine);
    PublicManifest(a.bundle);
    PublicSound(d, a);
    PublicPasses(d, PublicBundle(a.bundle), mine);
  }

  lemma PublicSound(d: Digests, a: Artifact)
    requires Verify(d, a).None?
    ensures var mine := Filter(a.members, IsPublic());
      forall i :: 0 <= i < |mine| ==> Sound(d, mine[i]) && mine[i].partition == Public
  {
    var mine := Filter(a.members, IsPublic());
    RenormalizeAllIff(d, a.members);
    forall i | 0 <= i < |mine| ensures Sound(d, mine[i]) && mine[i].partition == Public {
      FilterMember(a.members, IsPublic(), mine[i]);
      var k :| 0 <= k < |a.members| && a.members[k] == mine[i];
    }
  }

  /**
   Nothing private shows: two conformant bundles with the same shared part and, in canonical text, the same
   public members have the same public artifact.
   */
  lemma PrivateDoesNotShow(d: Digests, a: Artifact, b: Artifact)
    requires Verify(d, a).None? && Verify(d, b).None? && a.bundle.shared == b.bundle.shared
    requires forall m: Member :: m.partition == Public ==> (m in Canonical(a) <==> m in Canonical(b))
    ensures ToPublic(d, a).Ok? && ToPublic(d, b).Ok? && SameArtifact(ToPublic(d, a).value, ToPublic(d, b).value)
  {
    PublicCut(d, a);
    PublicCut(d, b);
    ConformantShape(d, a);
    ConformantShape(d, b);
    CanonicalShape(d, a);
    CanonicalShape(d, b);
    SameCut(Canonical(a), Canonical(b));
    CanonOfPublic(a.members);
    CanonOfPublic(b.members);
    SameTextIsSameCanon(Filter(a.members, IsPublic()), Filter(b.members, IsPublic()));
    forall x: Descriptor | x.partition == Public ensures x in a.bundle.manifest <==> x in b.bundle.manifest {
      if x in a.bundle.manifest { PublicManifestFollows(d, a, b, x); }
      if x in b.bundle.manifest { PublicManifestFollows(d, b, a, x); }
    }
    SameManifest(a.bundle.manifest, b.bundle.manifest);
    PublicDefined(a.bundle);
    PublicDefined(b.bundle);
  }

  // ----- creation and verification in the fields themselves -----

  function Declares(m: MemberInput): Descriptor {
    Descriptor(m.id, m.partition, m.kind)
  }

  ghost predicate OwnIds(s: seq<Descriptor>) {
    forall i, j :: 0 <= i < j < |s| ==> s[i].id != s[j].id
  }

  /** The private-evaluator part comes first; within a part, ids rise. */
  ghost predicate InOrder(s: seq<Descriptor>) {
    forall i, j :: 0 <= i < j < |s| ==>
      || (s[i].partition == PrivateEvaluator && s[j].partition == Public)
      || (s[i].partition == s[j].partition && s[i].id < s[j].id)
  }

  ghost predicate Has(s: seq<Descriptor>, p: Partition) {
    exists x :: x in s && x.partition == p
  }

  /** Manifest and members name the same things, at least one is public, and an evaluator is named for private ones only. */
  ghost predicate Agree(b: Bundle, named: seq<Descriptor>) {
    && (forall x :: x in b.manifest <==> x in named)
    && Has(b.manifest, Public) && (b.privateEvaluator.Some? <==> Has(b.manifest, PrivateEvaluator))
  }

  ghost predicate Creatable(b: Bundle, inputs: seq<MemberInput>) {
    && OwnIds(b.manifest) && OwnIds(MapSeq(inputs, Declares)) && Agree(b, MapSeq(inputs, Declares))
    && forall m :: m in inputs ==> J.SafeKeys(m.payload)
  }

  ghost predicate MadeFrom(d: Digests, m: Member, n: MemberInput) {
    && m.id == n.id && m.partition == n.partition && m.kind == n.kind
    && m.payload == J.Canon(n.payload) && m.contentHash == d.hash(J.Print(n.payload))
  }

  /** The artifact lists the given descriptors and members, in order, each payload in canonical form with its digest. */
  ghost predicate Makes(d: Digests, b: Bundle, inputs: seq<MemberInput>, a: Artifact) {
    && a.bundle.shared == b.shared && a.bundle.privateEvaluator == b.privateEvaluator
    && multiset(a.bundle.manifest) == multiset(b.manifest) && InOrder(a.bundle.manifest)
    && |a.members| == |inputs| && InOrder(MapSeq(a.members, DescriptorOf))
    && (forall n :: n in inputs ==> exists m :: m in a.members && MadeFrom(d, m, n))
    && (forall m :: m in a.members ==> exists n :: n in inputs && MadeFrom(d, m, n))
    && a.id == d.full(a.bundle, a.members)
  }

  /** The fault that an error of the partition check stands for. */
  ghost predicate Disagrees(e: BundleError, b: Bundle, named: seq<Descriptor>) {
    match e
    case MissingManifestMember => exists x :: x in b.manifest && forall y :: y in named ==> y.id != x.id
    case PartitionMismatch => exists x, y :: x in b.manifest && y in named && x.id == y.id && x != y
    case UndeclaredMember => exists y :: y in named && forall x :: x in b.manifest ==> x.id != y.id
    case PublicUnmaterialized => !Has(b.manifest, Public)
    case PrivateUnmaterialized => b.privateEvaluator.Some? && !Has(b.manifest, PrivateEvaluator)
    case _ => false
  }

  ghost predicate Undefinable(e: BundleError, b: Bundle) {
    || (e == DuplicateDescriptor && !OwnIds(b.manifest))
    || (e == PrivateWithoutEvaluator && b.privateEvaluator.None? && Has(b.manifest, PrivateEvaluator))
  }

  ghost predicate Refuses(e: BundleError, b: Bundle, inputs: seq<MemberInput>) {
    || Undefinable(e, b)
    || (e == UnsafePayload && exists m :: m in inputs && !J.SafeKeys(m.payload))
    || (e == DuplicateMember && !OwnIds(MapSeq(inputs, Declares)))
    || Disagrees(e, b, MapSeq(inputs, Declares))
  }

  lemma HasMeans(s: seq<Descriptor>)
    ensures AnyPrivate(s) <==> Has(s, PrivateEvaluator)
    ensures AnyPublic(s) <==> Has(s, Public)
    ensures UniqueDescriptors(s) <==> OwnIds(s)
  {
    forall i | 0 <= i < |s| ensures s[i] in s {}
  }

  lemma OrderMeans(s: seq<Descriptor>)
    requires UniqueDescriptors(s)
    ensures SortedBy(s, ByDescriptor) <==> InOrder(s)
  {
    forall i, j | 0 <= i < j < |s| && ByDescriptor(s[i], s[j])
      ensures (s[i].partition == PrivateEvaluator && s[j].partition == Public) || (s[i].partition == s[j].partition && s[i].id < s[j].id)
    {
    }
  }

  lemma NamedIs(members: seq<Member>)
    ensures forall x :: x in MapSeq(members, DescriptorOf) <==> Materialized(members, x)
  {
    var named := MapSeq(members, DescriptorOf);
    forall x | x in named ensures Materialized(members, x) {
      var i :| 0 <= i < |named| && named[i] == x;
      assert members[i] in members;
    }
    forall x | Materialized(members, x) ensures x in named {
      var m :| m in members && DescriptorOf(m) == x;
      var i :| 0 <= i < |members| && members[i] == m;
      assert named[i] in named;
    }
  }

  lemma NamedMeans(members: seq<Member>)
    ensures UniqueMembers(members) <==> OwnIds(MapSeq(members, DescriptorOf))
    ensures SortedBy(members, ByMember) <==> SortedBy(MapSeq(members, DescriptorOf), ByDescriptor)
  {
    var named := MapSeq(members, DescriptorOf);
    if UniqueMembers(members) {
      forall i, j | 0 <= i < j < |named| ensures named[i].id != named[j].id { assert members[i].id != members[j].id; }
    }
    if OwnIds(named) {
      forall i, j | 0 <= i < j < |members| ensures members[i].id != members[j].id { assert named[i].id != named[j].id; }
    }
    forall i, j | 0 <= i < j < |members| ensures ByMember(members[i], members[j]) <==> ByDescriptor(named[i], named[j]) {}
  }

  lemma NamedIn(manifest: seq<Descriptor>, members: seq<Member>)
    ensures (forall m :: m in members ==> DescriptorOf(m) in manifest) <==> forall x :: Materialized(members, x) ==> x in manifest
  {
    if forall m :: m in members ==> DescriptorOf(m) in manifest {
      forall x | Materialized(members, x) ensures x in manifest {
        var m :| m in members && DescriptorOf(m) == x;
      }
    }
    if forall x :: Materialized(members, x) ==> x in manifest {
      forall m | m in members ensures DescriptorOf(m) in manifest { assert Materialized(members, DescriptorOf(m)); }
    }
  }

  lemma AgreeMeans(b: Bundle, members: seq<Member>)
    requires UniqueMembers(members)
    ensures CheckPartitions(b, members).None? <==> Agree(b, MapSeq(members, DescriptorOf))
  {
    PartitionsMean(b, members);
    NamedIn(b.manifest, members);
    NamedIs(members);
    HasMeans(b.manifest);
  }

  lemma {:induction false} ManifestFault(manifest: seq<Descriptor>, members: seq<Member>)
    requires UniqueMembers(members) && CheckManifest(manifest, members).Some?
    ensures match CheckManifest(manifest, members).value
      case MissingManifestMember => exists x :: x in manifest && forall m :: m in members ==> m.id != x.id
      case PartitionMismatch => exists x, m :: x in manifest && m in members && x.id == m.id && x != DescriptorOf(m)
      case _ => false
    decreases |manifest|
  {
    assert manifest == [manifest[0]] + manifest[1..];
    FoundIs(members, manifest[0].id);
    assert manifest[0] in manifest;
    var f := Find(members, manifest[0].id);
    if f.Some? && DescriptorOf(f.value) == manifest[0] {
      ManifestFault(manifest[1..], members);
    }
  }

  lemma ManifestFaultNamed(b: Bundle, members: seq<Member>)
    requires UniqueMembers(members) && CheckManifest(b.manifest, members).Some?
    ensures Disagrees(CheckManifest(b.manifest, members).value, b, MapSeq(members, DescriptorOf))
  {
    ManifestFault(b.manifest, members);
    NamedIs(members);
    var named := MapSeq(members, DescriptorOf);
    if CheckManifest(b.manifest, members).value == MissingManifestMember {
      var x :| x in b.manifest && forall m :: m in members ==> m.id != x.id;
      forall y | y in named ensures y.id != x.id {
        var m :| m in members && DescriptorOf(m) == y;
      }
    } else {
      var x, m :| x in b.manifest && m in members && x.id == m.id && x != DescriptorOf(m);
      assert Materialized(members, DescriptorOf(m));
    }
  }

  lemma UndeclaredFault(b: Bundle, members: seq<Member>)
    requires !AllDeclared(b.manifest, members)
    ensures Disagrees(UndeclaredMember, b, MapSeq(members, DescriptorOf))
  {
    var named := MapSeq(members, DescriptorOf);
    var i :| 0 <= i < |members| && !Declared(b.manifest, members[i].id);
    assert named[i] in named && named[i].id == members[i].id;
    forall x | x in b.manifest ensures x.id != named[i].id {
      var k :| 0 <= k < |b.manifest| && b.manifest[k] == x;
    }
  }

  /** Each error of the partition check has its own fault; a bundle that could be defined has an evaluator for its private members. */
  lemma PartitionFault(b: Bundle, members: seq<Member>)
    requires UniqueMembers(members) && CheckPartitions(b, members).Some?
    requires b.privateEvaluator.None? ==> !AnyPrivate(b.manifest)
    ensures Disagrees(CheckPartitions(b, members).value, b, MapSeq(members, DescriptorOf))
  {
    HasMeans(b.manifest);
    if CheckManifest(b.manifest, members).Some? {
      ManifestFaultNamed(b, members);
    } else if !AllDeclared(b.manifest, members) {
      UndeclaredFault(b, members);
    }
  }

  lemma {:induction false} NormalizeAllIff(d: Digests, inputs: seq<MemberInput>)
    ensures NormalizeAll(d, inputs).Ok? <==> forall i :: 0 <= i < |inputs| ==> J.SafeKeys(inputs[i].payload)
    ensures NormalizeAll(d, inputs).Err? ==> NormalizeAll(d, inputs).error == UnsafePayload
  {
    if inputs != [] {
      J.NormalizeIsCanon(inputs[0].payload);
      NormalizeAllIff(d, inputs[1..]);
      assert forall i :: 0 < i < |inputs| ==> inputs[i] == inputs[1..][i - 1];
    }
  }

  lemma NormalizedNames(d: Digests, inputs: seq<MemberInput>)
    requires NormalizeAll(d, inputs).Ok?
    ensures var normalized := NormalizeAll(d, inputs).value;
      && |normalized| == |inputs| && MapSeq(normalized, DescriptorOf) == MapSeq(inputs, Declares)
      && forall i :: 0 <= i < |inputs| ==> MadeFrom(d, normalized[i], inputs[i])
  {
    var normalized := NormalizeAll(d, inputs).value;
    NormalizedLength(d, inputs);
    forall i | 0 <= i < |inputs| ensures MadeFrom(d, normalized[i], inputs[i]) {
      NormalizedAt(d, inputs, i);
      J.NormalizeIsCanon(inputs[i].payload);
      J.PrintCanon(inputs[i].payload);
    }
  }

  lemma SameMaterialized(a: seq<Member>, b: seq<Member>)
    requires forall m :: m in a <==> m in b
    ensures forall x :: x in MapSeq(a, DescriptorOf) <==> x in MapSeq(b, DescriptorOf)
  {
    NamedIs(a);
    NamedIs(b);
    forall x ensures Materialized(a, x) <==> Materialized(b, x) {
      if Materialized(a, x) { var m :| m in a && DescriptorOf(m) == x; assert m in b; }
      if Materialized(b, x) { var m :| m in b && DescriptorOf(m) == x; assert m in a; }
    }
  }

  lemma SortedNames(members: seq<Member>)
    requires UniqueMembers(members)
    ensures UniqueMembers(SortBy(members, ByMember)) && InOrder(MapSeq(SortBy(members, ByMember), DescriptorOf))
    ensures forall x :: x in MapSeq(SortBy(members, ByMember), DescriptorOf) <==> x in MapSeq(members, DescriptorOf)
  {
    var sorted := SortBy(members, ByMember);
    SortedUniqueMembers(members);
    NamedMeans(sorted);
    HasMeans(MapSeq(sorted, DescriptorOf));
    OrderMeans(MapSeq(sorted, DescriptorOf));
    SortElements(members, ByMember);
    SameMaterialized(sorted, members);
  }

  lemma DefineMeans(b: Bundle)
    ensures Define(b).Ok? <==> OwnIds(b.manifest) && (b.privateEvaluator.None? ==> !Has(b.manifest, PrivateEvaluator))
    ensures Define(b).Err? ==> Undefinable(Define(b).error, b)
    ensures Define(b).Ok? ==> var c := Define(b).value;
      && c.shared == b.shared && c.privateEvaluator == b.privateEvaluator && multiset(c.manifest) == multiset(b.manifest)
      && OwnIds(c.manifest) && InOrder(c.manifest) && forall x :: x in c.manifest <==> x in b.manifest
  {
    HasMeans(b.manifest);
    if Define(b).Ok? {
      var sorted := SortBy(b.manifest, ByDescriptor);
      SortedUniqueDescriptors(b.manifest);
      OrderMeans(sorted);
      HasMeans(sorted);
      SortPermutes(b.manifest, ByDescriptor);
      SortElements(b.manifest, ByDescriptor);
    }
  }

  /** A manifest has the descriptors that a bundle agrees about, whatever the order of both. */
  lemma AgreeAlike(b: Bundle, c: Bundle, named: seq<Descriptor>, others: seq<Descriptor>)
    requires b.privateEvaluator == c.privateEvaluator && forall x :: x in b.manifest <==> x in c.manifest
    requires forall x :: x in named <==> x in others
    ensures Agree(b, named) <==> Agree(c, others)
    ensures forall e :: Disagrees(e, b, named) ==> Disagrees(e, c, others)
  {
    forall p ensures Has(b.manifest, p) <==> Has(c.manifest, p) {
      if Has(b.manifest, p) { var x :| x in b.manifest && x.partition == p; assert x in c.manifest; }
      if Has(c.manifest, p) { var x :| x in c.manifest && x.partition == p; assert x in b.manifest; }
    }
  }

  /** When creation accepts, and otherwise a fault that its error stands for. */
  lemma CreatesIff(d: Digests, b: Bundle, inputs: seq<MemberInput>)
    ensures Create(d, b, inputs).Ok? <==> Creatable(b, inputs)
    ensures Create(d, b, inputs).Err? ==> Refuses(Create(d, b, inputs).error, b, inputs)
  {
    DefineMeans(b);
    NormalizeAllIff(d, inputs);
    forall i | 0 <= i < |inputs| ensures inputs[i] in inputs {}
    if Define(b).Ok? && NormalizeAll(d, inputs).Ok? {
      var c, normalized := Define(b).value, NormalizeAll(d, inputs).value;
      NormalizedNames(d, inputs);
      NamedMeans(normalized);
      if UniqueMembers(normalized) {
        var members := SortBy(normalized, ByMember);
        SortedNames(normalized);
        AgreeMeans(c, members);
        AgreeAlike(c, b, MapSeq(members, DescriptorOf), MapSeq(inputs, Declares));
        HasMeans(c.manifest);
        AgreeAlike(b, c, [], []);
        if CheckPartitions(c, members).Some? { PartitionFault(c, members); }
      }
    }
  }

  /** What creation returns. */
  lemma CreatedMeans(d: Digests, b: Bundle, inputs: seq<MemberInput>)
    requires Create(d, b, inputs).Ok?
    ensures Makes(d, b, inputs, Create(d, b, inputs).value)
  {
    var a, normalized := Create(d, b, inputs).value, NormalizeAll(d, inputs).value;
    DefineMeans(b);
    NormalizedNames(d, inputs);
    SortedNames(normalized);
    SortElements(normalized, ByMember);
    forall n | n in inputs ensures exists m :: m in a.members && MadeFrom(d, m, n) {
      var i :| 0 <= i < |inputs| && inputs[i] == n;
      assert normalized[i] in normalized;
    }
    forall m | m in a.members ensures exists n :: n in inputs && MadeFrom(d, m, n) {
      var i :| 0 <= i < |normalized| && normalized[i] == m;
      assert inputs[i] in inputs;
    }
  }

  /** The bundle and its members as verification wants them, apart from the seal. */
  ghost predicate WellFormed(d: Digests, b: Bundle, members: seq<Member>) {
    && OwnIds(b.manifest) && InOrder(b.manifest)
    && OwnIds(MapSeq(members, DescriptorOf)) && InOrder(MapSeq(members, DescriptorOf))
    && Agree(b, MapSeq(members, DescriptorOf))
    && forall m :: m in members ==> J.SafeKeys(m.payload) && m.contentHash == d.hash(J.Print(m.payload))
  }

  lemma SoundMeans(d: Digests, members: seq<Member>)
    ensures (forall i :: 0 <= i < |members| ==> Sound(d, members[i])) <==>
            forall m :: m in members ==> J.SafeKeys(m.payload) && m.contentHash == d.hash(J.Print(m.payload))
  {
    forall m: Member ensures Sound(d, m) <==> J.SafeKeys(m.payload) && m.contentHash == d.hash(J.Print(m.payload)) {
      J.NormalizeIsCanon(m.payload);
      J.PrintCanon(m.payload);
    }
    forall i | 0 <= i < |members| ensures members[i] in members {}
  }

  /** The steps that the two verifications share, up to the partition check. */
  ghost predicate Passes(d: Digests, b: Bundle, members: seq<Member>) {
    && Define(b) == Ok(b) && RenormalizeAll(d, members).Ok? && UniqueMembers(RenormalizeAll(d, members).value)
    && SameText(SortBy(RenormalizeAll(d, members).value, ByMember), members) && CheckPartitions(b, Canonicals(members)).None?
  }

  lemma CanonicalNames(members: seq<Member>)
    ensures MapSeq(Canonicals(members), DescriptorOf) == MapSeq(members, DescriptorOf)
  {
  }

  lemma DefinedIff(b: Bundle)
    requires b.privateEvaluator.None? ==> !Has(b.manifest, PrivateEvaluator)
    ensures Define(b) == Ok(b) <==> OwnIds(b.manifest) && InOrder(b.manifest)
  {
    DefineMeans(b);
    HasMeans(b.manifest);
    if OwnIds(b.manifest) && InOrder(b.manifest) {
      OrderMeans(b.manifest);
      DescriptorsOrdered(b.manifest);
      SortKeepsSorted(b.manifest, ByDescriptor);
    }
  }

  lemma ArrangedIff(members: seq<Member>)
    requires UniqueMembers(members)
    ensures SameText(SortBy(Canonicals(members), ByMember), members) <==> InOrder(MapSeq(members, DescriptorOf))
    ensures InOrder(MapSeq(members, DescriptorOf)) ==> SortBy(Canonicals(members), ByMember) == Canonicals(members)
  {
    var canon := Canonicals(members);
    NamedMeans(members);
    HasMeans(MapSeq(members, DescriptorOf));
    OrderMeans(MapSeq(members, DescriptorOf));
    CanonMembersPrintAlike(members);
    if SortedBy(members, ByMember) { ArrangedCanon(members); }
    if SameText(SortBy(canon, ByMember), members) {
      CanonicalUnique(members);
      SortedUniqueMembers(canon);
      SameTextSorted(SortBy(canon, ByMember), members);
    }
  }

  lemma CanonicalUnique(members: seq<Member>)
    ensures UniqueMembers(Canonicals(members)) <==> UniqueMembers(members)
  {
    NamedMeans(members);
    NamedMeans(Canonicals(members));
    CanonicalNames(members);
  }

  lemma PassedIsWellFormed(d: Digests, b: Bundle, members: seq<Member>)
    requires Passes(d, b, members)
    ensures WellFormed(d, b, members) && UniqueMembers(members)
    ensures SortBy(RenormalizeAll(d, members).value, ByMember) == Canonicals(members)
  {
    RenormalizeAllIff(d, members);
    SoundMeans(d, members);
    CanonicalUnique(members);
    NamedMeans(members);
    CanonicalNames(members);
    ArrangedIff(members);
    AgreeMeans(b, Canonicals(members));
    DefineMeans(b);
  }

  lemma WellFormedPasses(d: Digests, b: Bundle, members: seq<Member>)
    requires WellFormed(d, b, members)
    ensures Passes(d, b, members) && UniqueMembers(members)
  {
    RenormalizeAllIff(d, members);
    SoundMeans(d, members);
    CanonicalUnique(members);
    NamedMeans(members);
    CanonicalNames(members);
    ArrangedIff(members);
    CanonMembersPrintAlike(members);
    AgreeMeans(b, Canonicals(members));
    DefinedIff(b);
  }

  /** A fault of a bundle with its members, seal and publicity apart, that an error of the two verifications stands for. */
  ghost predicate IllFormed(e: BundleError, d: Digests, b: Bundle, members: seq<Member>) {
    || Undefinable(e, b)
    || (e == NonCanonical && (!InOrder(b.manifest) || !InOrder(MapSeq(members, DescriptorOf))))
    || Unsound(e, d, members)
    || (e == DuplicateMember && !OwnIds(MapSeq(members, DescriptorOf)))
    || Disagrees(e, b, MapSeq(members, DescriptorOf))
  }

  ghost predicate Unsound(e: BundleError, d: Digests, members: seq<Member>) {
    || (e == UnsafePayload && exists m :: m in members && !J.SafeKeys(m.payload))
    || (e == HashMismatch && exists m :: m in members && m.contentHash != d.hash(J.Print(m.payload)))
  }

  ghost predicate ShowsPrivate(a: Artifact) {
    a.bundle.privateEvaluator.Some? || exists m :: m in a.members && m.partition != Public
  }

  lemma {:induction false} RenormalizeFault(d: Digests, members: seq<Member>)
    requires RenormalizeAll(d, members).Err?
    ensures Unsound(RenormalizeAll(d, members).error, d, members)
  {
    J.NormalizeIsCanon(members[0].payload);
    J.PrintCanon(members[0].payload);
    assert members == [members[0]] + members[1..] && members[0] in members;
    if RenormalizeMember(d, members[0]).Ok? { RenormalizeFault(d, members[1..]); }
  }

  /** Up to the order of the members, a failed step has its fault. */
  lemma StepFault(d: Digests, b: Bundle, members: seq<Member>)
    ensures Define(b).Err? ==> IllFormed(Define(b).error, d, b, members)
    ensures Define(b).Ok? && Define(b).value != b ==> IllFormed(NonCanonical, d, b, members)
    ensures RenormalizeAll(d, members).Err? ==> IllFormed(RenormalizeAll(d, members).error, d, b, members)
    ensures RenormalizeAll(d, members).Ok? && !UniqueMembers(RenormalizeAll(d, members).value) ==>
              IllFormed(DuplicateMember, d, b, members)
  {
    DefineMeans(b);
    if Define(b).Ok? { DefinedIff(b); }
    if RenormalizeAll(d, members).Err? { RenormalizeFault(d, members); }
    RenormalizeAllIff(d, members);
    CanonicalUnique(members);
    NamedMeans(members);
  }

  lemma OrderFault(d: Digests, b: Bundle, members: seq<Member>)
    requires Define(b) == Ok(b) && UniqueMembers(members)
    ensures var sorted := SortBy(Canonicals(members), ByMember);
      if SameText(sorted, members)
      then sorted == Canonicals(members) && forall e :: CheckPartitions(b, sorted) == Some(e) ==> IllFormed(e, d, b, members)
      else IllFormed(NonCanonical, d, b, members)
  {
    ArrangedIff(members);
    CanonicalUnique(members);
    CanonicalNames(members);
    if CheckPartitions(b, Canonicals(members)).Some? { PartitionFault(b, Canonicals(members)); }
  }

  /** An artifact is conformant exactly when it is well formed and sealed over its canonical members; an error has its fault. */
  lemma VerifiedIff(d: Digests, a: Artifact)
    ensures Verify(d, a).None? <==> WellFormed(d, a.bundle, a.members) && a.id == d.full(a.bundle, Canonicals(a.members))
    ensures Verify(d, a).Some? ==>
      || IllFormed(Verify(d, a).value, d, a.bundle, a.members)
      || (Verify(d, a) == Some(IdMismatch) && a.id != d.full(a.bundle, Canonicals(a.members)))
  {
    StepFault(d, a.bundle, a.members);
    RenormalizeAllIff(d, a.members);
    CanonicalUnique(a.members);
    if Define(a.bundle) == Ok(a.bundle) && UniqueMembers(a.members) { OrderFault(d, a.bundle, a.members); }
    if WellFormed(d, a.bundle, a.members) { WellFormedPasses(d, a.bundle, a.members); }
    if Verify(d, a).None? { PassedIsWellFormed(d, a.bundle, a.members); }
  }

  lemma PrivateShown(members: seq<Member>)
    ensures (exists i :: 0 <= i < |Canonicals(members)| && Canonicals(members)[i].partition != Public) <==>
            exists m :: m in members && m.partition != Public
  {
    var canon := Canonicals(members);
    if i :| 0 <= i < |canon| && canon[i].partition != Public { assert members[i] in members; }
    if m :| m in members && m.partition != Public {
      var i :| 0 <= i < |members| && members[i] == m;
      assert canon[i].partition != Public;
    }
  }

  /** A public artifact is conformant exactly when, in addition, no member is private and no evaluator is named. */
  lemma VerifiedPublicIff(d: Digests, a: Artifact)
    ensures VerifyPublic(d, a).None? <==>
      && WellFormed(d, a.bundle, a.members) && a.id == d.open(a.bundle, Canonicals(a.members))
      && !ShowsPrivate(a)
    ensures VerifyPublic(d, a).Some? ==>
      || IllFormed(VerifyPublic(d, a).value, d, a.bundle, a.members)
      || (VerifyPublic(d, a) == Some(IdMismatch) && a.id != d.open(a.bundle, Canonicals(a.members)))
      || (VerifyPublic(d, a) == Some(NotPublic) && ShowsPrivate(a))
  {
    StepFault(d, a.bundle, a.members);
    RenormalizeAllIff(d, a.members);
    CanonicalUnique(a.members);
    HasMeans(a.bundle.manifest);
    DefineMeans(a.bundle);
    PrivateShown(a.members);
    if Define(a.bundle) == Ok(a.bundle) && UniqueMembers(a.members) { OrderFault(d, a.bundle, a.members); }
    if WellFormed(d, a.bundle, a.members) { WellFormedPasses(d, a.bundle, a.members); }
    if VerifyPublic(d, a).None? { PassedIsWellFormed(d, a.bundle, a.members); }
  }

  /** The public artifact exists for the conformant ones alone, and lists in order and under its own seal what it carries. */
  lemma CutIff(d: Digests, a: Artifact)
    ensures ToPublic(d, a).Ok? <==> WellFormed(d, a.bundle, a.members) && a.id == d.full(a.bundle, Canonicals(a.members))
    ensures ToPublic(d, a).Err? ==> Verify(d, a) == Some(ToPublic(d, a).error)
    ensures ToPublic(d, a).Ok? ==> var p := ToPublic(d, a).value;
      && InOrder(p.bundle.manifest) && InOrder(MapSeq(p.members, DescriptorOf))
      && p.id == d.open(p.bundle, Canonicals(p.members))
  {
    VerifiedIff(d, a);
    if Verify(d, a).None? {
      PublicConforms(d, a);
      VerifiedPublicIff(d, ToPublic(d, a).value);
    }
  }
}
