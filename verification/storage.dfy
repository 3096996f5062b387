/**
 packages/storage: a canonical ledger over one JSON file that is replaced atomically. The file is a value
 that a batch either replaces or leaves alone; a crash loses everything but the file.
 */
module Storage {
  import opened Wrappers
  import opened Collections
  import opened Sorting

  /** A record as callers give it and as the file holds it; the storage assigns the sequence. */
  datatype Raw = Raw(id: int, workspace: int, topic: string, at: int, sequence: Option<int>)

  /** A record in memory. */
  datatype Stored = Stored(id: int, workspace: int, topic: string, at: int, sequence: int)

  datatype Ledger = Ledger(records: seq<Stored>, next: map<int, int>)

  datatype StoreError = SequenceGiven(id: int) | InvalidSequence(id: int) | DuplicateRecord(id: int)

  /** What becomes of a write: it may fail, or the process may stop before or after the file is replaced. */
  datatype Fate = Completes | WriteFails | CrashesBefore | CrashesAfter

  /** The file and the ledger that is open on it. */
  datatype System = System(file: seq<Raw>, ledger: Ledger)

  const NOTHING := Ledger([], map[])

  predicate ByScope(a: Stored, b: Stored) {
    a.workspace < b.workspace || (a.workspace == b.workspace && a.sequence <= b.sequence)
  }

  function Last(next: map<int, int>, workspace: int): int {
    if workspace in next then next[workspace] else 0
  }

  function Number(r: Raw, sequence: int): Stored {
    Stored(r.id, r.workspace, r.topic, r.at, sequence)
  }

  function Saved(r: Stored): Raw {
    Raw(r.id, r.workspace, r.topic, r.at, Some(r.sequence))
  }

  predicate HasId(records: seq<Stored>, id: int) {
    exists i :: 0 <= i < |records| && records[i].id == id
  }

  // ----- opening -----

  function OpenRecord(l: Ledger, raw: Raw): Result<Ledger, StoreError> {
    var previous := Last(l.next, raw.workspace);
    var sequence := if raw.sequence.Some? then raw.sequence.value else previous + 1;
    if sequence < 1 || sequence <= previous then Err(InvalidSequence(raw.id))
    else if HasId(l.records, raw.id) then Err(DuplicateRecord(raw.id))
    else Ok(Ledger(l.records + [Number(raw, sequence)], l.next[raw.workspace := sequence]))
  }

  function Open(file: seq<Raw>): Result<Ledger, StoreError> {
    if file == [] then Ok(NOTHING) else
      match Open(file[..|file| - 1])
      case Err(e) => Err(e)
      case Ok(l) => OpenRecord(l, file[|file| - 1])
  }

  // ----- appending -----

  function Assign(next: map<int, int>, batch: seq<Raw>): Result<seq<Stored>, StoreError>
    decreases |batch|
  {
    if batch == [] then Ok([])
    else if batch[0].sequence.Some? then Err(SequenceGiven(batch[0].id))
    else
      var sequence := Last(next, batch[0].workspace) + 1;
      match Assign(next[batch[0].workspace := sequence], batch[1..])
      case Err(e) => Err(e)
      case Ok(rest) => Ok([Number(batch[0], sequence)] + rest)
  }

  function Advance(next: map<int, int>, stored: seq<Stored>): map<int, int>
    decreases |stored|
  {
    if stored == [] then next else Advance(next[stored[0].workspace := stored[0].sequence], stored[1..])
  }

  function Duplicate(records: seq<Stored>, stored: seq<Stored>): Option<int>
    decreases |stored|
  {
    if stored == [] then None
    else if HasId(records, stored[0].id) then Some(stored[0].id)
    else Duplicate(records + [stored[0]], stored[1..])
  }

  function Append(l: Ledger, batch: seq<Raw>): Result<Ledger, StoreError> {
    match Assign(l.next, batch)
    case Err(e) => Err(e)
    case Ok(stored) =>
      match Duplicate(l.records, stored)
      case Some(id) => Err(DuplicateRecord(id))
      case None => Ok(Ledger(l.records + stored, Advance(l.next, stored)))
  }

  function Query(l: Ledger): seq<Stored> {
    SortBy(l.records, ByScope)
  }

  function FileOf(l: Ledger): seq<Raw> {
    MapSeq(Query(l), Saved)
  }

  /** `appendBatch` with what happens to its write; after a crash the file is opened again. */
  function AppendBatch(s: System, batch: seq<Raw>, fate: Fate): Result<System, StoreError> {
    match Append(s.ledger, batch)
    case Err(e) => if fate.CrashesBefore? || fate.CrashesAfter? then Reopen(s) else Ok(s)
    case Ok(l) =>
      match fate
      case Completes => Ok(if batch == [] then s else System(FileOf(l), l))
      case WriteFails => Ok(s)
      case CrashesBefore => Reopen(s)
      case CrashesAfter => Reopen(if batch == [] then s else s.(file := FileOf(l)))
  }

  function Reopen(s: System): Result<System, StoreError> {
    match Open(s.file)
    case Err(e) => Err(e)
    case Ok(l) => Ok(System(s.file, l))
  }

  // ----- numbering -----

  function In(workspace: int): Stored -> bool {
    (r: Stored) => r.workspace == workspace
  }

  /** The records of one workspace, in order, are numbered 1, 2, 3, ... */
  ghost predicate Numbered(records: seq<Stored>, workspace: int) {
    var mine := Filter(records, In(workspace));
    forall k :: 0 <= k < |mine| ==> mine[k].sequence == k + 1
  }

  ghost predicate DistinctIds(records: seq<Stored>) {
    forall i, j :: 0 <= i < j < |records| ==> records[i].id != records[j].id
  }

  function LastIn(records: seq<Stored>, workspace: int): int {
    var mine := Filter(records, In(workspace));
    if mine == [] then 0 else mine[|mine| - 1].sequence
  }

  /** Rising numbers from 1 on, perhaps with gaps. */
  ghost predicate Rises(mine: seq<Stored>) {
    && (forall k :: 0 <= k < |mine| ==> mine[k].sequence >= 1)
    && forall j, k :: 0 <= j < k < |mine| ==> mine[j].sequence < mine[k].sequence
  }

  /** The next number of the workspace follows its last. */
  ghost predicate Fitted(l: Ledger, workspace: int) {
    Rises(Filter(l.records, In(workspace))) && Last(l.next, workspace) == LastIn(l.records, workspace)
  }

  /** What opening a file gives, whatever numbers it holds. */
  ghost predicate LedgerFit(l: Ledger) {
    DistinctIds(l.records) && forall w :: Fitted(l, w)
  }

  ghost predicate Counted(l: Ledger, workspace: int) {
    Numbered(l.records, workspace) && Last(l.next, workspace) == |Filter(l.records, In(workspace))|
  }

  /** Without a gap. */
  ghost predicate LedgerOk(l: Ledger) {
    DistinctIds(l.records) && forall w :: Counted(l, w)
  }

  lemma OkIsFit(l: Ledger)
    requires LedgerOk(l)
    ensures LedgerFit(l)
  {
    forall w ensures Fitted(l, w) { assert Counted(l, w); }
  }

  lemma FilterSnoc(records: seq<Stored>, r: Stored, w: int)
    ensures Filter(records + [r], In(w)) == Filter(records, In(w)) + if r.workspace == w then [r] else []
  {
    FilterAppend(records, [r], In(w));
    assert [r][1..] == [];
  }

  lemma CountedSnoc(l: Ledger, r: Stored, w: int)
    requires Counted(l, w) && (r.workspace == w ==> r.sequence == Last(l.next, w) + 1)
    ensures Counted(Ledger(l.records + [r], l.next[r.workspace := r.sequence]), w)
  {
    FilterSnoc(l.records, r, w);
  }

  lemma FreshSnoc(records: seq<Stored>, r: Stored)
    requires DistinctIds(records) && !HasId(records, r.id)
    ensures DistinctIds(records + [r])
  {
  }

  lemma SnocOk(l: Ledger, r: Stored)
    requires LedgerOk(l) && !HasId(l.records, r.id) && r.sequence == Last(l.next, r.workspace) + 1
    ensures LedgerOk(Ledger(l.records + [r], l.next[r.workspace := r.sequence]))
  {
    FreshSnoc(l.records, r);
    var m := Ledger(l.records + [r], l.next[r.workspace := r.sequence]);
    forall w ensures Counted(m, w) {
      assert Counted(l, w);
      CountedSnoc(l, r, w);
    }
  }

  lemma RisesSnoc(mine: seq<Stored>, r: Stored)
    requires Rises(mine) && r.sequence > if mine == [] then 0 else mine[|mine| - 1].sequence
    ensures Rises(mine + [r])
  {
  }

  lemma FittedSnoc(l: Ledger, r: Stored, w: int)
    requires Fitted(l, w) && (r.workspace == w ==> r.sequence > Last(l.next, w))
    ensures Fitted(Ledger(l.records + [r], l.next[r.workspace := r.sequence]), w)
  {
    FilterSnoc(l.records, r, w);
    if r.workspace == w { RisesSnoc(Filter(l.records, In(w)), r); }
  }

  lemma SnocFit(l: Ledger, r: Stored)
    requires LedgerFit(l) && !HasId(l.records, r.id) && r.sequence > Last(l.next, r.workspace)
    ensures LedgerFit(Ledger(l.records + [r], l.next[r.workspace := r.sequence]))
  {
    FreshSnoc(l.records, r);
    var m := Ledger(l.records + [r], l.next[r.workspace := r.sequence]);
    forall w ensures Fitted(m, w) {
      assert Fitted(l, w);
      FittedSnoc(l, r, w);
    }
  }

  /** An accepted batch continues every workspace's numbers, and leaves no gap that was not there. */
  lemma {:induction false} AppendOk(l: Ledger, batch: seq<Raw>)
    requires LedgerFit(l) && Append(l, batch).Ok?
    ensures LedgerFit(Append(l, batch).value) && l.records <= Append(l, batch).value.records
    ensures LedgerOk(l) ==> LedgerOk(Append(l, batch).value)
    ensures |Append(l, batch).value.records| == |l.records| + |batch|
    decreases |batch|
  {
    if batch == [] {
      assert l.records + [] == l.records;
    } else {
      var r := Number(batch[0], Last(l.next, batch[0].workspace) + 1);
      var m := Ledger(l.records + [r], l.next[r.workspace := r.sequence]);
      AppendHead(l, batch, r, m);
      SnocFit(l, r);
      if LedgerOk(l) { SnocOk(l, r); }
      AppendOk(m, batch[1..]);
    }
  }

  lemma AppendHead(l: Ledger, batch: seq<Raw>, r: Stored, m: Ledger)
    requires batch != [] && r == Number(batch[0], Last(l.next, batch[0].workspace) + 1)
    requires m == Ledger(l.records + [r], l.next[r.workspace := r.sequence]) && Append(l, batch).Ok?
    ensures !HasId(l.records, r.id) && Append(m, batch[1..]) == Append(l, batch)
  {
    var rest := Assign(m.next, batch[1..]).value;
    assert Assign(l.next, batch) == Ok([r] + rest);
    assert ([r] + rest)[1..] == rest;
    assert l.records + ([r] + rest) == m.records + rest;
  }

  lemma SameNumber(l: Ledger, a: Stored, b: Stored)
    requires LedgerFit(l) && a in l.records && b in l.records
    ensures a.workspace == b.workspace && a.sequence == b.sequence ==> a == b
  {
    if a.workspace == b.workspace && a.sequence == b.sequence {
      var mine := Filter(l.records, In(a.workspace));
      FilterMember(l.records, In(a.workspace), a);
      FilterMember(l.records, In(a.workspace), b);
      assert Fitted(l, a.workspace);
      var i :| 0 <= i < |mine| && mine[i] == a;
      var j :| 0 <= j < |mine| && mine[j] == b;
    }
  }

  lemma RecordsOrdered(l: Ledger)
    requires LedgerFit(l)
    ensures TotalPreorder(ByScope) && AntisymmetricOn(l.records, ByScope) && Distinct(l.records)
  {
    forall a, b | a in l.records && b in l.records && ByScope(a, b) && ByScope(b, a) ensures a == b {
      SameNumber(l, a, b);
    }
  }

  lemma WorkspaceSorted(l: Ledger, w: int)
    requires LedgerFit(l)
    ensures SortedBy(Filter(l.records, In(w)), ByScope)
  {
    var mine := Filter(l.records, In(w));
    assert Fitted(l, w);
    FilterElements(l.records, In(w));
    forall i, j | 0 <= i < j < |mine| ensures ByScope(mine[i], mine[j]) {
      assert mine[i] in mine && mine[j] in mine;
    }
  }

  /** Listing the records by workspace keeps each workspace's own order. */
  lemma QueryKeepsWorkspace(l: Ledger, w: int)
    requires LedgerFit(l)
    ensures Filter(Query(l), In(w)) == Filter(l.records, In(w))
  {
    RecordsOrdered(l);
    SortFilter(l.records, In(w), ByScope);
    WorkspaceSorted(l, w);
    SortKeepsSorted(Filter(l.records, In(w)), ByScope);
  }

  lemma QueryDistinct(l: Ledger)
    requires LedgerFit(l)
    ensures DistinctIds(Query(l))
  {
    RecordsOrdered(l);
    SortPermutes(l.records, ByScope);
    MultisetDistinct(l.records, Query(l));
    SortElements(l.records, ByScope);
    var q := Query(l);
    forall i, j | 0 <= i < j < |q| ensures q[i].id != q[j].id {
      assert q[i] in q && q[j] in q;
      var a :| 0 <= a < |l.records| && l.records[a] == q[i];
      var b :| 0 <= b < |l.records| && l.records[b] == q[j];
    }
  }

  lemma QueryFit(l: Ledger)
    requires LedgerFit(l)
    ensures LedgerFit(Ledger(Query(l), l.next))
  {
    QueryDistinct(l);
    forall w ensures Fitted(Ledger(Query(l), l.next), w) {
      assert Fitted(l, w);
      QueryKeepsWorkspace(l, w);
    }
  }

  lemma PrefixFits(l: Ledger, w: int)
    requires l.records != [] && Fitted(l, w)
    ensures var init, r := l.records[..|l.records| - 1], l.records[|l.records| - 1];
      Rises(Filter(init, In(w))) && (r.workspace == w ==> r.sequence > LastIn(init, w))
  {
    var init, r := l.records[..|l.records| - 1], l.records[|l.records| - 1];
    SplitLast(l.records);
    FilterSnoc(init, r, w);
    var mine, all := Filter(init, In(w)), Filter(l.records, In(w));
    assert forall k :: 0 <= k < |mine| ==> all[k] == mine[k];
    assert r.workspace == w ==> all[|mine|] == r;
  }

  /** The numbers that each workspace goes on from. */
  function NextAfter(records: seq<Stored>): map<int, int> {
    if records == [] then map[] else
      var r := records[|records| - 1];
      NextAfter(records[..|records| - 1])[r.workspace := r.sequence]
  }

  lemma {:induction false} NextIsLast(records: seq<Stored>, w: int)
    ensures Last(NextAfter(records), w) == LastIn(records, w)
    decreases |records|
  {
    if records != [] {
      var init, r := records[..|records| - 1], records[|records| - 1];
      SplitLast(records);
      FilterSnoc(init, r, w);
      NextIsLast(init, w);
    }
  }

  /** Opening takes the last record as it is. */
  lemma OpenTakesLast(l: Ledger, m: Ledger)
    requires LedgerFit(l) && l.records != [] && LedgerFit(m) && m.records == l.records[..|l.records| - 1]
    ensures var r := l.records[|l.records| - 1]; var t := Ledger(l.records, m.next[r.workspace := r.sequence]);
      OpenRecord(m, Saved(r)) == Ok(t) && LedgerFit(t)
  {
    var r := l.records[|l.records| - 1];
    assert Fitted(m, r.workspace) && Fitted(l, r.workspace);
    PrefixFits(l, r.workspace);
    LastIsNew(l);
    SnocFit(m, r);
    SplitLast(l.records);
  }

  lemma OpenSnoc(records: seq<Stored>)
    requires records != []
    ensures var init := MapSeq(records[..|records| - 1], Saved);
      Open(MapSeq(records, Saved)) ==
      match Open(init) case Err(e) => Err(e) case Ok(m) => OpenRecord(m, Saved(records[|records| - 1]))
  {
    var file := MapSeq(records, Saved);
    assert file[..|file| - 1] == MapSeq(records[..|records| - 1], Saved);
  }

  ghost predicate OpensTo(file: seq<Raw>, records: seq<Stored>) {
    Open(file).Ok? && Open(file).value.records == records && LedgerFit(Open(file).value)
  }

  /** A file that holds such records opens to exactly them. */
  lemma {:induction false} OpenSaved(l: Ledger)
    requires LedgerFit(l)
    ensures OpensTo(MapSeq(l.records, Saved), l.records)
    decreases |l.records|
  {
    if l.records == [] {
      assert MapSeq(l.records, Saved) == [];
    } else {
      var init := l.records[..|l.records| - 1];
      PrefixLedger(l);
      OpenSaved(Ledger(init, NextAfter(init)));
      OpenSnoc(l.records);
      OpenTakesLast(l, Open(MapSeq(init, Saved)).value);
    }
  }

  lemma LastIsNew(l: Ledger)
    requires DistinctIds(l.records) && l.records != []
    ensures !HasId(l.records[..|l.records| - 1], l.records[|l.records| - 1].id)
  {
  }

  lemma PrefixLedger(l: Ledger)
    requires LedgerFit(l) && l.records != []
    ensures var init := l.records[..|l.records| - 1]; LedgerFit(Ledger(init, NextAfter(init)))
  {
    var init := l.records[..|l.records| - 1];
    forall w ensures Fitted(Ledger(init, NextAfter(init)), w) {
      assert Fitted(l, w);
      PrefixFits(l, w);
      NextIsLast(init, w);
    }
  }

  /** Whatever file opens, opens to rising numbers. */
  lemma {:induction false} OpenedFits(file: seq<Raw>)
    requires Open(file).Ok?
    ensures LedgerFit(Open(file).value)
    decreases |file|
  {
    if file != [] {
      var init, raw := file[..|file| - 1], file[|file| - 1];
      OpenedFits(init);
      var l := Open(init).value;
      assert Fitted(l, raw.workspace);
      SnocFit(l, Number(raw, if raw.sequence.Some? then raw.sequence.value else Last(l.next, raw.workspace) + 1));
    }
  }

  lemma SameCounts(l: Ledger, m: Ledger, w: int)
    requires LedgerFit(l) && LedgerFit(m) && m.records == Query(l)
    ensures Last(l.next, w) == Last(m.next, w)
  {
    assert Fitted(l, w) && Fitted(m, w);
    QueryKeepsWorkspace(l, w);
  }

  /** Two ledgers that answer every query alike and number what comes next alike. */
  ghost predicate SameLedger(l: Ledger, m: Ledger) {
    Query(l) == Query(m) && forall w :: Last(l.next, w) == Last(m.next, w)
  }

  /** Opening the file a ledger was written to gives back that ledger. */
  lemma ReopenRestores(l: Ledger)
    requires LedgerFit(l)
    ensures Open(FileOf(l)).Ok? && LedgerFit(Open(FileOf(l)).value) && SameLedger(Open(FileOf(l)).value, l)
    ensures Open(FileOf(l)).value.records == Query(l) && FileOf(Open(FileOf(l)).value) == FileOf(l)
  {
    QueryFit(l);
    OpenSaved(Ledger(Query(l), l.next));
    var m := Open(FileOf(l)).value;
    forall w { SameCounts(l, m, w); }
    RecordsOrdered(l);
    SortSorts(l.records, ByScope);
    SortKeepsSorted(Query(l), ByScope);
  }

  // ----- every run -----

  /** The file opens to a ledger that answers and numbers as the open one does. */
  ghost predicate SystemFit(s: System) {
    LedgerFit(s.ledger) && Open(s.file).Ok? && SameLedger(Open(s.file).value, s.ledger)
  }

  /** The open ledger has no gap and the file was written from it. */
  ghost predicate SystemOk(s: System) {
    LedgerOk(s.ledger) && s.file == FileOf(s.ledger)
  }

  lemma FreshOk()
    ensures SystemOk(System([], NOTHING))
  {
    assert MapSeq(Query(NOTHING), Saved) == [];
  }

  lemma SystemOkIsFit(s: System)
    requires SystemOk(s)
    ensures SystemFit(s)
  {
    OkIsFit(s.ledger);
    ReopenRestores(s.ledger);
  }

  /** Gaps show in the answers. */
  lemma SameGaps(l: Ledger, m: Ledger)
    requires LedgerOk(l) && LedgerFit(m) && SameLedger(l, m)
    ensures LedgerOk(m)
  {
    OkIsFit(l);
    forall w ensures Counted(m, w) {
      assert Counted(l, w);
      QueryKeepsWorkspace(l, w);
      QueryKeepsWorkspace(m, w);
    }
  }

  lemma ReopenFits(s: System)
    requires SystemFit(s)
    ensures Reopen(s).Ok? && SystemFit(Reopen(s).value) && SameLedger(Reopen(s).value.ledger, s.ledger)
  {
    OpenedFits(s.file);
  }

  lemma ReopenOk(s: System)
    requires SystemOk(s)
    ensures Reopen(s).Ok? && SystemOk(Reopen(s).value) && SameLedger(Reopen(s).value.ledger, s.ledger)
  {
    SystemOkIsFit(s);
    ReopenRestores(s.ledger);
    SameGaps(s.ledger, Reopen(s).value.ledger);
  }

  lemma WrittenFits(l: Ledger)
    requires LedgerFit(l)
    ensures SystemFit(System(FileOf(l), l))
  {
    ReopenRestores(l);
  }

  /**
   Whatever happens to the write, the ledger afterwards is the one before the batch or the one with all of
   the batch, and it is what the file opens to.
   */
  lemma BatchIsAtomic(s: System, batch: seq<Raw>, fate: Fate)
    requires SystemFit(s)
    ensures AppendBatch(s, batch, fate).Ok? && SystemFit(AppendBatch(s, batch, fate).value)
    ensures var t := AppendBatch(s, batch, fate).value.ledger;
      var after := Append(s.ledger, batch);
      if after.Ok? && (fate.Completes? || fate.CrashesAfter?) then SameLedger(t, after.value) else SameLedger(t, s.ledger)
  {
    var after := Append(s.ledger, batch);
    ReopenFits(s);
    if after.Ok? {
      AppendOk(s.ledger, batch);
      if batch == [] {
        assert s.ledger.records + [] == s.ledger.records;
      } else {
        WrittenFits(after.value);
        ReopenFits(System(FileOf(after.value), after.value));
      }
    }
  }

  /** Where numbers had no gap and the file was written from the ledger, both stay so. */
  lemma BatchKeepsOk(s: System, batch: seq<Raw>, fate: Fate)
    requires SystemOk(s)
    ensures AppendBatch(s, batch, fate).Ok? && SystemOk(AppendBatch(s, batch, fate).value)
  {
    var after := Append(s.ledger, batch);
    OkIsFit(s.ledger);
    ReopenOk(s);
    if after.Ok? {
      AppendOk(s.ledger, batch);
      if batch != [] { ReopenOk(System(FileOf(after.value), after.value)); }
    }
  }

  // ----- runs of batches and restarts -----

  datatype Turn = Batch(batch: seq<Raw>, fate: Fate) | Restart

  function Turns(s: System, turns: seq<Turn>): Result<System, StoreError> {
    if turns == [] then Ok(s) else
      match Turns(s, turns[..|turns| - 1])
      case Err(e) => Err(e)
      case Ok(t) =>
        match turns[|turns| - 1]
        case Batch(batch, fate) => AppendBatch(t, batch, fate)
        case Restart => Reopen(t)
  }

  predicate Lands(fate: Fate) {
    fate.Completes? || fate.CrashesAfter?
  }

  /** The batches that landed, appended one after the other to a ledger in memory. */
  function Landed(l: Ledger, turns: seq<Turn>): Ledger {
    if turns == [] then l else
      var m := Landed(l, turns[..|turns| - 1]);
      match turns[|turns| - 1]
      case Batch(batch, fate) => if Lands(fate) && Append(m, batch).Ok? then Append(m, batch).value else m
      case Restart => m
  }

  ghost predicate SameLast(a: map<int, int>, b: map<int, int>) {
    forall w :: Last(a, w) == Last(b, w)
  }

  ghost predicate SameIds(a: seq<Stored>, b: seq<Stored>) {
    forall id :: HasId(a, id) <==> HasId(b, id)
  }

  lemma SameLastUpdate(a: map<int, int>, b: map<int, int>, w: int, n: int)
    requires SameLast(a, b)
    ensures SameLast(a[w := n], b[w := n])
  {
    var x, y := a[w := n], b[w := n];
    forall v ensures Last(x, v) == Last(y, v) { assert Last(a, v) == Last(b, v); }
  }

  lemma {:induction false} AssignAlike(a: map<int, int>, b: map<int, int>, batch: seq<Raw>)
    requires SameLast(a, b)
    ensures Assign(a, batch) == Assign(b, batch)
    decreases |batch|
  {
    if batch != [] {
      var w := batch[0].workspace;
      SameLastUpdate(a, b, w, Last(a, w) + 1);
      AssignAlike(a[w := Last(a, w) + 1], b[w := Last(b, w) + 1], batch[1..]);
    }
  }

  lemma {:induction false} AdvanceAlike(a: map<int, int>, b: map<int, int>, stored: seq<Stored>)
    requires SameLast(a, b)
    ensures SameLast(Advance(a, stored), Advance(b, stored))
    decreases |stored|
  {
    if stored != [] {
      var w, n := stored[0].workspace, stored[0].sequence;
      SameLastUpdate(a, b, w, n);
      AdvanceAlike(a[w := n], b[w := n], stored[1..]);
    }
  }

  lemma HasIdSnoc(records: seq<Stored>, r: Stored, id: int)
    ensures HasId(records + [r], id) <==> HasId(records, id) || r.id == id
  {
    var all := records + [r];
    assert all[|records|] == r && forall i :: 0 <= i < |records| ==> all[i] == records[i];
  }

  lemma {:induction false} DuplicateAlike(a: seq<Stored>, b: seq<Stored>, stored: seq<Stored>)
    requires SameIds(a, b)
    ensures Duplicate(a, stored) == Duplicate(b, stored)
    decreases |stored|
  {
    if stored != [] {
      forall id ensures HasId(a + [stored[0]], id) <==> HasId(b + [stored[0]], id) {
        HasIdSnoc(a, stored[0], id);
        HasIdSnoc(b, stored[0], id);
      }
      DuplicateAlike(a + [stored[0]], b + [stored[0]], stored[1..]);
    }
  }

  lemma SameQueryIds(a: seq<Stored>, b: seq<Stored>)
    requires multiset(a) == multiset(b)
    ensures SameIds(a, b)
  {
    SameElements(a, b);
    forall id ensures HasId(a, id) <==> HasId(b, id) {
      IdInSome(a, id);
      IdInSome(b, id);
    }
  }

  lemma IdInSome(records: seq<Stored>, id: int)
    ensures HasId(records, id) <==> exists r :: r in records && r.id == id
  {
    forall i | 0 <= i < |records| ensures records[i] in records {}
  }

  lemma SameRecords(l: Ledger, m: Ledger)
    requires SameLedger(l, m)
    ensures multiset(l.records) == multiset(m.records)
  {
    SortPermutes(l.records, ByScope);
    SortPermutes(m.records, ByScope);
  }

  /** Ledgers that answer alike accept the same batches, refuse the others alike, and go on answering alike. */
  lemma AppendAlike(l: Ledger, m: Ledger, batch: seq<Raw>)
    requires LedgerFit(l) && LedgerFit(m) && SameLedger(l, m)
    ensures Append(l, batch).Ok? <==> Append(m, batch).Ok?
    ensures Append(l, batch).Ok? ==> SameLedger(Append(l, batch).value, Append(m, batch).value)
    ensures Append(l, batch).Err? ==> Append(l, batch) == Append(m, batch)
  {
    SameRecords(l, m);
    SameQueryIds(l.records, m.records);
    AssignAlike(l.next, m.next, batch);
    var stored := Assign(l.next, batch);
    if stored.Ok? {
      DuplicateAlike(l.records, m.records, stored.value);
      AdvanceAlike(l.next, m.next, stored.value);
      if Append(l, batch).Ok? {
        AppendOk(l, batch);
        RecordsOrdered(Append(l, batch).value);
        SortForgetsOrder(l.records + stored.value, m.records + stored.value, ByScope);
      }
    }
  }

  lemma SameTransitive(l: Ledger, m: Ledger, n: Ledger)
    requires SameLedger(l, m) && SameLedger(m, n)
    ensures SameLedger(l, n)
  {
  }

  lemma BatchFollows(s: System, m: Ledger, batch: seq<Raw>, fate: Fate)
    requires SystemFit(s) && LedgerFit(m) && SameLedger(s.ledger, m)
    ensures var n := if Lands(fate) && Append(m, batch).Ok? then Append(m, batch).value else m;
      && AppendBatch(s, batch, fate).Ok? && SystemFit(AppendBatch(s, batch, fate).value)
      && LedgerFit(n) && SameLedger(AppendBatch(s, batch, fate).value.ledger, n)
  {
    BatchIsAtomic(s, batch, fate);
    AppendAlike(s.ledger, m, batch);
    var t := AppendBatch(s, batch, fate).value.ledger;
    if Append(m, batch).Ok? { AppendOk(m, batch); }
    if Lands(fate) && Append(m, batch).Ok? {
      SameTransitive(t, Append(s.ledger, batch).value, Append(m, batch).value);
    } else {
      SameTransitive(t, s.ledger, m);
    }
  }

  /**
   After any run of batches, each with any fate, and restarts: the file opens, it holds the open ledger, and
   that ledger answers and numbers as if the batches that landed, and no others, had been appended in memory.
   */
  lemma {:induction false} RunIsLanded(s: System, turns: seq<Turn>)
    requires SystemFit(s)
    ensures Turns(s, turns).Ok? && SystemFit(Turns(s, turns).value)
    ensures LedgerFit(Landed(s.ledger, turns)) && SameLedger(Turns(s, turns).value.ledger, Landed(s.ledger, turns))
    decreases |turns|
  {
    if turns != [] {
      var init := turns[..|turns| - 1];
      RunIsLanded(s, init);
      var t, m := Turns(s, init).value, Landed(s.ledger, init);
      match turns[|turns| - 1]
      case Batch(batch, fate) => BatchFollows(t, m, batch, fate);
      case Restart =>
        ReopenFits(t);
        SameTransitive(Reopen(t).value.ledger, t.ledger, m);
    }
  }

  /** In particular from any file that opens, whoever wrote it and whatever gaps its numbers have. */
  lemma OpenedRuns(file: seq<Raw>, turns: seq<Turn>)
    requires Open(file).Ok?
    ensures var l := Open(file).value; var r := Turns(System(file, l), turns);
      && r.Ok? && SystemFit(r.value) && SameLedger(r.value.ledger, Landed(l, turns))
      && (LedgerOk(l) ==> LedgerOk(r.value.ledger))
  {
    var l := Open(file).value;
    OpenedFits(file);
    RunIsLanded(System(file, l), turns);
    if LedgerOk(l) {
      LandedKeepsOk(l, turns);
      SameGaps(Landed(l, turns), Turns(System(file, l), turns).value.ledger);
    }
  }

  lemma {:induction false} LandedKeepsOk(l: Ledger, turns: seq<Turn>)
    requires LedgerOk(l)
    ensures LedgerOk(Landed(l, turns))
    decreases |turns|
  {
    if turns != [] {
      var init := turns[..|turns| - 1];
      LandedKeepsOk(l, init);
      OkIsFit(Landed(l, init));
      match turns[|turns| - 1]
      case Batch(batch, fate) =>
        if Append(Landed(l, init), batch).Ok? { AppendOk(Landed(l, init), batch); }
      case Restart =>
    }
  }

  // ----- numbers within a batch -----

  lemma FirstNumber(l: Ledger, batch: seq<Raw>) returns (next: Ledger)
    requires LedgerFit(l) && Append(l, batch).Ok? && batch != []
    ensures LedgerFit(next) && Append(next, batch[1..]) == Append(l, batch)
    ensures next.records == l.records + [Number(batch[0], LastIn(l.records, batch[0].workspace) + 1)]
  {
    var r := Number(batch[0], Last(l.next, batch[0].workspace) + 1);
    next := Ledger(l.records + [r], l.next[r.workspace := r.sequence]);
    assert Fitted(l, batch[0].workspace);
    AppendHead(l, batch, r, next);
    SnocFit(l, r);
  }

  /** The record at `n` carries the number after the last of its workspace before it. */
  predicate NumberedNext(records: seq<Stored>, n: nat, raw: Raw) {
    n < |records| && records[n] == Number(raw, LastIn(records[..n], raw.workspace) + 1)
  }

  lemma FirstOf(before: seq<Stored>, raw: Raw, records: seq<Stored>)
    requires before + [Number(raw, LastIn(before, raw.workspace) + 1)] <= records
    ensures NumberedNext(records, |before|, raw)
  {
    assert records[..|before|] == before;
  }

  /**
   A batch is refused as a whole, or every record of it gets the number after the last of its workspace: new
   records leave no gap, whatever gaps the file had.
   */
  lemma {:induction false} BatchNumbers(l: Ledger, batch: seq<Raw>, i: nat)
    requires LedgerFit(l) && Append(l, batch).Ok? && i < |batch|
    ensures |Append(l, batch).value.records| == |l.records| + |batch|
    ensures NumberedNext(Append(l, batch).value.records, |l.records| + i, batch[i])
    decreases |batch|
  {
    var next := FirstNumber(l, batch);
    AppendOk(next, batch[1..]);
    if i == 0 {
      FirstOf(l.records, batch[0], Append(l, batch).value.records);
    } else {
      BatchNumbers(next, batch[1..], i - 1);
    }
  }

  /** Without gaps that is one more than the workspace has records. */
  lemma NumberIsCount(l: Ledger, n: nat)
    requires LedgerOk(l) && n < |l.records|
    ensures l.records[n].sequence == |Filter(l.records[..n], In(l.records[n].workspace))| + 1
  {
    var r := l.records[n];
    var w := r.workspace;
    assert l.records == l.records[..n] + [r] + l.records[n + 1..];
    FilterAppend(l.records[..n] + [r], l.records[n + 1..], In(w));
    FilterSnoc(l.records[..n], r, w);
    assert Counted(l, w);
    assert Filter(l.records, In(w))[|Filter(l.records[..n], In(w))|] == r;
  }

  // ----- what is accepted, and as what -----

  ghost predicate Uses(records: seq<Stored>, id: int) {
    exists r :: r in records && r.id == id
  }

  /** The same record under a sequence. */
  ghost predicate Keeps(raw: Raw, r: Stored) {
    r.id == raw.id && r.workspace == raw.workspace && r.topic == raw.topic && r.at == raw.at
  }

  /** A record of the file is taken if its number, given or the next one, is positive and rises and its id is new. */
  ghost predicate Admits(l: Ledger, raw: Raw, r: Result<Ledger, StoreError>) {
    var previous := if raw.workspace in l.next then l.next[raw.workspace] else 0;
    var number := if raw.sequence.Some? then raw.sequence.value else previous + 1;
    match r
    case Ok(m) =>
      && number > previous && number >= 1 && !Uses(l.records, raw.id)
      && |m.records| == |l.records| + 1 && m.records[..|l.records|] == l.records
      && Keeps(raw, m.records[|l.records|]) && m.records[|l.records|].sequence == number
      && m.next == l.next[raw.workspace := number]
    case Err(InvalidSequence(id)) => id == raw.id && (number <= previous || number < 1)
    case Err(DuplicateRecord(id)) => id == raw.id && Uses(l.records, id)
    case Err(_) => false
  }

  lemma UsesIff(records: seq<Stored>, id: int)
    ensures HasId(records, id) <==> Uses(records, id)
  {
    if i :| 0 <= i < |records| && records[i].id == id { assert records[i] in records; }
  }

  lemma AdmitMeans(l: Ledger, raw: Raw)
    ensures Admits(l, raw, OpenRecord(l, raw))
  {
    UsesIff(l.records, raw.id);
  }

  /** What opens holds every record of the file, under its own number if it has one. */
  lemma {:induction false} OpenedHolds(file: seq<Raw>)
    requires Open(file).Ok?
    ensures var records := Open(file).value.records;
      && |records| == |file|
      && forall i :: 0 <= i < |file| ==>
           Keeps(file[i], records[i]) && (file[i].sequence.Some? ==> records[i].sequence == file[i].sequence.value)
    decreases |file|
  {
    if file != [] { OpenedHolds(file[..|file| - 1]); }
  }

  /** A batch is acceptable if no record comes with a number and none has an id in use or used twice. */
  ghost predicate Acceptable(l: Ledger, batch: seq<Raw>) {
    && (forall r :: r in batch ==> r.sequence == None)
    && NoneUsed(l.records, batch)
    && forall i, j :: 0 <= i < j < |batch| ==> batch[i].id != batch[j].id
  }

  /** Accepted, all of the batch follows what was there; refused, the error is the case. */
  ghost predicate Appends(l: Ledger, batch: seq<Raw>, r: Result<Ledger, StoreError>) {
    match r
    case Ok(m) =>
      && Acceptable(l, batch)
      && |m.records| == |l.records| + |batch| && m.records[..|l.records|] == l.records
      && forall i :: 0 <= i < |batch| ==> Keeps(batch[i], m.records[|l.records| + i])
    case Err(SequenceGiven(id)) => exists r :: r in batch && r.id == id && r.sequence.Some?
    case Err(DuplicateRecord(id)) =>
      || (exists r :: r in batch && r.id == id && Uses(l.records, id))
      || exists i, j :: 0 <= i < j < |batch| && batch[i].id == id && batch[j].id == id
    case Err(_) => false
  }

  lemma {:induction false} AssignMeans(next: map<int, int>, batch: seq<Raw>)
    ensures match Assign(next, batch)
      case Ok(stored) =>
        && (forall r :: r in batch ==> r.sequence == None)
        && |stored| == |batch| && forall i :: 0 <= i < |batch| ==> Keeps(batch[i], stored[i])
      case Err(SequenceGiven(id)) => exists r :: r in batch && r.id == id && r.sequence.Some?
      case Err(_) => false
    decreases |batch|
  {
    if batch != [] {
      assert batch[0] in batch;
      AssignMeans(next[batch[0].workspace := Last(next, batch[0].workspace) + 1], batch[1..]);
      assert forall r :: r in batch <==> r == batch[0] || r in batch[1..];
    }
  }

  /** The id of a record that is there already or comes twice, if there is one. */
  lemma {:induction false} DuplicateMeans(records: seq<Stored>, stored: seq<Stored>)
    ensures match Duplicate(records, stored)
      case None => (forall r :: r in stored ==> !Uses(records, r.id)) && DistinctIds(stored)
      case Some(id) =>
        || (exists r :: r in stored && r.id == id && Uses(records, id))
        || exists i, j :: 0 <= i < j < |stored| && stored[i].id == id && stored[j].id == id
    decreases |stored|
  {
    if stored != [] {
      var head, rest := stored[0], stored[1..];
      assert head in stored;
      UsesIff(records, head.id);
      if !HasId(records, head.id) {
        DuplicateMeans(records + [head], rest);
        DuplicateRest(records, stored);
      }
    }
  }

  lemma UsesSnoc(records: seq<Stored>, head: Stored, id: int)
    ensures Uses(records + [head], id) <==> Uses(records, id) || head.id == id
  {
    if Uses(records, id) {
      var r :| r in records && r.id == id;
      assert r in records + [head];
    }
    if head.id == id { assert head in records + [head]; }
  }

  lemma DuplicateRest(records: seq<Stored>, stored: seq<Stored>)
    requires stored != [] && !Uses(records, stored[0].id)
    requires match Duplicate(records + [stored[0]], stored[1..])
      case None => (forall r :: r in stored[1..] ==> !Uses(records + [stored[0]], r.id)) && DistinctIds(stored[1..])
      case Some(id) =>
        || (exists r :: r in stored[1..] && r.id == id && Uses(records + [stored[0]], id))
        || exists i, j :: 0 <= i < j < |stored[1..]| && stored[1..][i].id == id && stored[1..][j].id == id
    ensures match Duplicate(records + [stored[0]], stored[1..])
      case None => (forall r :: r in stored ==> !Uses(records, r.id)) && DistinctIds(stored)
      case Some(id) =>
        || (exists r :: r in stored && r.id == id && Uses(records, id))
        || exists i, j :: 0 <= i < j < |stored| && stored[i].id == id && stored[j].id == id
  {
    var head, rest := stored[0], stored[1..];
    forall id { UsesSnoc(records, head, id); }
    match Duplicate(records + [head], rest)
    case None =>
      forall r | r in stored ensures !Uses(records, r.id) { UsesSnoc(records, head, r.id); }
      forall i, j | 0 <= i < j < |stored| ensures stored[i].id != stored[j].id {
        assert stored[j] == rest[j - 1] && stored[j] in rest;
        UsesSnoc(records, head, stored[j].id);
        if i > 0 { assert stored[i] == rest[i - 1]; }
      }
    case Some(id) =>
      if i, j :| 0 <= i < j < |rest| && rest[i].id == id && rest[j].id == id {
        assert stored[i + 1] == rest[i] && stored[j + 1] == rest[j];
      } else {
        var r :| r in rest && r.id == id && Uses(records + [head], id);
        UsesSnoc(records, head, id);
        var k :| 0 <= k < |rest| && rest[k] == r;
        assert stored[k + 1] == r && r in stored;
      }
  }

  /** An appended batch is taken if and only if it is acceptable. */
  lemma AppendMeans(l: Ledger, batch: seq<Raw>)
    ensures Appends(l, batch, Append(l, batch))
    ensures Append(l, batch).Ok? <==> Acceptable(l, batch)
  {
    AssignMeans(l.next, batch);
    if Assign(l.next, batch).Ok? {
      var stored := Assign(l.next, batch).value;
      DuplicateMeans(l.records, stored);
      SameUses(l.records, batch, stored);
      var id := Duplicate(l.records, stored);
      if id.Some? && exists r :: r in stored && r.id == id.value && Uses(l.records, id.value) {
        var r :| r in stored && r.id == id.value && Uses(l.records, id.value);
        var b := FromStored(batch, stored, r);
      }
    }
  }

  ghost predicate SameIdAt(batch: seq<Raw>, stored: seq<Stored>) {
    |stored| == |batch| && forall i :: 0 <= i < |batch| ==> batch[i].id == stored[i].id
  }

  ghost predicate NoneUsed(records: seq<Stored>, batch: seq<Raw>) {
    forall r :: r in batch ==> !Uses(records, r.id)
  }

  lemma FromStored(batch: seq<Raw>, stored: seq<Stored>, r: Stored) returns (b: Raw)
    requires SameIdAt(batch, stored) && r in stored
    ensures b in batch && b.id == r.id
  {
    var i :| 0 <= i < |stored| && stored[i] == r;
    b := batch[i];
  }

  lemma ToStored(batch: seq<Raw>, stored: seq<Stored>, b: Raw) returns (r: Stored)
    requires SameIdAt(batch, stored) && b in batch
    ensures r in stored && b.id == r.id
  {
    var i :| 0 <= i < |batch| && batch[i] == b;
    r := stored[i];
  }

  lemma SameUses(records: seq<Stored>, batch: seq<Raw>, stored: seq<Stored>)
    requires SameIdAt(batch, stored)
    ensures NoneUsed(records, batch) <==> forall r :: r in stored ==> !Uses(records, r.id)
  {
    if NoneUsed(records, batch) {
      forall r | r in stored ensures !Uses(records, r.id) { var b := FromStored(batch, stored, r); }
    }
    if forall r :: r in stored ==> !Uses(records, r.id) {
      forall b | b in batch ensures !Uses(records, b.id) { var r := ToStored(batch, stored, b); }
    }
  }

  /** A query lists the records, each once, by workspace and sequence. */
  lemma QueryLists(l: Ledger)
    ensures multiset(Query(l)) == multiset(l.records)
    ensures forall i, j :: 0 <= i < j < |Query(l)| ==>
      Query(l)[i].workspace < Query(l)[j].workspace ||
      (Query(l)[i].workspace == Query(l)[j].workspace && Query(l)[i].sequence <= Query(l)[j].sequence)
  {
    SortPermutes(l.records, ByScope);
    SortSorts(l.records, ByScope);
    forall i, j | 0 <= i < j < |Query(l)|
      ensures Query(l)[i].workspace < Query(l)[j].workspace ||
              (Query(l)[i].workspace == Query(l)[j].workspace && Query(l)[i].sequence <= Query(l)[j].sequence)
    {
      assert ByScope(Query(l)[i], Query(l)[j]);
    }
  }

  // ----- the ledger object -----

  class File {
    var content: seq<Raw>

    constructor ()
      ensures content == []
    {
      content := [];
    }
  }

  class LocalCanonicalLedger {
    const file: File
    var records: seq<Stored>
    var next: map<int, int>

    function State(): Ledger
      reads this
    {
      Ledger(records, next)
    }

    /** The empty ledger that opening starts from. */
    constructor (file: File)
      ensures this.file == file && State() == NOTHING
    {
      this.file := file;
      records, next := [], map[];
    }

    method Admit(raw: Raw) returns (thrown: Option<StoreError>)
      modifies this
      ensures match OpenRecord(old(State()), raw)
        case Ok(l) => thrown == None && State() == l
        case Err(e) => thrown == Some(e) && State() == old(State())
      ensures Admits(old(State()), raw, if thrown == None then Ok(State()) else Err(thrown.value))
    {
      AdmitMeans(State(), raw);
      var previous := Last(next, raw.workspace);
      var sequence := if raw.sequence.Some? then raw.sequence.value else previous + 1;
      if sequence < 1 || sequence <= previous { return Some(InvalidSequence(raw.id)); }
      if HasId(records, raw.id) { return Some(DuplicateRecord(raw.id)); }
      records := records + [Number(raw, sequence)];
      next := next[raw.workspace := sequence];
      return None;
    }

    /** Reads the file's records one by one; the first invalid one ends it. */
    static method OpenFile(file: File) returns (ledger: LocalCanonicalLedger, thrown: Option<StoreError>)
      ensures fresh(ledger) && ledger.file == file
      ensures match Open(file.content)
        case Ok(l) => thrown == None && ledger.State() == l
        case Err(e) => thrown == Some(e)
      ensures thrown == None ==>
        && |ledger.records| == |file.content|
        && forall i :: 0 <= i < |file.content| ==>
             Keeps(file.content[i], ledger.records[i]) &&
             (file.content[i].sequence.Some? ==> ledger.records[i].sequence == file.content[i].sequence.value)
    {
      ledger := new LocalCanonicalLedger(file);
      thrown := None;
      var content := file.content;
      for i := 0 to |content|
        invariant fresh(ledger) && ledger.file == file && thrown == None && file.content == content
        invariant Open(content[..i]) == Ok(ledger.State())
      {
        assert content[..i + 1][..i] == content[..i];
        thrown := ledger.Admit(content[i]);
        if thrown.Some? {
          OpenStops(content, i + 1);
          return;
        }
      }
      assert content[..|content|] == content;
      OpenedHolds(content);
    }

    method AssignSequences(batch: seq<Raw>) returns (r: Result<seq<Stored>, StoreError>, nextSequences: map<int, int>)
      ensures r == Assign(next, batch)
      ensures r.Ok? ==> nextSequences == Advance(next, r.value)
    {
      nextSequences := next;
      var stored: seq<Stored> := [];
      assert batch[0..] == batch;
      PrependNothing(Assign(next, batch));
      for i := 0 to |batch|
        invariant Assign(next, batch) == Prepend(stored, Assign(nextSequences, batch[i..]))
        invariant nextSequences == Advance(next, stored)
      {
        var raw := batch[i];
        if raw.sequence.Some? { return Err(SequenceGiven(raw.id)), nextSequences; }
        var sequence := Last(nextSequences, raw.workspace) + 1;
        var record := Number(raw, sequence);
        assert batch[i..][1..] == batch[i + 1..];
        AdvanceSnoc(next, stored, record);
        PrependSnoc(stored, record, Assign(nextSequences[raw.workspace := sequence], batch[i + 1..]));
        nextSequences := nextSequences[raw.workspace := sequence];
        stored := stored + [record];
      }
      assert stored + [] == stored;
      return Ok(stored), nextSequences;
    }

    method CheckIds(stored: seq<Stored>) returns (duplicate: Option<int>)
      ensures duplicate == Duplicate(records, stored)
    {
      var seen := records;
      assert stored[0..] == stored;
      for i := 0 to |stored|
        invariant Duplicate(records, stored) == Duplicate(seen, stored[i..])
      {
        assert stored[i..][1..] == stored[i + 1..];
        if HasId(seen, stored[i].id) { return Some(stored[i].id); }
        seen := seen + [stored[i]];
      }
      return None;
    }

    /** One turn of the write queue. A crash leaves this object behind: only the file says what was written. */
    method AppendRecords(batch: seq<Raw>, fate: Fate) returns (thrown: Option<StoreError>)
      modifies this, file
      ensures match Append(old(State()), batch)
        case Err(e) => thrown == Some(e) && State() == old(State()) && file.content == old(file.content)
        case Ok(l) =>
          && thrown == None
          && State() == (if fate.Completes? then l else old(State()))
          && file.content == (if batch != [] && (fate.Completes? || fate.CrashesAfter?) then FileOf(l) else old(file.content))
      ensures thrown == None <==> Acceptable(old(State()), batch)
      ensures thrown.Some? || fate.Completes? ==>
        Appends(old(State()), batch, if thrown == None then Ok(State()) else Err(thrown.value))
    {
      AppendMeans(State(), batch);
      var numbered, nextSequences := AssignSequences(batch);
      if numbered.Err? { return Some(numbered.error); }
      var stored := numbered.value;
      var duplicate := CheckIds(stored);
      if duplicate.Some? { return Some(DuplicateRecord(duplicate.value)); }
      thrown := None;
      AssignedLength(next, batch);
      if stored == [] {
        assert records + [] == records;
        return;
      }
      if fate.Completes? || fate.CrashesAfter? {
        file.content := MapSeq(SortBy(records + stored, ByScope), Saved);
      }
      if fate.Completes? {
        records := records + stored;
        next := nextSequences;
      }
    }
  }

  function Prepend(stored: seq<Stored>, r: Result<seq<Stored>, StoreError>): Result<seq<Stored>, StoreError> {
    match r case Err(e) => Err(e) case Ok(rest) => Ok(stored + rest)
  }

  lemma PrependNothing(r: Result<seq<Stored>, StoreError>)
    ensures Prepend([], r) == r
  {
    if r.Ok? { assert [] + r.value == r.value; }
  }

  lemma PrependSnoc(stored: seq<Stored>, record: Stored, r: Result<seq<Stored>, StoreError>)
    ensures Prepend(stored, Prepend([record], r)) == Prepend(stored + [record], r)
  {
    if r.Ok? { assert stored + ([record] + r.value) == stored + [record] + r.value; }
  }

  lemma {:induction false} AdvanceSnoc(next: map<int, int>, stored: seq<Stored>, record: Stored)
    ensures Advance(next, stored + [record]) == Advance(next, stored)[record.workspace := record.sequence]
    decreases |stored|
  {
    if stored == [] {
      assert [record][1..] == [];
    } else {
      assert (stored + [record])[1..] == stored[1..] + [record];
      AdvanceSnoc(next[stored[0].workspace := stored[0].sequence], stored[1..], record);
    }
  }

  lemma {:induction false} AssignedLength(next: map<int, int>, batch: seq<Raw>)
    ensures Assign(next, batch).Ok? ==> |Assign(next, batch).value| == |batch|
    decreases |batch|
  {
    if batch != [] { AssignedLength(next[batch[0].workspace := Last(next, batch[0].workspace) + 1], batch[1..]); }
  }

  lemma {:induction false} OpenStops(file: seq<Raw>, k: nat)
    requires k <= |file| && Open(file[..k]).Err?
    ensures Open(file) == Open(file[..k])
    decreases |file|
  {
    if k == |file| {
      assert file[..k] == file;
    } else {
      assert file[..|file| - 1][..k] == file[..k];
      OpenStops(file[..|file| - 1], k);
    }
  }
}
