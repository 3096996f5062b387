/**
 packages/event-bus: durable publication and consumption with a cursor per subscription. The cursor is
 committed after each handled event, so a crash or failure in between delivers that event again.

 A run interleaves publications, consumptions of different subscriptions and crashes in any order.
 */
module EventBus {
  import opened Wrappers
  import opened Collections
  import opened Sorting
  import opened Replay
  import opened Storage

  /** Commits write sequences; an event id is how older files wrote a cursor. */
  datatype Cursor = Sequence(n: int) | EventId(id: int)

  /**
   One `consume` call: the deliveries it set out with, the next one, and whether that one's handler returned.
   `through` is history: the last number of each workspace when the call began.
   */
  datatype Running = Running(items: seq<Stored>, at: nat, handled: bool, through: map<int, int>)

  /** `delivered` records every handler call of a subscription. */
  datatype Bus = Bus(
    topics: map<int, seq<string>>, store: System, cursorFile: map<int, Cursor>, cursors: map<int, Cursor>,
    running: map<int, Running>, delivered: map<int, seq<Stored>>)

  datatype BusError = NotEnabled | InvalidCursor | OtherScope | Unreadable

  datatype Event =
    | Publish(raw: Raw, fate: Fate)
    | Start(sub: int)
    | Deliver(sub: int, returns': bool)
    | Commit(sub: int, fate: Fate)
    | Finish(sub: int)
    | Crash

  // ----- pending deliveries -----

  predicate StartsWithAny(prefixes: seq<string>, topic: string) {
    exists i :: 0 <= i < |prefixes| && prefixes[i] <= topic
  }

  function Matches(prefixes: seq<string>): Stored -> bool {
    (r: Stored) => StartsWithAny(prefixes, r.topic)
  }

  function Beyond(n: int): Stored -> bool {
    (r: Stored) => r.sequence > n
  }

  function AtMost(n: int): Stored -> bool {
    (r: Stored) => r.sequence <= n
  }

  function SequenceOf(all: seq<Stored>, id: int): Option<int> {
    if all == [] then None else if all[0].id == id then Some(all[0].sequence) else SequenceOf(all[1..], id)
  }

  function AfterSequence(all: seq<Stored>, cursor: Option<Cursor>): Result<int, BusError> {
    match cursor
    case None => Ok(0)
    case Some(Sequence(n)) => if n < 0 then Err(InvalidCursor) else Ok(n)
    case Some(EventId(id)) =>
      match SequenceOf(all, id)
      case None => Err(InvalidCursor)
      case Some(n) => if n < 0 then Err(InvalidCursor) else Ok(n)
  }

  function Pending(all: seq<Stored>, cursor: Option<Cursor>, prefixes: seq<string>): Result<seq<Stored>, BusError> {
    match AfterSequence(all, cursor)
    case Err(e) => Err(e)
    case Ok(n) => Ok(Filter(Filter(all, Beyond(n)), Matches(prefixes)))
  }

  // ----- what is pending -----

  /** The topic begins with one of the prefixes. */
  ghost predicate Wants(prefixes: seq<string>, e: Stored) {
    exists p :: p in prefixes && |p| <= |e.topic| && forall i :: 0 <= i < |p| ==> e.topic[i] == p[i]
  }

  /** The sequence that a cursor stands for: none yet, a number, or that of the first event with the id it names. */
  ghost predicate PointsAt(l: Ledger, cursor: Option<Cursor>, n: int) {
    n >= 0 &&
    match cursor
    case None => n == 0
    case Some(Sequence(k)) => n == k
    case Some(EventId(id)) =>
      exists e :: FirstNamed(l, id, e) && e.sequence == n
  }

  ghost predicate AllBeyond(l: Ledger, prefixes: seq<string>, n: int, items: seq<Stored>) {
    forall e :: e in items <==> e in l.records && Wants(prefixes, e) && e.sequence > n
  }

  ghost predicate InScopeOrder(items: seq<Stored>) {
    forall i, j :: 0 <= i < j < |items| ==>
      items[i].workspace < items[j].workspace || (items[i].workspace == items[j].workspace && items[i].sequence <= items[j].sequence)
  }

  /** The wanted events beyond the cursor, by workspace and sequence, or an error if the cursor points nowhere. */
  ghost predicate Sends(l: Ledger, cursor: Option<Cursor>, prefixes: seq<string>, r: Result<seq<Stored>, BusError>) {
    match r
    case Err(e) => e == InvalidCursor && forall n :: !PointsAt(l, cursor, n)
    case Ok(items) =>
      && (exists n :: PointsAt(l, cursor, n) && AllBeyond(l, prefixes, n, items))
      && InScopeOrder(items)
  }

  lemma MatchesIff(prefixes: seq<string>, e: Stored)
    ensures Matches(prefixes)(e) <==> Wants(prefixes, e)
  {
    if StartsWithAny(prefixes, e.topic) {
      var i :| 0 <= i < |prefixes| && prefixes[i] <= e.topic;
      assert prefixes[i] in prefixes;
    }
    if Wants(prefixes, e) {
      var p :| p in prefixes && |p| <= |e.topic| && forall i :: 0 <= i < |p| ==> e.topic[i] == p[i];
      assert p <= e.topic;
      var i :| 0 <= i < |prefixes| && prefixes[i] == p;
    }
  }

  lemma {:induction false} SequenceOfIs(all: seq<Stored>, id: int)
    ensures match SequenceOf(all, id)
      case None => forall e :: e in all ==> e.id != id
      case Some(n) => exists i :: 0 <= i < |all| && all[i].id == id && all[i].sequence == n && forall j :: 0 <= j < i ==> all[j].id != id
    decreases |all|
  {
    if all != [] {
      SequenceOfIs(all[1..], id);
      if all[0].id == id {
        assert all[0].sequence == SequenceOf(all, id).value;
      } else if SequenceOf(all, id).Some? {
        var i :| 0 <= i < |all[1..]| && all[1..][i].id == id && all[1..][i].sequence == SequenceOf(all, id).value &&
          forall j :: 0 <= j < i ==> all[1..][j].id != id;
        assert all[i + 1] == all[1..][i];
        assert forall j :: 0 < j < i + 1 ==> all[j] == all[1..][j - 1];
      }
    }
  }

  /** The first record with the id, by workspace and sequence. */
  ghost predicate FirstNamed(l: Ledger, id: int, e: Stored) {
    && e in l.records && e.id == id
    && forall f :: f in l.records && f.id == id ==> e.workspace < f.workspace || (e.workspace == f.workspace && e.sequence <= f.sequence)
  }

  lemma NoneBefore(l: Ledger, id: int, i: nat, f: Stored)
    requires i < |Query(l)| && (forall j :: 0 <= j < i ==> Query(l)[j].id != id) && f in l.records && f.id == id
    ensures var e := Query(l)[i]; e.workspace < f.workspace || (e.workspace == f.workspace && e.sequence <= f.sequence)
  {
    SortElements(l.records, ByScope);
    assert f in Query(l);
    var j :| 0 <= j < |Query(l)| && Query(l)[j] == f;
    SortSorts(l.records, ByScope);
    assert i == j || ByScope(Query(l)[i], Query(l)[j]);
  }

  lemma FirstInQuery(l: Ledger, id: int) returns (e: Option<Stored>)
    ensures match e
      case None => SequenceOf(Query(l), id) == None && forall f :: f in l.records ==> f.id != id
      case Some(e) => SequenceOf(Query(l), id) == Some(e.sequence) && FirstNamed(l, id, e)
  {
    var all := Query(l);
    SequenceOfIs(all, id);
    e := None;
    if SequenceOf(all, id).Some? {
      var n := SequenceOf(all, id).value;
      var i :| 0 <= i < |all| && all[i].id == id && all[i].sequence == n && forall j :: 0 <= j < i ==> all[j].id != id;
      e := Some(all[i]);
      QueryMember(l, i);
      forall f | f in l.records && f.id == id
        ensures all[i].workspace < f.workspace || (all[i].workspace == f.workspace && all[i].sequence <= f.sequence)
      {
        NoneBefore(l, id, i, f);
      }
    } else {
      SortElements(l.records, ByScope);
    }
  }

  lemma QueryMember(l: Ledger, i: nat)
    requires i < |Query(l)|
    ensures Query(l)[i] in l.records
  {
    SortElements(l.records, ByScope);
    assert Query(l)[i] in Query(l);
  }

  lemma CursorMeans(l: Ledger, cursor: Option<Cursor>)
    ensures match AfterSequence(Query(l), cursor)
      case Ok(n) => PointsAt(l, cursor, n)
      case Err(e) => e == InvalidCursor && forall n :: !PointsAt(l, cursor, n)
  {
    if cursor.Some? && cursor.value.EventId? {
      var e := FirstInQuery(l, cursor.value.id);
      forall f | e.Some? && FirstNamed(l, cursor.value.id, f) ensures f.sequence == e.value.sequence {}
    }
  }

  lemma QueryRises(l: Ledger, p: Stored -> bool, q: Stored -> bool)
    ensures InScopeOrder(Filter(Filter(Query(l), p), q))
  {
    var items := Filter(Filter(Query(l), p), q);
    SortSorts(l.records, ByScope);
    FilterSorted(Query(l), p, ByScope);
    FilterSorted(Filter(Query(l), p), q, ByScope);
    forall i, j | 0 <= i < j < |items|
      ensures items[i].workspace < items[j].workspace || (items[i].workspace == items[j].workspace && items[i].sequence <= items[j].sequence)
    {
      assert ByScope(items[i], items[j]);
    }
  }

  /** No event is pending twice. */
  lemma PendingDistinct(l: Ledger, cursor: Option<Cursor>, prefixes: seq<string>)
    requires Distinct(l.records) && Pending(Query(l), cursor, prefixes).Ok?
    ensures Distinct(Pending(Query(l), cursor, prefixes).value)
  {
    var n := AfterSequence(Query(l), cursor).value;
    SortPermutes(l.records, ByScope);
    MultisetDistinct(l.records, Query(l));
    FilterDistinct(Query(l), Beyond(n));
    FilterDistinct(Filter(Query(l), Beyond(n)), Matches(prefixes));
  }

  lemma BeyondMembers(l: Ledger, prefixes: seq<string>, n: int)
    ensures AllBeyond(l, prefixes, n, Filter(Filter(Query(l), Beyond(n)), Matches(prefixes)))
  {
    var items := Filter(Filter(Query(l), Beyond(n)), Matches(prefixes));
    SortElements(l.records, ByScope);
    forall e ensures e in items <==> e in l.records && Wants(prefixes, e) && e.sequence > n {
      FilterMember(Filter(Query(l), Beyond(n)), Matches(prefixes), e);
      FilterMember(Query(l), Beyond(n), e);
      MatchesIff(prefixes, e);
    }
  }

  /** What `pending` answers. */
  lemma PendingMeans(l: Ledger, cursor: Option<Cursor>, prefixes: seq<string>)
    ensures Sends(l, cursor, prefixes, Pending(Query(l), cursor, prefixes))
  {
    CursorMeans(l, cursor);
    var after := AfterSequence(Query(l), cursor);
    if after.Ok? {
      QueryRises(l, Beyond(after.value), Matches(prefixes));
      BeyondMembers(l, prefixes, after.value);
    }
  }

  // ----- steps -----

  function CursorOf(b: Bus, sub: int): Option<Cursor> {
    if sub in b.cursors then Some(b.cursors[sub]) else None
  }

  function Deliveries(b: Bus, sub: int): seq<Stored> {
    if sub in b.delivered then b.delivered[sub] else []
  }

  function Restart(b: Bus, store: System): Bus {
    b.(store := store, cursors := b.cursorFile, running := map[])
  }

  function CrashBus(b: Bus): Result<Bus, BusError> {
    match Reopen(b.store)
    case Err(_) => Err(Unreadable)
    case Ok(store) => Ok(Restart(b, store))
  }

  function PublishEvent(b: Bus, raw: Raw, fate: Fate): Result<Bus, BusError> {
    match AppendBatch(b.store, [raw], fate)
    case Err(_) => Err(Unreadable)
    case Ok(store) => Ok(if fate.CrashesBefore? || fate.CrashesAfter? then Restart(b, store) else b.(store := store))
  }

  function StartConsume(b: Bus, sub: int): Result<Bus, BusError> {
    if sub !in b.topics || sub in b.running then Err(NotEnabled)
    else match Pending(Query(b.store.ledger), CursorOf(b, sub), b.topics[sub])
      case Err(e) => Ok(b)
      case Ok(items) => Ok(b.(running := b.running[sub := Running(items, 0, false, b.store.ledger.next)]))
  }

  function DeliverNext(b: Bus, sub: int, returns': bool): Result<Bus, BusError> {
    if sub !in b.running || b.running[sub].handled || b.running[sub].at >= |b.running[sub].items| then Err(NotEnabled)
    else
      var c := b.running[sub];
      Ok(b.(delivered := b.delivered[sub := Deliveries(b, sub) + [c.items[c.at]]],
            running := if returns' then b.running[sub := c.(handled := true)] else b.running - {sub}))
  }

  function CommitCursor(b: Bus, sub: int, fate: Fate): Result<Bus, BusError> {
    if sub !in b.running || !b.running[sub].handled || b.running[sub].at >= |b.running[sub].items| then Err(NotEnabled)
    else
      var c := b.running[sub];
      var next := b.cursors[sub := Sequence(c.items[c.at].sequence)];
      match fate
      case Completes => Ok(b.(cursorFile := next, cursors := next, running := b.running[sub := c.(at := c.at + 1, handled := false)]))
      case WriteFails => Ok(b.(running := b.running - {sub}))
      case CrashesBefore => CrashBus(b)
      case CrashesAfter => CrashBus(b.(cursorFile := next))
  }

  function FinishConsume(b: Bus, sub: int): Result<Bus, BusError> {
    if sub !in b.running || b.running[sub].at < |b.running[sub].items| then Err(NotEnabled)
    else Ok(b.(running := b.running - {sub}))
  }

  function Step(b: Bus, ev: Event): Result<Bus, BusError> {
    match ev
    case Publish(raw, fate) => PublishEvent(b, raw, fate)
    case Start(sub) => StartConsume(b, sub)
    case Deliver(sub, returns') => DeliverNext(b, sub, returns')
    case Commit(sub, fate) => CommitCursor(b, sub, fate)
    case Finish(sub) => FinishConsume(b, sub)
    case Crash => CrashBus(b)
  }

  /** Steps in which no event is published that subscription `sub` wants and that is not of the workspace. */
  function StepIn(workspace: int, sub: int): (Bus, Event) -> Result<Bus, BusError> {
    (b: Bus, ev: Event) =>
      if ev.Publish? && ev.raw.workspace != workspace && StartsWithAny(Prefixes(b, sub), ev.raw.topic) then Err(OtherScope)
      else Step(b, ev)
  }

  function Prefixes(b: Bus, sub: int): seq<string> {
    if sub in b.topics then b.topics[sub] else []
  }

  function NewBus(topics: map<int, seq<string>>): Bus {
    Bus(topics, System([], NOTHING), map[], map[], map[], map[])
  }

  // ----- deliveries without their repetitions -----

  function Dedup(s: seq<Stored>): seq<Stored> {
    if s == [] then [] else
      var init := Dedup(s[..|s| - 1]);
      if |s| > 1 && s[|s| - 2] == s[|s| - 1] then init else init + [s[|s| - 1]]
  }

  lemma DedupSnoc(s: seq<Stored>, x: Stored)
    ensures Dedup(s + [x]) == if s != [] && s[|s| - 1] == x then Dedup(s) else Dedup(s) + [x]
  {
    assert (s + [x])[..|s|] == s;
  }

  lemma {:induction false} DedupLast(s: seq<Stored>)
    requires s != []
    ensures Dedup(s) != [] && Dedup(s)[|Dedup(s)| - 1] == s[|s| - 1]
    decreases |s|
  {
    if |s| > 1 { DedupLast(s[..|s| - 1]); }
  }

  // ----- the events of one workspace -----

  predicate BySequence(a: Stored, b: Stored) {
    a.sequence <= b.sequence
  }

  /** The records of a ledger with one workspace: numbered 1, 2, 3, ... in the order they were published. */
  ghost predicate Chronicle(records: seq<Stored>) {
    forall i :: 0 <= i < |records| ==> records[i].sequence == i + 1
  }

  function Wanted(records: seq<Stored>, prefixes: seq<string>): seq<Stored> {
    Filter(records, Matches(prefixes))
  }

  function Done(records: seq<Stored>, prefixes: seq<string>, n: int): nat {
    |Filter(Wanted(records, prefixes), AtMost(n))|
  }

  lemma {:induction false} WantedIncreases(records: seq<Stored>, prefixes: seq<string>)
    requires Chronicle(records)
    ensures var m := Wanted(records, prefixes);
      && (forall i, j :: 0 <= i < j < |m| ==> m[i].sequence < m[j].sequence)
      && forall i :: 0 <= i < |m| ==> 1 <= m[i].sequence <= |records|
    decreases |records|
  {
    if records != [] {
      var init, x := records[..|records| - 1], records[|records| - 1];
      SplitLast(records);
      WantedSnoc(init, x, prefixes);
      WantedIncreases(init, prefixes);
    }
  }

  lemma WantedSnoc(records: seq<Stored>, x: Stored, prefixes: seq<string>)
    ensures Wanted(records + [x], prefixes) == Wanted(records, prefixes) + if Matches(prefixes)(x) then [x] else []
  {
    FilterAppend(records, [x], Matches(prefixes));
    assert [x][1..] == [];
  }

  /** A cursor splits the wanted events into the ones behind it and the ones ahead of it. */
  lemma CursorSplits(records: seq<Stored>, prefixes: seq<string>, n: int)
    requires Chronicle(records)
    ensures var m, k := Wanted(records, prefixes), Done(records, prefixes, n);
      k <= |m| && (forall i :: 0 <= i < |m| ==> (m[i].sequence <= n <==> i < k)) && Filter(m, Beyond(n)) == m[k..]
  {
    var m := Wanted(records, prefixes);
    WantedIncreases(records, prefixes);
    FilterPrefix(m, AtMost(n), BySequence);
    FilterSuffix(m, AtMost(n), Beyond(n), BySequence);
  }

  lemma DoneAll(records: seq<Stored>, prefixes: seq<string>)
    requires Chronicle(records)
    ensures Done(records, prefixes, |records|) == |Wanted(records, prefixes)|
  {
    var m := Wanted(records, prefixes);
    WantedIncreases(records, prefixes);
    FilterAll(m, AtMost(|records|));
  }

  lemma PendingIsAhead(records: seq<Stored>, prefixes: seq<string>, n: nat)
    requires Chronicle(records)
    ensures var m, k := Wanted(records, prefixes), Done(records, prefixes, n);
      k <= |m| && Filter(Filter(records, Beyond(n)), Matches(prefixes)) == m[k..]
  {
    FiltersCommute(records, Beyond(n), Matches(prefixes));
    CursorSplits(records, prefixes, n);
  }

  // ----- what holds for one subscription -----

  /** A consume call as seen from one workspace. */
  datatype Consume = Consume(items: seq<Stored>, at: nat, handled: bool, through: int)

  /** The consume call has left exactly the wanted events between the cursor and where the ledger ended at its start. */
  ghost predicate ConsumeOk(records: seq<Stored>, prefixes: seq<string>, n: int, c: Consume) {
    var m := Wanted(records, prefixes);
    var k, b := Done(records, prefixes, n), Done(records, prefixes, c.through);
    && c.at <= |c.items| && n <= c.through <= |records| && k <= b <= |m|
    && c.items[c.at..] == m[k..b]
    && (c.handled ==> c.at < |c.items|)
  }

  /** The deliveries, repetitions dropped, are the wanted events behind the cursor and perhaps the one just ahead. */
  ghost predicate SubOk(records: seq<Stored>, prefixes: seq<string>, n: int, d: seq<Stored>, run: Option<Consume>) {
    var m, k := Wanted(records, prefixes), Done(records, prefixes, n);
    && 0 <= n <= |records| && k <= |m|
    && (Dedup(d) == m[..k] || (k < |m| && Dedup(d) == m[..k + 1]))
    && (run.Some? ==> ConsumeOk(records, prefixes, n, run.value))
    && (run.Some? && run.value.handled ==> k < |m| && Dedup(d) == m[..k + 1])
  }

  /** Stronger, as long as nothing failed: no delivery was repeated at all. */
  ghost predicate CleanOk(records: seq<Stored>, prefixes: seq<string>, n: int, d: seq<Stored>, run: Option<Consume>) {
    var m, k := Wanted(records, prefixes), Done(records, prefixes, n);
    && k <= |m|
    && (if run.Some? && run.value.handled then k < |m| && d == m[..k + 1] else d == m[..k])
  }

  lemma InterruptedOk(records: seq<Stored>, prefixes: seq<string>, n: int, d: seq<Stored>, run: Option<Consume>)
    requires SubOk(records, prefixes, n, d, run)
    ensures SubOk(records, prefixes, n, d, None)
  {
  }

  lemma PublishedDone(records: seq<Stored>, x: Stored, prefixes: seq<string>, n: int)
    requires Chronicle(records) && x.sequence == |records| + 1 && n <= |records|
    ensures Chronicle(records + [x])
    ensures Wanted(records, prefixes) <= Wanted(records + [x], prefixes)
    ensures Done(records + [x], prefixes, n) == Done(records, prefixes, n) <= |Wanted(records, prefixes)|
  {
    var m := Wanted(records, prefixes);
    WantedSnoc(records, x, prefixes);
    var more: seq<Stored> := if Matches(prefixes)(x) then [x] else [];
    FilterAppend(m, more, AtMost(n));
    assert more != [] ==> more[1..] == [] && !AtMost(n)(more[0]);
    assert Filter(more, AtMost(n)) == [];
    CursorSplits(records, prefixes, n);
  }

  lemma PublishKeeps(records: seq<Stored>, x: Stored, prefixes: seq<string>, n: int, d: seq<Stored>, run: Option<Consume>)
    requires Chronicle(records) && x.sequence == |records| + 1 && SubOk(records, prefixes, n, d, run)
    ensures SubOk(records + [x], prefixes, n, d, run)
    ensures CleanOk(records, prefixes, n, d, run) ==> CleanOk(records + [x], prefixes, n, d, run)
  {
    var m, m' := Wanted(records, prefixes), Wanted(records + [x], prefixes);
    var k := Done(records, prefixes, n);
    PublishedDone(records, x, prefixes, n);
    assert m'[..k] == m[..k];
    assert k < |m| ==> m'[..k + 1] == m[..k + 1];
    if run.Some? {
      var b := Done(records, prefixes, run.value.through);
      PublishedDone(records, x, prefixes, run.value.through);
      assert m'[k..b] == m[k..b];
    }
  }

  lemma WholeSlice<T>(items: seq<T>, m: seq<T>, k: nat)
    requires k <= |m| && items == m[k..]
    ensures items[0..] == m[k..|m|]
  {
  }

  lemma StartedOk(records: seq<Stored>, prefixes: seq<string>, n: nat)
    requires Chronicle(records) && n <= |records|
    ensures ConsumeOk(records, prefixes, n,
              Consume(Filter(Filter(records, Beyond(n)), Matches(prefixes)), 0, false, |records|))
  {
    PendingIsAhead(records, prefixes, n);
    DoneAll(records, prefixes);
    WholeSlice(Filter(Filter(records, Beyond(n)), Matches(prefixes)), Wanted(records, prefixes), Done(records, prefixes, n));
  }

  lemma StartKeeps(records: seq<Stored>, prefixes: seq<string>, n: nat, d: seq<Stored>, c: Consume)
    requires Chronicle(records) && SubOk(records, prefixes, n, d, None)
    requires c == Consume(Filter(Filter(records, Beyond(n)), Matches(prefixes)), 0, false, |records|)
    ensures SubOk(records, prefixes, n, d, Some(c))
    ensures CleanOk(records, prefixes, n, d, None) ==> CleanOk(records, prefixes, n, d, Some(c))
  {
    StartedOk(records, prefixes, n);
  }

  /** The next item of a consume call is the first wanted event ahead of the cursor. */
  lemma NextItem(records: seq<Stored>, prefixes: seq<string>, n: int, c: Consume)
    requires ConsumeOk(records, prefixes, n, c) && c.at < |c.items|
    ensures var m, k := Wanted(records, prefixes), Done(records, prefixes, n);
      k < Done(records, prefixes, c.through) <= |m| && c.items[c.at] == m[k]
  {
    assert c.items[c.at..][0] == c.items[c.at];
  }

  lemma DedupNext(d: seq<Stored>, m: seq<Stored>, k: nat)
    requires k < |m| && (forall i, j :: 0 <= i < j < |m| ==> m[i].sequence < m[j].sequence)
    requires Dedup(d) == m[..k] || Dedup(d) == m[..k + 1]
    ensures Dedup(d + [m[k]]) == m[..k + 1]
  {
    DedupSnoc(d, m[k]);
    if d != [] { DedupLast(d); }
    TakeNext(m, k);
  }

  lemma TakeNext<T>(m: seq<T>, k: nat)
    requires k < |m|
    ensures m[..k] + [m[k]] == m[..k + 1]
  {
  }

  lemma DeliverKeeps(records: seq<Stored>, prefixes: seq<string>, n: int, d: seq<Stored>, c: Consume)
    requires Chronicle(records) && SubOk(records, prefixes, n, d, Some(c)) && !c.handled && c.at < |c.items|
    ensures SubOk(records, prefixes, n, d + [c.items[c.at]], Some(c.(handled := true)))
    ensures CleanOk(records, prefixes, n, d, Some(c)) ==>
            CleanOk(records, prefixes, n, d + [c.items[c.at]], Some(c.(handled := true)))
  {
    var m, k := Wanted(records, prefixes), Done(records, prefixes, n);
    NextItem(records, prefixes, n, c);
    WantedIncreases(records, prefixes);
    DedupNext(d, m, k);
    TakeNext(m, k);
  }

  lemma CommitMoves(records: seq<Stored>, prefixes: seq<string>, n: int, c: Consume)
    requires Chronicle(records) && ConsumeOk(records, prefixes, n, c) && c.at < |c.items|
    ensures var x := c.items[c.at].sequence;
      && 1 <= x <= |records|
      && Done(records, prefixes, x) == Done(records, prefixes, n) + 1
      && ConsumeOk(records, prefixes, x, c.(at := c.at + 1, handled := false))
  {
    var m, k := Wanted(records, prefixes), Done(records, prefixes, n);
    var b := Done(records, prefixes, c.through);
    var x := c.items[c.at].sequence;
    NextItem(records, prefixes, n, c);
    WantedIncreases(records, prefixes);
    CursorSplits(records, prefixes, x);
    CursorSplits(records, prefixes, c.through);
    var k' := Done(records, prefixes, x);
    assert k < k';
    assert k' == k + 1 by { if k + 1 < |m| { assert !(m[k + 1].sequence <= x); } }
    assert c.items[c.at + 1..] == c.items[c.at..][1..] == m[k..b][1..] == m[k + 1..b];
  }

  lemma CommitKeeps(records: seq<Stored>, prefixes: seq<string>, n: int, d: seq<Stored>, c: Consume)
    requires Chronicle(records) && SubOk(records, prefixes, n, d, Some(c)) && c.handled
    ensures SubOk(records, prefixes, c.items[c.at].sequence, d, Some(c.(at := c.at + 1, handled := false)))
    ensures CleanOk(records, prefixes, n, d, Some(c)) ==>
            CleanOk(records, prefixes, c.items[c.at].sequence, d, Some(c.(at := c.at + 1, handled := false)))
  {
    CommitMoves(records, prefixes, n, c);
    NextItem(records, prefixes, n, c);
  }

  // ----- the whole bus, seen from one subscription -----

  /** The committed position of a subscription. */
  function Position(cursors: map<int, Cursor>, sub: int): int {
    if sub in cursors && cursors[sub].Sequence? then cursors[sub].n else 0
  }

  /** The records of one workspace, in order. */
  function Mine(l: Ledger, workspace: int): seq<Stored> {
    Filter(l.records, In(workspace))
  }

  function View(c: Running, workspace: int): Consume {
    Consume(c.items, c.at, c.handled, Last(c.through, workspace))
  }

  function RunOf(b: Bus, workspace: int, sub: int): Option<Consume> {
    if sub in b.running then Some(View(b.running[sub], workspace)) else None
  }

  ghost predicate Subscribed(b: Bus, workspace: int, sub: int) {
    && SubOk(Mine(b.store.ledger, workspace), Prefixes(b, sub), Position(b.cursors, sub), Deliveries(b, sub), RunOf(b, workspace, sub))
    && (sub in b.cursors ==> b.cursors[sub].Sequence?)
  }

  /** Every event that the subscription wants is of the workspace. */
  ghost predicate Home(l: Ledger, prefixes: seq<string>, workspace: int) {
    forall r :: r in l.records && Matches(prefixes)(r) ==> r.workspace == workspace
  }

  ghost predicate BusOk(b: Bus, workspace: int, sub: int) {
    && SystemOk(b.store) && Home(b.store.ledger, Prefixes(b, sub), workspace) && b.cursorFile == b.cursors
    && Subscribed(b, workspace, sub)
  }

  ghost predicate Unrepeated(b: Bus, workspace: int, sub: int) {
    CleanOk(Mine(b.store.ledger, workspace), Prefixes(b, sub), Position(b.cursors, sub), Deliveries(b, sub), RunOf(b, workspace, sub))
  }

  lemma MineIsChronicle(l: Ledger, workspace: int)
    requires LedgerOk(l)
    ensures Chronicle(Mine(l, workspace)) && Last(l.next, workspace) == |Mine(l, workspace)|
  {
    assert Counted(l, workspace);
  }

  lemma WantedIsMine(l: Ledger, prefixes: seq<string>, workspace: int)
    requires Home(l, prefixes, workspace)
    ensures Wanted(l.records, prefixes) == Wanted(Mine(l, workspace), prefixes)
  {
    var wanted := Wanted(l.records, prefixes);
    FilterElements(l.records, Matches(prefixes));
    forall i | 0 <= i < |wanted| ensures In(workspace)(wanted[i]) { assert wanted[i] in wanted; }
    FilterAll(wanted, In(workspace));
    FiltersCommute(l.records, In(workspace), Matches(prefixes));
  }

  /** Looking at all events or at those of the workspace, the same are pending. */
  lemma PendingIsMine(l: Ledger, prefixes: seq<string>, workspace: int, n: int)
    requires LedgerOk(l) && Home(l, prefixes, workspace)
    ensures Filter(Filter(Query(l), Beyond(n)), Matches(prefixes)) ==
            Filter(Filter(Mine(l, workspace), Beyond(n)), Matches(prefixes))
  {
    var pending := Filter(Filter(Query(l), Beyond(n)), Matches(prefixes));
    OkIsFit(l);
    SortElements(l.records, ByScope);
    forall i | 0 <= i < |pending| ensures In(workspace)(pending[i]) {
      assert pending[i] in pending;
      FilterMember(Filter(Query(l), Beyond(n)), Matches(prefixes), pending[i]);
      FilterMember(Query(l), Beyond(n), pending[i]);
    }
    FilterAll(pending, In(workspace));
    FiltersCommute(Filter(Query(l), Beyond(n)), Matches(prefixes), In(workspace));
    FiltersCommute(Query(l), Beyond(n), In(workspace));
    QueryKeepsWorkspace(l, workspace);
  }

  lemma SameMine(l: Ledger, m: Ledger, workspace: int)
    requires LedgerOk(l) && LedgerOk(m) && SameLedger(l, m)
    ensures Mine(l, workspace) == Mine(m, workspace)
  {
    OkIsFit(l);
    OkIsFit(m);
    QueryKeepsWorkspace(l, workspace);
    QueryKeepsWorkspace(m, workspace);
  }

  lemma SameMembers(l: Ledger, m: Ledger)
    requires SameLedger(l, m)
    ensures forall r :: r in l.records <==> r in m.records
  {
    SameRecords(l, m);
    SameElements(l.records, m.records);
  }

  /** What a publication that landed adds to the events of a workspace. */
  function News(l: Ledger, raw: Raw, workspace: int): seq<Stored> {
    if raw.workspace == workspace then [Number(raw, |Mine(l, workspace)| + 1)] else []
  }

  lemma AppendedMine(l: Ledger, raw: Raw, workspace: int)
    requires LedgerOk(l) && Append(l, [raw]).Ok?
    ensures var m := Append(l, [raw]).value;
      && LedgerOk(m) && Mine(m, workspace) == Mine(l, workspace) + News(l, raw, workspace)
      && m.records == l.records + [Number(raw, |Mine(l, raw.workspace)| + 1)]
  {
    OkIsFit(l);
    AppendOk(l, [raw]);
    assert Counted(l, raw.workspace);
    assert [raw][1..] == [];
    var x := Number(raw, |Mine(l, raw.workspace)| + 1);
    assert Assign(l.next, [raw]).value == [x];
    FilterSnoc(l.records, x, workspace);
  }

  /** The store after a publication: as before, or with the event, whatever became of the write. */
  ghost predicate Published(s: System, t: System, raw: Raw, workspace: int) {
    && SystemOk(t)
    && (forall r :: r in t.ledger.records ==> r in s.ledger.records || (r.topic == raw.topic && r.workspace == raw.workspace))
    && (Mine(t.ledger, workspace) == Mine(s.ledger, workspace)
        || Mine(t.ledger, workspace) == Mine(s.ledger, workspace) + News(s.ledger, raw, workspace))
  }

  lemma AppendedIsPublished(s: System, t: System, raw: Raw, workspace: int)
    requires SystemOk(s) && SystemOk(t) && Append(s.ledger, [raw]).Ok? && SameLedger(t.ledger, Append(s.ledger, [raw]).value)
    ensures Published(s, t, raw, workspace)
  {
    AppendedMine(s.ledger, raw, workspace);
    SameMine(t.ledger, Append(s.ledger, [raw]).value, workspace);
    SameMembers(t.ledger, Append(s.ledger, [raw]).value);
  }

  lemma PublishedStore(s: System, raw: Raw, fate: Fate, workspace: int)
    requires SystemOk(s)
    ensures AppendBatch(s, [raw], fate).Ok? && Published(s, AppendBatch(s, [raw], fate).value, raw, workspace)
  {
    SystemOkIsFit(s);
    BatchIsAtomic(s, [raw], fate);
    BatchKeepsOk(s, [raw], fate);
    var t := AppendBatch(s, [raw], fate).value;
    if Append(s.ledger, [raw]).Ok? && (fate.Completes? || fate.CrashesAfter?) {
      AppendedIsPublished(s, t, raw, workspace);
    } else {
      SameMine(t.ledger, s.ledger, workspace);
      SameMembers(t.ledger, s.ledger);
    }
  }

  lemma RestartKeeps(b: Bus, store: System, workspace: int, sub: int)
    requires BusOk(b, workspace, sub) && SystemOk(store) && Home(store.ledger, Prefixes(b, sub), workspace)
    requires Mine(store.ledger, workspace) == Mine(b.store.ledger, workspace)
    ensures BusOk(Restart(b, store), workspace, sub)
  {
    InterruptedOk(Mine(store.ledger, workspace), Prefixes(b, sub), Position(b.cursors, sub), Deliveries(b, sub), RunOf(b, workspace, sub));
  }

  lemma StoredKeepsSub(b: Bus, store: System, raw: Raw, workspace: int, sub: int)
    requires SystemOk(b.store) && Subscribed(b, workspace, sub) && Published(b.store, store, raw, workspace)
    ensures Subscribed(b.(store := store), workspace, sub)
    ensures Unrepeated(b, workspace, sub) ==> Unrepeated(b.(store := store), workspace, sub)
  {
    var records := Mine(b.store.ledger, workspace);
    MineIsChronicle(b.store.ledger, workspace);
    if Mine(store.ledger, workspace) != records {
      PublishKeeps(records, Number(raw, |records| + 1), Prefixes(b, sub), Position(b.cursors, sub), Deliveries(b, sub), RunOf(b, workspace, sub));
    }
  }

  lemma StoredHome(b: Bus, store: System, raw: Raw, workspace: int, sub: int)
    requires BusOk(b, workspace, sub) && Published(b.store, store, raw, workspace)
    requires raw.workspace == workspace || !StartsWithAny(Prefixes(b, sub), raw.topic)
    ensures Home(store.ledger, Prefixes(b, sub), workspace)
  {
  }

  lemma PublishKeepsBus(b: Bus, raw: Raw, fate: Fate, workspace: int, sub: int)
    requires BusOk(b, workspace, sub) && (raw.workspace == workspace || !StartsWithAny(Prefixes(b, sub), raw.topic))
    ensures PublishEvent(b, raw, fate).Ok? && BusOk(PublishEvent(b, raw, fate).value, workspace, sub)
    ensures fate.Completes? || fate.WriteFails? ==>
            (Unrepeated(b, workspace, sub) ==> Unrepeated(PublishEvent(b, raw, fate).value, workspace, sub))
  {
    PublishedStore(b.store, raw, fate, workspace);
    var store := AppendBatch(b.store, [raw], fate).value;
    StoredKeepsSub(b, store, raw, workspace, sub);
    StoredHome(b, store, raw, workspace, sub);
    if fate.CrashesBefore? || fate.CrashesAfter? { RestartKeeps(b.(store := store), store, workspace, sub); }
  }

  lemma CrashKeepsBus(b: Bus, workspace: int, sub: int)
    requires BusOk(b, workspace, sub)
    ensures CrashBus(b).Ok? && BusOk(CrashBus(b).value, workspace, sub)
  {
    ReopenOk(b.store);
    var store := Reopen(b.store).value;
    SameMine(store.ledger, b.store.ledger, workspace);
    SameMembers(store.ledger, b.store.ledger);
    RestartKeeps(b, store, workspace, sub);
  }

  /** `t` differs from `b` for subscription `s` only. */
  ghost predicate Frame(b: Bus, t: Bus, s: int) {
    && t.topics == b.topics && t.store == b.store && t.cursorFile == t.cursors
    && forall sub :: sub != s ==>
         (sub in t.running <==> sub in b.running) && (sub in b.running ==> t.running[sub] == b.running[sub]) &&
         Deliveries(t, sub) == Deliveries(b, sub) && CursorOf(t, sub) == CursorOf(b, sub)
  }

  lemma OtherSub(b: Bus, t: Bus, s: int, workspace: int, sub: int)
    requires Frame(b, t, s) && s != sub && BusOk(b, workspace, sub)
    ensures BusOk(t, workspace, sub) && (Unrepeated(b, workspace, sub) ==> Unrepeated(t, workspace, sub))
  {
    assert RunOf(t, workspace, sub) == RunOf(b, workspace, sub);
    assert CursorOf(t, sub) == CursorOf(b, sub);
    assert Position(t.cursors, sub) == Position(b.cursors, sub);
  }

  lemma StartFrame(b: Bus, s: int)
    requires b.cursorFile == b.cursors && StartConsume(b, s).Ok?
    ensures Frame(b, StartConsume(b, s).value, s)
  {
  }

  lemma StartKeepsSub(b: Bus, workspace: int, sub: int)
    requires BusOk(b, workspace, sub) && StartConsume(b, sub).Ok?
    ensures var t := StartConsume(b, sub).value;
      Subscribed(t, workspace, sub) && (Unrepeated(b, workspace, sub) ==> Unrepeated(t, workspace, sub))
  {
    var t, n := StartConsume(b, sub).value, Position(b.cursors, sub);
    var records := Mine(b.store.ledger, workspace);
    MineIsChronicle(b.store.ledger, workspace);
    if t != b {
      PendingIsMine(b.store.ledger, Prefixes(b, sub), workspace, n);
      assert t.running[sub].items == Filter(Filter(Query(b.store.ledger), Beyond(n)), Matches(Prefixes(b, sub)));
      StartKeeps(records, Prefixes(b, sub), n, Deliveries(b, sub), View(t.running[sub], workspace));
    }
  }

  lemma StartKeepsBus(b: Bus, s: int, workspace: int, sub: int)
    requires BusOk(b, workspace, sub) && StartConsume(b, s).Ok?
    ensures var t := StartConsume(b, s).value;
      BusOk(t, workspace, sub) && (Unrepeated(b, workspace, sub) ==> Unrepeated(t, workspace, sub))
  {
    StartFrame(b, s);
    if s == sub { StartKeepsSub(b, workspace, sub); } else { OtherSub(b, StartConsume(b, s).value, s, workspace, sub); }
  }

  lemma DeliverFrame(b: Bus, s: int, returns': bool)
    requires b.cursorFile == b.cursors && DeliverNext(b, s, returns').Ok?
    ensures Frame(b, DeliverNext(b, s, returns').value, s)
  {
  }

  lemma HandledView(b: Bus, workspace: int, sub: int) returns (c: Consume)
    requires DeliverNext(b, sub, true).Ok?
    ensures RunOf(b, workspace, sub) == Some(c) && !c.handled && c.at < |c.items|
    ensures var t := DeliverNext(b, sub, true).value;
      && t.store == b.store && t.cursors == b.cursors && Prefixes(t, sub) == Prefixes(b, sub)
      && Deliveries(t, sub) == Deliveries(b, sub) + [c.items[c.at]] && RunOf(t, workspace, sub) == Some(c.(handled := true))
  {
    c := View(b.running[sub], workspace);
  }

  lemma HandledKeepsSub(b: Bus, workspace: int, sub: int)
    requires BusOk(b, workspace, sub) && DeliverNext(b, sub, true).Ok?
    ensures var t := DeliverNext(b, sub, true).value;
      Subscribed(t, workspace, sub) && (Unrepeated(b, workspace, sub) ==> Unrepeated(t, workspace, sub))
  {
    var c := HandledView(b, workspace, sub);
    MineIsChronicle(b.store.ledger, workspace);
    DeliverKeeps(Mine(b.store.ledger, workspace), Prefixes(b, sub), Position(b.cursors, sub), Deliveries(b, sub), c);
  }

  lemma ThrownKeepsSub(b: Bus, workspace: int, sub: int)
    requires BusOk(b, workspace, sub) && DeliverNext(b, sub, false).Ok?
    ensures Subscribed(DeliverNext(b, sub, false).value, workspace, sub)
  {
    var t := DeliverNext(b, sub, true).value;
    HandledKeepsSub(b, workspace, sub);
    InterruptedOk(Mine(t.store.ledger, workspace), Prefixes(t, sub), Position(t.cursors, sub), Deliveries(t, sub), RunOf(t, workspace, sub));
  }

  lemma DeliverKeepsBus(b: Bus, s: int, returns': bool, workspace: int, sub: int)
    requires BusOk(b, workspace, sub) && DeliverNext(b, s, returns').Ok?
    ensures var t := DeliverNext(b, s, returns').value;
      BusOk(t, workspace, sub) && (returns' ==> (Unrepeated(b, workspace, sub) ==> Unrepeated(t, workspace, sub)))
  {
    DeliverFrame(b, s, returns');
    if s != sub { OtherSub(b, DeliverNext(b, s, returns').value, s, workspace, sub); }
    else if returns' { HandledKeepsSub(b, workspace, sub); }
    else { ThrownKeepsSub(b, workspace, sub); }
  }

  lemma CommitFrame(b: Bus, s: int)
    requires b.cursorFile == b.cursors && CommitCursor(b, s, Completes).Ok?
    ensures Frame(b, CommitCursor(b, s, Completes).value, s)
  {
  }

  lemma CommittedKeepsSub(b: Bus, workspace: int, sub: int)
    requires BusOk(b, workspace, sub) && CommitCursor(b, sub, Completes).Ok?
    ensures var t := CommitCursor(b, sub, Completes).value;
      Subscribed(t, workspace, sub) && (Unrepeated(b, workspace, sub) ==> Unrepeated(t, workspace, sub))
  {
    MineIsChronicle(b.store.ledger, workspace);
    CommitKeeps(Mine(b.store.ledger, workspace), Prefixes(b, sub), Position(b.cursors, sub), Deliveries(b, sub), View(b.running[sub], workspace));
  }

  lemma CommittedKeeps(b: Bus, s: int, workspace: int, sub: int)
    requires BusOk(b, workspace, sub) && CommitCursor(b, s, Completes).Ok?
    ensures var t := CommitCursor(b, s, Completes).value;
      BusOk(t, workspace, sub) && (Unrepeated(b, workspace, sub) ==> Unrepeated(t, workspace, sub))
  {
    CommitFrame(b, s);
    if s == sub { CommittedKeepsSub(b, workspace, sub); } else { OtherSub(b, CommitCursor(b, s, Completes).value, s, workspace, sub); }
  }

  lemma StopKeepsBus(b: Bus, s: int, workspace: int, sub: int)
    requires BusOk(b, workspace, sub)
    ensures var t := b.(running := b.running - {s});
      && BusOk(t, workspace, sub)
      && (!(s in b.running && b.running[s].handled) ==> (Unrepeated(b, workspace, sub) ==> Unrepeated(t, workspace, sub)))
  {
    var t := b.(running := b.running - {s});
    if s == sub {
      InterruptedOk(Mine(b.store.ledger, workspace), Prefixes(b, sub), Position(b.cursors, sub), Deliveries(b, sub), RunOf(b, workspace, sub));
    } else {
      OtherSub(b, t, s, workspace, sub);
    }
  }

  lemma CommitKeepsBus(b: Bus, s: int, fate: Fate, workspace: int, sub: int)
    requires BusOk(b, workspace, sub) && CommitCursor(b, s, fate).Ok?
    ensures BusOk(CommitCursor(b, s, fate).value, workspace, sub)
  {
    CommittedKeeps(b, s, workspace, sub);
    match fate
    case Completes =>
    case WriteFails => StopKeepsBus(b, s, workspace, sub);
    case CrashesBefore => CrashKeepsBus(b, workspace, sub);
    case CrashesAfter =>
      var t := CommitCursor(b, s, Completes).value;
      CrashKeepsBus(t, workspace, sub);
      assert CrashBus(b.(cursorFile := t.cursorFile)) == CrashBus(t);
  }

  lemma StepKeepsBus(b: Bus, ev: Event, workspace: int, sub: int)
    requires BusOk(b, workspace, sub) && StepIn(workspace, sub)(b, ev).Ok?
    ensures BusOk(StepIn(workspace, sub)(b, ev).value, workspace, sub)
  {
    match ev
    case Publish(raw, fate) => PublishKeepsBus(b, raw, fate, workspace, sub);
    case Start(s) => StartKeepsBus(b, s, workspace, sub);
    case Deliver(s, returns') => DeliverKeepsBus(b, s, returns', workspace, sub);
    case Commit(s, fate) => CommitKeepsBus(b, s, fate, workspace, sub);
    case Finish(s) => StopKeepsBus(b, s, workspace, sub);
    case Crash => CrashKeepsBus(b, workspace, sub);
  }

  lemma {:induction false} RunKeepsBus(b: Bus, run: seq<Event>, workspace: int, sub: int)
    requires BusOk(b, workspace, sub) && Run(StepIn(workspace, sub), b, run).Ok?
    ensures BusOk(Run(StepIn(workspace, sub), b, run).value, workspace, sub)
    decreases |run|
  {
    if run != [] {
      StepKeepsBus(b, run[0], workspace, sub);
      RunKeepsBus(StepIn(workspace, sub)(b, run[0]).value, run[1..], workspace, sub);
    }
  }

  lemma NewBusOk(topics: map<int, seq<string>>, workspace: int, sub: int)
    ensures BusOk(NewBus(topics), workspace, sub) && Unrepeated(NewBus(topics), workspace, sub)
  {
    FreshOk();
    assert forall prefixes :: Wanted([], prefixes) == [];
  }

  // ----- what subscribers may rely on -----

  /**
   Over every interleaving with failures, crashes and reopens, as long as the events that the subscription wants
   are of one workspace, its deliveries, adjacent repetitions dropped, are those events in order from the first,
   none left out. What else is published, and what other subscriptions do, does not matter.
   */
  lemma DeliveriesArePrefix(topics: map<int, seq<string>>, run: seq<Event>, workspace: int, sub: int)
    requires Run(StepIn(workspace, sub), NewBus(topics), run).Ok?
    ensures var b := Run(StepIn(workspace, sub), NewBus(topics), run).value;
      && Dedup(Deliveries(b, sub)) <= Wanted(b.store.ledger.records, Prefixes(b, sub))
      && forall e :: e in Wanted(b.store.ledger.records, Prefixes(b, sub)) <==> e in b.store.ledger.records && Wants(Prefixes(b, sub), e)
  {
    var b := Run(StepIn(workspace, sub), NewBus(topics), run).value;
    NewBusOk(topics, workspace, sub);
    RunKeepsBus(NewBus(topics), run, workspace, sub);
    WantedIsMine(b.store.ledger, Prefixes(b, sub), workspace);
    forall e { WantedMembers(b.store.ledger.records, Prefixes(b, sub), e); }
  }

  lemma WantedMembers(records: seq<Stored>, prefixes: seq<string>, e: Stored)
    ensures e in Wanted(records, prefixes) <==> e in records && Wants(prefixes, e)
  {
    FilterMember(records, Matches(prefixes), e);
    MatchesIff(prefixes, e);
  }

  /** A consume call that comes to its end has seen every wanted event published before it began. */
  lemma FinishedSawAll(b: Bus, workspace: int, sub: int, e: Stored)
    requires BusOk(b, workspace, sub) && FinishConsume(b, sub).Ok?
    requires e in b.store.ledger.records && Wants(Prefixes(b, sub), e)
    requires e.workspace in b.running[sub].through && e.sequence <= b.running[sub].through[e.workspace]
    ensures e in Deliveries(b, sub)
  {
    WantedMembers(b.store.ledger.records, Prefixes(b, sub), e);
    var records, prefixes := Mine(b.store.ledger, workspace), Prefixes(b, sub);
    var n, m := Position(b.cursors, sub), Wanted(records, prefixes);
    WantedIsMine(b.store.ledger, prefixes, workspace);
    FilterMember(b.store.ledger.records, Matches(prefixes), e);
    MineIsChronicle(b.store.ledger, workspace);
    SeenThrough(records, prefixes, n, Deliveries(b, sub), View(b.running[sub], workspace), e);
  }

  lemma SeenThrough(records: seq<Stored>, prefixes: seq<string>, n: int, d: seq<Stored>, c: Consume, e: Stored)
    requires Chronicle(records) && SubOk(records, prefixes, n, d, Some(c)) && c.at >= |c.items|
    requires e in Wanted(records, prefixes) && e.sequence <= c.through
    ensures e in d
  {
    var m := Wanted(records, prefixes);
    CursorSplits(records, prefixes, c.through);
    var i :| 0 <= i < |m| && m[i] == e;
    assert |m[Done(records, prefixes, n)..Done(records, prefixes, c.through)]| == 0;
    assert Dedup(d)[i] == e;
    DedupMember(d, e);
  }

  lemma {:induction false} DedupMember(s: seq<Stored>, x: Stored)
    requires x in Dedup(s)
    ensures x in s
    decreases |s|
  {
    if s != [] {
      SplitLast(s);
      if x in Dedup(s[..|s| - 1]) { DedupMember(s[..|s| - 1], x); }
    }
  }

  /** No crash, no handler that throws, no failed cursor write. */
  predicate Clean(ev: Event) {
    match ev
    case Publish(_, fate) => fate.Completes? || fate.WriteFails?
    case Deliver(_, returns') => returns'
    case Commit(_, fate) => fate.Completes?
    case Crash => false
    case _ => true
  }

  lemma CleanStep(b: Bus, ev: Event, workspace: int, sub: int)
    requires BusOk(b, workspace, sub) && Unrepeated(b, workspace, sub) && StepIn(workspace, sub)(b, ev).Ok? && Clean(ev)
    ensures Unrepeated(StepIn(workspace, sub)(b, ev).value, workspace, sub)
  {
    match ev
    case Publish(raw, fate) => PublishKeepsBus(b, raw, fate, workspace, sub);
    case Start(s) => StartKeepsBus(b, s, workspace, sub);
    case Deliver(s, returns') => DeliverKeepsBus(b, s, returns', workspace, sub);
    case Commit(s, fate) => CommittedKeeps(b, s, workspace, sub);
    case Finish(s) => FinishUnrepeated(b, s, workspace, sub);
    case Crash =>
  }

  lemma FinishUnrepeated(b: Bus, s: int, workspace: int, sub: int)
    requires BusOk(b, workspace, sub) && Unrepeated(b, workspace, sub) && FinishConsume(b, s).Ok?
    ensures Unrepeated(FinishConsume(b, s).value, workspace, sub)
  {
    if s == sub {
      assert !View(b.running[sub], workspace).handled;
      StopKeepsBus(b, s, workspace, sub);
    } else {
      OtherSub(b, FinishConsume(b, s).value, s, workspace, sub);
    }
  }

  ghost predicate CleanBus(b: Bus, workspace: int, sub: int) {
    BusOk(b, workspace, sub) && Unrepeated(b, workspace, sub)
  }

  lemma CleanStepKeeps(b: Bus, ev: Event, workspace: int, sub: int)
    requires CleanBus(b, workspace, sub) && StepIn(workspace, sub)(b, ev).Ok? && Clean(ev)
    ensures CleanBus(StepIn(workspace, sub)(b, ev).value, workspace, sub)
  {
    StepKeepsBus(b, ev, workspace, sub);
    CleanStep(b, ev, workspace, sub);
  }

  lemma CleanRun(b: Bus, run: seq<Event>, workspace: int, sub: int)
    requires CleanBus(b, workspace, sub)
    requires Run(StepIn(workspace, sub), b, run).Ok? && forall i :: 0 <= i < |run| ==> Clean(run[i])
    ensures CleanBus(Run(StepIn(workspace, sub), b, run).value, workspace, sub)
  {
    var step, inv := StepIn(workspace, sub), (b: Bus) => CleanBus(b, workspace, sub);
    forall s, ev | inv(s) && Clean(ev) && step(s, ev).Ok? ensures inv(step(s, ev).value) {
      CleanStepKeeps(s, ev, workspace, sub);
    }
    RunKeeps(step, inv, Clean, b, run);
  }

  /** Repetitions come only from failures: without one, the deliveries themselves are that prefix. */
  lemma NoFailureNoRepetition(topics: map<int, seq<string>>, run: seq<Event>, workspace: int, sub: int)
    requires Run(StepIn(workspace, sub), NewBus(topics), run).Ok? && forall i :: 0 <= i < |run| ==> Clean(run[i])
    ensures var b := Run(StepIn(workspace, sub), NewBus(topics), run).value;
      Deliveries(b, sub) <= Wanted(b.store.ledger.records, Prefixes(b, sub)) && Distinct(Deliveries(b, sub))
  {
    var b := Run(StepIn(workspace, sub), NewBus(topics), run).value;
    NewBusOk(topics, workspace, sub);
    CleanRun(NewBus(topics), run, workspace, sub);
    WantedIsMine(b.store.ledger, Prefixes(b, sub), workspace);
    MineIsChronicle(b.store.ledger, workspace);
    WantedIncreases(Mine(b.store.ledger, workspace), Prefixes(b, sub));
  }

  // ----- several workspaces -----

  /**
   Sequences count per workspace but a subscription has one cursor, so a new event is pending only if its
   workspace already has at least as many events as the cursor says. In one workspace it always has.
   */
  lemma NewEventPendingIff(l: Ledger, raw: Raw, n: nat, prefixes: seq<string>)
    requires LedgerOk(l) && Append(l, [raw]).Ok?
    ensures var m := Append(l, [raw]).value;
      var x := Number(raw, |Filter(l.records, In(raw.workspace))| + 1);
      var pending := Pending(Query(m), Some(Sequence(n)), prefixes);
      && x in m.records && pending.Ok?
      && (x in pending.value <==> Wants(prefixes, x) && |Filter(l.records, In(raw.workspace))| >= n)
  {
    var m := Append(l, [raw]).value;
    var x := Number(raw, |Filter(l.records, In(raw.workspace))| + 1);
    AppendedMine(l, raw, raw.workspace);
    SortElements(m.records, ByScope);
    FilterMember(Query(m), Beyond(n), x);
    FilterMember(Filter(Query(m), Beyond(n)), Matches(prefixes), x);
    MatchesIff(prefixes, x);
  }

  /** The subscription has moved on, and neither delivered `x`, which is the first of its workspace, nor set out to. */
  ghost predicate Lost(b: Bus, sub: int, x: Stored) {
    && x.sequence <= 1 && x !in Deliveries(b, sub)
    && sub in b.cursors && b.cursors[sub].Sequence? && b.cursors[sub].n >= 1
    && sub in b.cursorFile && b.cursorFile[sub].Sequence? && b.cursorFile[sub].n >= 1
    && (sub in b.running ==> forall i :: 0 <= i < |b.running[sub].items| ==> b.running[sub].items[i].sequence > 1)
  }

  lemma StartKeepsLost(b: Bus, s: int, sub: int, x: Stored)
    requires Lost(b, sub, x) && StartConsume(b, s).Ok?
    ensures Lost(StartConsume(b, s).value, sub, x)
  {
    var t := StartConsume(b, s).value;
    if s == sub && t != b {
      var n, items := b.cursors[sub].n, t.running[sub].items;
      forall i | 0 <= i < |items| ensures items[i].sequence > 1 {
        assert items[i] in items;
        FilterMember(Filter(Query(b.store.ledger), Beyond(n)), Matches(b.topics[sub]), items[i]);
        FilterMember(Query(b.store.ledger), Beyond(n), items[i]);
      }
    }
  }

  lemma PublishKeepsLost(b: Bus, raw: Raw, fate: Fate, sub: int, x: Stored)
    requires Lost(b, sub, x) && PublishEvent(b, raw, fate).Ok?
    ensures Lost(PublishEvent(b, raw, fate).value, sub, x)
  {
  }

  lemma CommitKeepsLost(b: Bus, s: int, fate: Fate, sub: int, x: Stored)
    requires Lost(b, sub, x) && CommitCursor(b, s, fate).Ok?
    ensures Lost(CommitCursor(b, s, fate).value, sub, x)
  {
  }

  lemma DeliverKeepsLost(b: Bus, s: int, returns': bool, sub: int, x: Stored)
    requires Lost(b, sub, x) && DeliverNext(b, s, returns').Ok?
    ensures Lost(DeliverNext(b, s, returns').value, sub, x)
  {
  }

  lemma StepKeepsLost(b: Bus, ev: Event, sub: int, x: Stored)
    requires Lost(b, sub, x) && Step(b, ev).Ok?
    ensures Lost(Step(b, ev).value, sub, x)
  {
    match ev
    case Publish(raw, fate) => PublishKeepsLost(b, raw, fate, sub, x);
    case Start(s) => StartKeepsLost(b, s, sub, x);
    case Deliver(s, returns') => DeliverKeepsLost(b, s, returns', sub, x);
    case Commit(s, fate) => CommitKeepsLost(b, s, fate, sub, x);
    case _ =>
  }

  /** Then it is never delivered, in any continuation. */
  lemma {:induction false} LostForever(b: Bus, run: seq<Event>, sub: int, x: Stored)
    requires Lost(b, sub, x) && Run(Step, b, run).Ok?
    ensures x !in Deliveries(Run(Step, b, run).value, sub)
    decreases |run|
  {
    if run != [] {
      StepKeepsLost(b, run[0], sub, x);
      LostForever(Step(b, run[0]).value, run[1..], sub, x);
    }
  }

  /**
   That is what happens to the first event of a second workspace: once a subscription has a cursor and is not
   consuming, such an event is stored and can never reach it, whether it wants it or not.
   */
  lemma SecondWorkspaceIsLost(b: Bus, sub: int, raw: Raw)
    requires SystemOk(b.store) && Mine(b.store.ledger, raw.workspace) == [] && Append(b.store.ledger, [raw]).Ok?
    requires b.cursorFile == b.cursors && sub in b.cursors && b.cursors[sub].Sequence? && b.cursors[sub].n >= 1
    requires sub !in b.running && forall r :: r in Deliveries(b, sub) ==> r in b.store.ledger.records
    ensures var t, x := PublishEvent(b, raw, Completes), Number(raw, 1);
      t.Ok? && x in t.value.store.ledger.records && Lost(t.value, sub, x)
  {
    AppendedMine(b.store.ledger, raw, raw.workspace);
    var x := Number(raw, 1);
    FilterMember(b.store.ledger.records, In(raw.workspace), x);
  }

  /** A cursor from an older file, naming an event, stands for that event's sequence. */
  lemma OldCursorMeansSequence(all: seq<Stored>, e: Stored, prefixes: seq<string>)
    requires e in all && DistinctIds(all) && e.sequence >= 0
    ensures Pending(all, Some(EventId(e.id)), prefixes) == Pending(all, Some(Sequence(e.sequence)), prefixes)
  {
    FoundById(all, e);
  }

  lemma {:induction false} FoundById(all: seq<Stored>, e: Stored)
    requires e in all && DistinctIds(all)
    ensures SequenceOf(all, e.id) == Some(e.sequence)
    decreases |all|
  {
    assert all == [all[0]] + all[1..];
    if all[0] != e {
      var i :| 0 <= i < |all| && all[i] == e;
      FoundById(all[1..], e);
    }
  }

  // ----- the bus object -----

  class CursorFile {
    var content: map<int, Cursor>

    constructor ()
      ensures content == map[]
    {
      content := map[];
    }
  }

  /** What one handler call and the cursor write after it come to. */
  datatype Outcome = Outcome(returns': bool, write: Fate)

  const SUCCESS := Outcome(true, Completes)

  function WithCursor(cursors: map<int, Cursor>, sub: int, items: seq<Stored>, commits: nat): map<int, Cursor>
    requires commits <= |items|
  {
    if commits == 0 then cursors else cursors[sub := Sequence(items[commits - 1].sequence)]
  }

  class LocalEventBus {
    const ledger: LocalCanonicalLedger
    const cursorFile: CursorFile
    var cursors: map<int, Cursor>

    constructor (ledger: LocalCanonicalLedger, cursorFile: CursorFile)
      ensures this.ledger == ledger && this.cursorFile == cursorFile && cursors == cursorFile.content
    {
      this.ledger, this.cursorFile, cursors := ledger, cursorFile, cursorFile.content;
    }

    method PendingDeliveries(sub: int, prefixes: seq<string>) returns (r: Result<seq<Stored>, BusError>)
      ensures r == Pending(Query(ledger.State()), if sub in cursors then Some(cursors[sub]) else None, prefixes)
      ensures Sends(ledger.State(), if sub in cursors then Some(cursors[sub]) else None, prefixes, r)
    {
      PendingMeans(ledger.State(), if sub in cursors then Some(cursors[sub]) else None, prefixes);
      var all := SortBy(ledger.records, ByScope);
      var after := AfterSequence(all, if sub in cursors then Some(cursors[sub]) else None);
      if after.Err? { return Err(after.error); }
      return Ok(Filter(Filter(all, Beyond(after.value)), Matches(prefixes)));
    }

    /** One turn of the cursor queue: the file first, then the map in memory. */
    method CommitSequence(sub: int, n: int, fate: Fate) returns (committed: bool)
      modifies this, cursorFile
      ensures committed <==> fate.Completes?
      ensures cursors == if committed then old(cursors)[sub := Sequence(n)] else old(cursors)
      ensures cursorFile.content ==
              if fate.Completes? || fate.CrashesAfter? then old(cursors)[sub := Sequence(n)] else old(cursorFile.content)
    {
      var next := cursors[sub := Sequence(n)];
      if fate.Completes? || fate.CrashesAfter? { cursorFile.content := next; }
      if fate.Completes? { cursors := next; }
      return fate.Completes?;
    }

    /** The loop of `consume`: the handler, then the cursor; the first failure ends it. */
    method HandleItems(sub: int, items: seq<Stored>, outcomes: seq<Outcome>) returns (deliveries: seq<Stored>, commits: nat)
      requires cursorFile.content == cursors && |outcomes| >= |items|
      modifies this, cursorFile
      ensures commits <= |items| && forall i :: 0 <= i < commits ==> outcomes[i] == SUCCESS
      ensures commits < |items| ==> outcomes[commits] != SUCCESS
      ensures deliveries == if commits < |items| then items[..commits + 1] else items
      ensures cursors == if commits == 0 then old(cursors) else old(cursors)[sub := Sequence(items[commits - 1].sequence)]
      ensures cursorFile.content ==
        if commits < |items| && outcomes[commits] == Outcome(true, CrashesAfter)
        then old(cursors)[sub := Sequence(items[commits].sequence)] else cursors
    {
      deliveries, commits := [], 0;
      while commits < |items|
        invariant commits <= |items| && deliveries == items[..commits]
        invariant forall i :: 0 <= i < commits ==> outcomes[i] == SUCCESS
        invariant cursors == cursorFile.content == WithCursor(old(cursors), sub, items, commits)
      {
        var outcome := outcomes[commits];
        TakeNext(items, commits);
        deliveries := deliveries + [items[commits]];
        if !outcome.returns' { return; }
        var committed := CommitSequence(sub, items[commits].sequence, outcome.write);
        if !committed { return; }
        commits := commits + 1;
      }
    }

    method ConsumePending(sub: int, prefixes: seq<string>, outcomes: seq<Outcome>)
      returns (pending: Result<seq<Stored>, BusError>, deliveries: seq<Stored>, commits: nat)
      requires cursorFile.content == cursors
      requires |outcomes| >= |Filter(ledger.records, Matches(prefixes))|
      modifies this, cursorFile
      ensures pending == Pending(Query(old(ledger.State())), if sub in old(cursors) then Some(old(cursors)[sub]) else None, prefixes)
      ensures Sends(old(ledger.State()), if sub in old(cursors) then Some(old(cursors)[sub]) else None, prefixes, pending)
      ensures pending.Err? ==> deliveries == [] && commits == 0 && cursors == cursorFile.content == old(cursors)
      ensures pending.Ok? ==>
        && commits <= |pending.value|
        && deliveries == (if commits < |pending.value| then pending.value[..commits + 1] else pending.value)
        && cursors == (if commits == 0 then old(cursors) else old(cursors)[sub := Sequence(pending.value[commits - 1].sequence)])
    {
      pending := PendingDeliveries(sub, prefixes);
      if pending.Err? { return pending, [], 0; }
      PendingBound(ledger.State(), if sub in cursors then Some(cursors[sub]) else None, prefixes);
      deliveries, commits := HandleItems(sub, pending.value, outcomes);
    }
  }

  lemma {:induction false} FilterLength<T>(s: seq<T>, p: T -> bool)
    ensures |Filter(s, p)| <= |s|
  {
    if s != [] { FilterLength(s[1..], p); }
  }

  lemma PendingBound(l: Ledger, cursor: Option<Cursor>, prefixes: seq<string>)
    requires Pending(Query(l), cursor, prefixes).Ok?
    ensures |Pending(Query(l), cursor, prefixes).value| <= |Filter(l.records, Matches(prefixes))|
  {
    var n := AfterSequence(Query(l), cursor).value;
    var wanted := Filter(Query(l), Matches(prefixes));
    FiltersCommute(Query(l), Beyond(n), Matches(prefixes));
    FilterLength(wanted, Beyond(n));
    SortPermutes(l.records, ByScope);
    forall x ensures multiset(wanted)[x] == multiset(Filter(l.records, Matches(prefixes)))[x] {
      FilterMultiset(Query(l), Matches(prefixes), x);
      FilterMultiset(l.records, Matches(prefixes), x);
    }
    SameElements(wanted, Filter(l.records, Matches(prefixes)));
  }
}
