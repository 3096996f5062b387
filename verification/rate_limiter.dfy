/**
 services/platform-api: the sliding-window rate limiter. Times are milliseconds; `order` is the iteration
 order of the `#requests` map.
 */
module RateLimiter {
  import opened Wrappers
  import opened Collections
  import opened Sorting
  import opened Replay

  datatype Limiter = Limiter(maximum: nat, window: nat, keys: nat, order: seq<int>, requests: map<int, seq<int>>)

  datatype Decision = Decision(allowed: bool, retryAfterSeconds: int)

  function Newer(cutoff: int): int -> bool {
    (t: int) => t > cutoff
  }

  function Held(l: Limiter, key: int): seq<int> {
    if key in l.requests then l.requests[key] else []
  }

  /** `at(-1) ?? 0`. */
  function LastOf(l: Limiter, key: int): int {
    var held := Held(l, key);
    if held == [] then 0 else held[|held| - 1]
  }

  /** Least recently used first, ties by key. */
  function ByLast(l: Limiter): (int, int) -> bool {
    (a: int, b: int) => LastOf(l, a) < LastOf(l, b) || (LastOf(l, a) == LastOf(l, b) && a <= b)
  }

  function Other(key: int): int -> bool {
    (k: int) => k != key
  }

  function EvictOldest(l: Limiter): Limiter {
    if l.order == [] then l else
      var oldest := SortBy(l.order, ByLast(l))[0];
      l.(order := Filter(l.order, Other(oldest)), requests := l.requests - {oldest})
  }

  function MakeRoom(l: Limiter, key: int): Limiter {
    if key !in l.requests && |l.order| >= l.keys then EvictOldest(l) else l
  }

  function Put(l: Limiter, key: int, held: seq<int>): Limiter {
    l.(order := if key in l.requests then l.order else l.order + [key], requests := l.requests[key := held])
  }

  function CeilSeconds(milliseconds: int): int {
    (milliseconds + 999) / 1000
  }

  function Max(a: int, b: int): int {
    if a >= b then a else b
  }

  function Kept(l: Limiter, key: int, now: int): seq<int> {
    Filter(Held(l, key), Newer(now - l.window))
  }

  function Decide(l: Limiter, key: int, now: int): Decision {
    var kept := Kept(MakeRoom(l, key), key, now);
    if |kept| >= l.maximum && kept != [] then Decision(false, Max(1, CeilSeconds(kept[0] + l.window - now)))
    else Decision(true, 0)
  }

  function Allow(l: Limiter, key: int, now: int): Limiter {
    var room := MakeRoom(l, key);
    var kept := Kept(room, key, now);
    Put(room, key, if Decide(l, key, now).allowed then kept + [now] else kept)
  }

  // ----- runs, with what was allowed since a key was last evicted -----

  datatype Call = Call(key: int, at: int)

  datatype Tracked = Tracked(limiter: Limiter, allowed: map<int, seq<int>>, clock: int)

  datatype RunError = TimeReversed

  function AllowedOf(t: Tracked, key: int): seq<int> {
    if key in t.allowed then t.allowed[key] else []
  }

  /** Histories of evicted keys are forgotten with them. */
  function Track(t: Tracked, call: Call): Result<Tracked, RunError> {
    if call.at < t.clock then Err(TimeReversed)
    else
      var room := MakeRoom(t.limiter, call.key);
      var past := if call.key in room.requests then AllowedOf(t, call.key) else [];
      var kept := map k | k in t.allowed && k in room.requests :: t.allowed[k];
      Ok(Tracked(Allow(t.limiter, call.key, call.at),
                 kept[call.key := if Decide(t.limiter, call.key, call.at).allowed then past + [call.at] else past],
                 call.at))
  }

  function Fresh(maximum: nat, window: nat, keys: nat, clock: int): Tracked {
    Tracked(Limiter(maximum, window, keys, [], map[]), map[], clock)
  }

  // ----- one key -----

  predicate Earlier(a: int, b: int) {
    a <= b
  }

  /** Any `maximum` + 1 consecutive allowed calls span at least a window. */
  ghost predicate Spaced(h: seq<int>, maximum: nat, window: nat) {
    forall i, j :: 0 <= i && j == i + maximum && j < |h| ==> h[j] >= h[i] + window
  }

  /** What the limiter holds for a key is the end of its history; everything before has left the window. */
  ghost predicate KeyOk(held: seq<int>, h: seq<int>, clock: int, maximum: nat, window: nat) {
    && 1 <= |held| <= maximum && |held| <= |h|
    && held == h[|h| - |held|..]
    && SortedBy(h, Earlier) && (forall i :: 0 <= i < |h| ==> h[i] <= clock)
    && (forall i :: 0 <= i < |h| - |held| ==> h[i] <= clock - window)
    && Spaced(h, maximum, window)
  }

  lemma KeyLater(held: seq<int>, h: seq<int>, clock: int, maximum: nat, window: nat, now: int)
    requires KeyOk(held, h, clock, maximum, window) && clock <= now
    ensures KeyOk(held, h, now, maximum, window)
  {
  }

  /** Dropping what left the window drops a prefix. */
  lemma KeptIsSuffix(held: seq<int>, cutoff: int)
    requires SortedBy(held, Earlier)
    ensures var kept := Filter(held, Newer(cutoff));
      && |kept| <= |held| && kept == held[|held| - |kept|..]
      && forall i :: 0 <= i < |held| ==> (held[i] <= cutoff <==> i < |held| - |kept|)
  {
    var expired: int -> bool := (t: int) => t <= cutoff;
    FilterSuffix(held, expired, Newer(cutoff), Earlier);
    FilterPrefix(held, expired, Earlier);
  }

  lemma TrimKeepsKey(held: seq<int>, h: seq<int>, clock: int, maximum: nat, window: nat, now: int)
    requires KeyOk(held, h, clock, maximum, window) && clock <= now
    ensures var kept := Filter(held, Newer(now - window));
      && |kept| <= |held| && kept == h[|h| - |kept|..]
      && (forall i :: 0 <= i < |h| - |kept| ==> h[i] <= now - window)
      && (kept != [] ==> kept[0] > now - window && KeyOk(kept, h, now, maximum, window))
  {
    var kept := Filter(held, Newer(now - window));
    var n := |h| - |held|;
    assert SortedBy(held, Earlier) by {
      forall i, j | 0 <= i < j < |held| ensures Earlier(held[i], held[j]) {
        assert held[i] == h[n + i] && held[j] == h[n + j];
        assert Earlier(h[n + i], h[n + j]);
      }
    }
    KeptIsSuffix(held, now - window);
    forall i | 0 <= i < |h| - |kept| ensures h[i] <= now - window {
      if i >= n { assert h[i] == held[i - n]; }
    }
  }

  lemma PushKeepsKey(kept: seq<int>, h: seq<int>, now: int, maximum: nat, window: nat)
    requires |kept| < maximum && |kept| <= |h| && kept == h[|h| - |kept|..]
    requires SortedBy(h, Earlier) && (forall i :: 0 <= i < |h| ==> h[i] <= now) && Spaced(h, maximum, window)
    requires forall i :: 0 <= i < |h| - |kept| ==> h[i] <= now - window
    ensures KeyOk(kept + [now], h + [now], now, maximum, window)
  {
    var g := h + [now];
    forall i, j | 0 <= i && j == i + maximum && j < |g| ensures g[j] >= g[i] + window {
      if j < |h| { assert h[j] >= h[i] + window; }
    }
    assert kept + [now] == g[|g| - (|kept| + 1)..];
  }

  /** One call on a known key: trimmed, then extended unless it is full. */
  lemma CallKeepsKey(held: seq<int>, h: seq<int>, clock: int, maximum: nat, window: nat, now: int)
    requires KeyOk(held, h, clock, maximum, window) && clock <= now
    ensures var kept := Filter(held, Newer(now - window));
      if |kept| < maximum then KeyOk(kept + [now], h + [now], now, maximum, window)
      else KeyOk(kept, h, now, maximum, window) && |kept| == maximum && kept[0] > now - window
  {
    var kept := Filter(held, Newer(now - window));
    TrimKeepsKey(held, h, clock, maximum, window, now);
    if |kept| < maximum { PushKeepsKey(kept, h, now, maximum, window); }
  }

  lemma FirstCall(maximum: nat, window: nat, now: int)
    requires maximum >= 1
    ensures KeyOk([] + [now], [] + [now], now, maximum, window)
  {
  }

  function InWindow(t: int, window: nat): int -> bool {
    (x: int) => t - window < x <= t
  }

  lemma {:induction false} LongFilterSpans(h: seq<int>, t: int, window: nat, n: nat) returns (i: nat, j: nat)
    requires SortedBy(h, Earlier) && |Filter(h, InWindow(t, window))| > n
    ensures i + n <= j < |h| && InWindow(t, window)(h[i]) && InWindow(t, window)(h[j])
    decreases |h|
  {
    var init, x := h[..|h| - 1], h[|h| - 1];
    SplitLast(h);
    FilterAppend(init, [x], InWindow(t, window));
    assert [x][1..] == [];
    if !InWindow(t, window)(x) {
      i, j := LongFilterSpans(init, t, window, n);
    } else if n == 0 {
      i, j := |h| - 1, |h| - 1;
    } else {
      i, j := LongFilterSpans(init, t, window, n - 1);
      j := |h| - 1;
    }
  }

  lemma SpacedApart(h: seq<int>, maximum: nat, window: nat, i: nat, j: nat)
    requires SortedBy(h, Earlier) && Spaced(h, maximum, window) && i + maximum <= j < |h|
    ensures h[j] >= h[i] + window
  {
    assert h[i + maximum] >= h[i] + window;
    assert i + maximum == j || Earlier(h[i + maximum], h[j]);
  }

  /** A spaced history has at most `maximum` entries in any window, wherever it is placed. */
  lemma SpacedBoundsWindow(h: seq<int>, maximum: nat, window: nat, t: int)
    requires SortedBy(h, Earlier) && Spaced(h, maximum, window)
    ensures |Filter(h, InWindow(t, window))| <= maximum
  {
    if |Filter(h, InWindow(t, window))| > maximum {
      var i, j := LongFilterSpans(h, t, window, maximum);
      SpacedApart(h, maximum, window, i, j);
    }
  }

  // ----- the whole limiter -----

  ghost predicate KeyAt(t: Tracked, k: int) {
    k in t.limiter.requests ==>
      k in t.allowed && KeyOk(t.limiter.requests[k], t.allowed[k], t.clock, t.limiter.maximum, t.limiter.window)
  }

  ghost predicate Inv(t: Tracked) {
    && t.limiter.maximum >= 1 && t.limiter.window >= 1 && t.limiter.keys >= 1
    && Distinct(t.limiter.order) && |t.limiter.order| <= t.limiter.keys
    && (forall k :: k in t.limiter.order <==> k in t.limiter.requests)
    && (forall k :: k in t.allowed <==> k in t.limiter.requests)
    && forall k :: KeyAt(t, k)
  }

  lemma {:induction false} RemovedShortens(order: seq<int>, key: int)
    requires Distinct(order) && key in order
    ensures |Filter(order, Other(key))| == |order| - 1
    decreases |order|
  {
    assert order == [order[0]] + order[1..];
    if order[0] == key {
      FilterAll(order[1..], Other(key));
    } else {
      RemovedShortens(order[1..], key);
    }
  }

  /** No key's last held call is earlier, and none with the same one is smaller; a key without one counts as called at 0. */
  ghost predicate Oldest(l: Limiter, oldest: int) {
    && oldest in l.requests
    && var a := l.requests[oldest];
    forall k :: k in l.requests ==>
      var b := l.requests[k];
      var last, other := if a == [] then 0 else a[|a| - 1], if b == [] then 0 else b[|b| - 1];
      last < other || (last == other && oldest <= k)
  }

  lemma ByLastOrders(l: Limiter)
    ensures TotalPreorder(ByLast(l))
  {
  }

  lemma OldestIsFirst(l: Limiter)
    requires l.order != [] && forall k :: k in l.order <==> k in l.requests
    ensures SortBy(l.order, ByLast(l)) != [] && SortBy(l.order, ByLast(l))[0] in l.order
    ensures Oldest(l, SortBy(l.order, ByLast(l))[0])
  {
    ByLastOrders(l);
    FirstIsLeast(l.order, ByLast(l), l.order[0]);
    var oldest := SortBy(l.order, ByLast(l))[0];
    forall k | k in l.requests ensures ByLast(l)(oldest, k) { FirstIsLeast(l.order, ByLast(l), k); }
  }

  /** Eviction takes the key whose last allowed call is the oldest, and only that one. */
  lemma EvictionTakesOldest(l: Limiter)
    requires l.order != [] && Distinct(l.order) && forall k :: k in l.order <==> k in l.requests
    ensures var e := EvictOldest(l);
      && |e.order| == |l.order| - 1 && Distinct(e.order)
      && (forall k :: k in e.order <==> k in e.requests)
      && exists oldest :: Oldest(l, oldest) && e.requests == l.requests - {oldest}
  {
    OldestIsFirst(l);
    var oldest := SortBy(l.order, ByLast(l))[0];
    RemovedShortens(l.order, oldest);
    FilterDistinct(l.order, Other(oldest));
    FilterElements(l.order, Other(oldest));
  }

  lemma RoomMade(l: Limiter, key: int)
    requires l.keys >= 1 && Distinct(l.order) && |l.order| <= l.keys && forall k :: k in l.order <==> k in l.requests
    ensures var room := MakeRoom(l, key);
      && Distinct(room.order) && (forall k :: k in room.order <==> k in room.requests)
      && (key in l.requests ==> room == l)
      && (key !in l.requests ==> key !in room.requests && |room.order| < l.keys)
      && room.maximum == l.maximum && room.window == l.window && room.keys == l.keys
      && forall k :: k in room.requests ==> k in l.requests && room.requests[k] == l.requests[k]
  {
    if key !in l.requests && |l.order| >= l.keys { EvictionTakesOldest(l); }
  }

  function KeptBefore(t: Tracked, call: Call): seq<int> {
    if call.key in t.limiter.requests then Filter(t.limiter.requests[call.key], Newer(call.at - t.limiter.window)) else []
  }

  function PastOf(t: Tracked, call: Call): seq<int> {
    if call.key in t.limiter.requests then AllowedOf(t, call.key) else []
  }

  lemma DecidedBy(t: Tracked, call: Call)
    requires Inv(t)
    ensures var d, kept := Decide(t.limiter, call.key, call.at), KeptBefore(t, call);
      && Kept(MakeRoom(t.limiter, call.key), call.key, call.at) == kept
      && (d.allowed <==> |kept| < t.limiter.maximum)
      && (!d.allowed ==> d.retryAfterSeconds == Max(1, CeilSeconds(kept[0] + t.limiter.window - call.at)))
  {
    RoomMade(t.limiter, call.key);
  }

  lemma TrackedAt(t: Tracked, call: Call)
    requires Inv(t) && Track(t, call).Ok?
    ensures var u, kept, past := Track(t, call).value, KeptBefore(t, call), PastOf(t, call);
      && call.key in u.limiter.requests && call.key in u.allowed
      && u.limiter.requests[call.key] == (if |kept| < t.limiter.maximum then kept + [call.at] else kept)
      && u.allowed[call.key] == (if |kept| < t.limiter.maximum then past + [call.at] else past)
      && u.limiter.maximum == t.limiter.maximum && u.limiter.window == t.limiter.window && u.clock == call.at
  {
    DecidedBy(t, call);
    RoomMade(t.limiter, call.key);
  }

  lemma TrackKey(t: Tracked, call: Call)
    requires Inv(t) && Track(t, call).Ok?
    ensures KeyAt(Track(t, call).value, call.key)
  {
    var l := t.limiter;
    TrackedAt(t, call);
    if call.key in l.requests {
      assert KeyAt(t, call.key);
      CallKeepsKey(l.requests[call.key], t.allowed[call.key], t.clock, l.maximum, l.window, call.at);
    } else {
      FirstCall(l.maximum, l.window, call.at);
    }
  }

  lemma TrackOther(t: Tracked, call: Call, k: int)
    requires Inv(t) && Track(t, call).Ok? && k != call.key
    ensures KeyAt(Track(t, call).value, k)
  {
    RoomMade(t.limiter, call.key);
    assert KeyAt(t, k);
    if k in Track(t, call).value.limiter.requests {
      KeyLater(t.limiter.requests[k], t.allowed[k], t.clock, t.limiter.maximum, t.limiter.window, call.at);
    }
  }

  lemma TrackKeepsInv(t: Tracked, call: Call)
    requires Inv(t) && Track(t, call).Ok?
    ensures Inv(Track(t, call).value)
  {
    var u := Track(t, call).value;
    RoomMade(t.limiter, call.key);
    forall k ensures KeyAt(u, k) {
      if k == call.key { TrackKey(t, call); } else { TrackOther(t, call, k); }
    }
  }

  lemma {:induction false} RunKeepsInv(t: Tracked, calls: seq<Call>)
    requires Inv(t) && Run(Track, t, calls).Ok?
    ensures Inv(Run(Track, t, calls).value)
    decreases |calls|
  {
    if calls != [] {
      TrackKeepsInv(t, calls[0]);
      RunKeepsInv(Track(t, calls[0]).value, calls[1..]);
    }
  }

  /**
   In every run with non-decreasing times, no window holds more than `maximum` allowed calls of a key since
   it was last evicted, and there are never more than `keys` keys.
   */
  lemma WindowBound(maximum: nat, window: nat, keys: nat, clock: int, calls: seq<Call>, key: int, at: int)
    requires maximum >= 1 && window >= 1 && keys >= 1
    requires Run(Track, Fresh(maximum, window, keys, clock), calls).Ok?
    ensures var t := Run(Track, Fresh(maximum, window, keys, clock), calls).value;
      && |t.limiter.order| <= keys
      && |Filter(AllowedOf(t, key), InWindow(at, window))| <= maximum
  {
    var t := Run(Track, Fresh(maximum, window, keys, clock), calls).value;
    RunKeepsInv(Fresh(maximum, window, keys, clock), calls);
    RunKeepsBounds(Fresh(maximum, window, keys, clock), calls);
    assert KeyAt(t, key);
    if key in t.allowed { SpacedBoundsWindow(t.allowed[key], maximum, window, at); }
  }

  lemma {:induction false} RunKeepsBounds(t: Tracked, calls: seq<Call>)
    requires Run(Track, t, calls).Ok?
    ensures var u := Run(Track, t, calls).value.limiter;
      u.maximum == t.limiter.maximum && u.window == t.limiter.window && u.keys == t.limiter.keys
    decreases |calls|
  {
    if calls != [] { RunKeepsBounds(Track(t, calls[0]).value, calls[1..]); }
  }

  lemma HeldSorted(held: seq<int>, h: seq<int>, clock: int, maximum: nat, window: nat)
    requires KeyOk(held, h, clock, maximum, window)
    ensures SortedBy(held, Earlier)
  {
    var n := |h| - |held|;
    forall i, j | 0 <= i < j < |held| ensures Earlier(held[i], held[j]) {
      assert held[i] == h[n + i] && held[j] == h[n + j];
      assert Earlier(h[n + i], h[n + j]);
    }
  }

  /** Of the held calls the first `n` have left the window and the others have not. */
  ghost predicate Splits(held: seq<int>, n: nat, cutoff: int) {
    && n <= |held|
    && (forall i :: 0 <= i < n ==> held[i] <= cutoff)
    && forall i :: n <= i < |held| ==> held[i] > cutoff
  }

  lemma HeldSplits(t: Tracked, key: int, now: int) returns (n: nat)
    requires Inv(t)
    ensures var held := if key in t.limiter.requests then t.limiter.requests[key] else [];
      Splits(held, n, now - t.limiter.window) && KeptBefore(t, Call(key, now)) == held[n..]
  {
    n := 0;
    if key in t.limiter.requests {
      var held := t.limiter.requests[key];
      assert KeyAt(t, key);
      HeldSorted(held, t.allowed[key], t.clock, t.limiter.maximum, t.limiter.window);
      KeptIsSuffix(held, now - t.limiter.window);
      n := |held| - |KeptBefore(t, Call(key, now))|;
    }
  }

  /** A full key's next call is allowed exactly from the instant its oldest held call leaves the window. */
  lemma FullUntil(u: Tracked, key: int, later: int)
    requires Inv(u) && key in u.limiter.requests && |u.limiter.requests[key]| == u.limiter.maximum && u.clock <= later
    ensures Decide(u.limiter, key, later).allowed <==> later >= u.limiter.requests[key][0] + u.limiter.window
  {
    var n := HeldSplits(u, key, later);
    DecidedBy(u, Call(key, later));
  }

  lemma RefusedIsFull(t: Tracked, key: int, now: int)
    requires Inv(t) && t.clock <= now && !Decide(t.limiter, key, now).allowed
    ensures var kept := KeptBefore(t, Call(key, now));
      && |kept| == t.limiter.maximum && kept[0] > now - t.limiter.window
      && Decide(t.limiter, key, now).retryAfterSeconds == Max(1, CeilSeconds(kept[0] + t.limiter.window - now))
  {
    DecidedBy(t, Call(key, now));
    assert KeyAt(t, key);
    if key in t.limiter.requests {
      CallKeepsKey(t.limiter.requests[key], t.allowed[key], t.clock, t.limiter.maximum, t.limiter.window, now);
    }
  }

  /** The key is not evicted while the calls are made. */
  predicate Stays(t: Tracked, calls: seq<Call>, key: int)
    decreases |calls|
  {
    calls == [] || (key in MakeRoom(t.limiter, calls[0].key).requests && Track(t, calls[0]).Ok? &&
                    Stays(Track(t, calls[0]).value, calls[1..], key))
  }

  /** The calls for the key come before the given instant; calls for other keys may come at any time. */
  predicate OwnBefore(calls: seq<Call>, key: int, instant: int) {
    forall i :: 0 <= i < |calls| ==> calls[i].key == key ==> calls[i].at < instant
  }

  lemma OwnCallLeavesFull(u: Tracked, call: Call)
    requires Inv(u) && call.key in u.limiter.requests && |u.limiter.requests[call.key]| == u.limiter.maximum
    requires Track(u, call).Ok? && call.at < u.limiter.requests[call.key][0] + u.limiter.window
    ensures var v := Track(u, call).value;
      call.key in v.limiter.requests && v.limiter.requests[call.key] == u.limiter.requests[call.key]
  {
    var held := u.limiter.requests[call.key];
    assert KeyAt(u, call.key);
    HeldSorted(held, u.allowed[call.key], u.clock, u.limiter.maximum, u.limiter.window);
    forall i | 0 <= i < |held| ensures Newer(call.at - u.limiter.window)(held[i]) {
      assert i == 0 || Earlier(held[0], held[i]);
    }
    FilterAll(held, Newer(call.at - u.limiter.window));
    TrackedAt(u, call);
  }

  lemma OtherCallLeaves(u: Tracked, call: Call, key: int)
    requires Inv(u) && Track(u, call).Ok? && call.key != key && key in MakeRoom(u.limiter, call.key).requests
    ensures var v := Track(u, call).value;
      key in u.limiter.requests && key in v.limiter.requests && v.limiter.requests[key] == u.limiter.requests[key]
  {
    RoomMade(u.limiter, call.key);
  }

  /** One more call leaves a full key as it is, unless its oldest held call has left the window by then. */
  lemma CallLeavesFull(u: Tracked, call: Call, key: int)
    requires Inv(u) && key in u.limiter.requests && |u.limiter.requests[key]| == u.limiter.maximum && Track(u, call).Ok?
    requires key in MakeRoom(u.limiter, call.key).requests
    requires call.key == key ==> call.at < u.limiter.requests[key][0] + u.limiter.window
    ensures var v := Track(u, call).value;
      && key in v.limiter.requests && v.limiter.requests[key] == u.limiter.requests[key]
      && v.limiter.maximum == u.limiter.maximum && v.limiter.window == u.limiter.window
  {
    TrackedAt(u, call);
    if call.key == key { OwnCallLeavesFull(u, call); } else { OtherCallLeaves(u, call, key); }
  }

  lemma {:induction false} FullStays(u: Tracked, calls: seq<Call>, key: int)
    requires Inv(u) && key in u.limiter.requests && |u.limiter.requests[key]| == u.limiter.maximum
    requires Stays(u, calls, key) && OwnBefore(calls, key, u.limiter.requests[key][0] + u.limiter.window)
    ensures Run(Track, u, calls).Ok?
    ensures var v := Run(Track, u, calls).value;
      && Inv(v) && key in v.limiter.requests && v.limiter.requests[key] == u.limiter.requests[key]
      && v.limiter.maximum == u.limiter.maximum && v.limiter.window == u.limiter.window
    decreases |calls|
  {
    if calls != [] {
      CallLeavesFull(u, calls[0], key);
      TrackKeepsInv(u, calls[0]);
      assert forall i :: 0 <= i < |calls[1..]| ==> calls[1..][i] == calls[i + 1];
      FullStays(Track(u, calls[0]).value, calls[1..], key);
    }
  }

  /** The limiter right after the call and the calls that follow it. */
  function Later(t: Tracked, key: int, now: int, calls: seq<Call>): Result<Tracked, RunError> {
    Run(Track, t, [Call(key, now)] + calls)
  }

  lemma LaterRuns(t: Tracked, key: int, now: int, calls: seq<Call>)
    requires t.clock <= now
    ensures Track(t, Call(key, now)).Ok? && Later(t, key, now, calls) == Run(Track, Track(t, Call(key, now)).value, calls)
  {
    assert ([Call(key, now)] + calls)[1..] == calls;
  }

  /**
   After a refusal, and whatever calls follow as long as the key is not evicted, the key's next call is allowed
   exactly from the instant its oldest held call leaves the window.
   */
  lemma RefusedUntil(t: Tracked, key: int, now: int, calls: seq<Call>, later: int)
    requires Inv(t) && t.clock <= now && !Decide(t.limiter, key, now).allowed
    requires Stays(Track(t, Call(key, now)).value, calls, key)
    requires OwnBefore(calls, key, KeptBefore(t, Call(key, now))[0] + t.limiter.window)
    ensures Later(t, key, now, calls).Ok?
    ensures var v := Later(t, key, now, calls).value;
      v.clock <= later ==>
        (Decide(v.limiter, key, later).allowed <==> later >= KeptBefore(t, Call(key, now))[0] + t.limiter.window)
  {
    var u := Track(t, Call(key, now)).value;
    LaterRuns(t, key, now, calls);
    RefusedIsFull(t, key, now);
    TrackedAt(t, Call(key, now));
    TrackKeepsInv(t, Call(key, now));
    FullStays(u, calls, key);
    var v := Run(Track, u, calls).value;
    if v.clock <= later { FullUntil(v, key, later); }
  }

  lemma RoundsUp(x: int)
    requires x > 0
    ensures Max(1, CeilSeconds(x)) == CeilSeconds(x) && 1000 * (CeilSeconds(x) - 1) < x <= 1000 * CeilSeconds(x)
  {
  }

  /**
   `retryAfterSeconds` is the least whole number of seconds after which retrying succeeds, whatever calls come
   in between, as long as the key is not evicted and is not used again once its oldest held call has left the
   window.
   */
  lemma RetryAfterIsExact(t: Tracked, key: int, now: int, calls: seq<Call>)
    requires Inv(t) && t.clock <= now && !Decide(t.limiter, key, now).allowed
    requires Stays(Track(t, Call(key, now)).value, calls, key)
    requires OwnBefore(calls, key, KeptBefore(t, Call(key, now))[0] + t.limiter.window)
    ensures Later(t, key, now, calls).Ok? && Decide(t.limiter, key, now).retryAfterSeconds >= 1
    ensures var v, wait := Later(t, key, now, calls).value, Decide(t.limiter, key, now).retryAfterSeconds;
      && (v.clock <= now + 1000 * wait ==> Decide(v.limiter, key, now + 1000 * wait).allowed)
      && (v.clock <= now + 1000 * (wait - 1) ==> !Decide(v.limiter, key, now + 1000 * (wait - 1)).allowed)
  {
    var wait := Decide(t.limiter, key, now).retryAfterSeconds;
    RefusedIsFull(t, key, now);
    RoundsUp(KeptBefore(t, Call(key, now))[0] + t.limiter.window - now);
    RefusedUntil(t, key, now, calls, now + 1000 * wait);
    RefusedUntil(t, key, now, calls, now + 1000 * (wait - 1));
  }

  /** A key that is not held, because it was evicted or never called, is allowed at once. */
  lemma EvictedIsAllowed(t: Tracked, key: int, now: int)
    requires Inv(t) && key !in t.limiter.requests
    ensures Decide(t.limiter, key, now).allowed
  {
    DecidedBy(t, Call(key, now));
  }

  // ----- what one call does -----

  /**
   The call is allowed if fewer than the maximum are left in the window, and then held itself; otherwise the wait,
   in whole seconds, is the least after which the oldest of them has left it.
   */
  ghost predicate Decides(l: Limiter, m: Limiter, key: int, now: int, d: Decision, n: nat) {
    var held := if key in l.requests then l.requests[key] else [];
    && Splits(held, n, now - l.window) && key in m.requests
    && (d.allowed <==> |held| - n < l.maximum)
    && m.requests[key] == held[n..] + (if d.allowed then [now] else [])
    && (d.allowed ==> d.retryAfterSeconds == 0)
    && (!d.allowed ==> n < |held| && 1000 * (d.retryAfterSeconds - 1) < held[n] + l.window - now <= 1000 * d.retryAfterSeconds)
  }

  /** The other keys keep their calls; the oldest of them is forgotten if there was no room for a new key. */
  ghost predicate Spares(l: Limiter, m: Limiter, key: int) {
    if key in l.requests || |l.order| < l.keys then
      forall k :: k != key ==> (k in m.requests <==> k in l.requests) && (k in l.requests ==> m.requests[k] == l.requests[k])
    else
      exists oldest :: Oldest(l, oldest) &&
        forall k :: k != key ==>
          (k in m.requests <==> k in l.requests && k != oldest) && (k in m.requests ==> m.requests[k] == l.requests[k])
  }

  lemma AllowDecides(t: Tracked, key: int, now: int) returns (n: nat)
    requires Inv(t) && t.clock <= now
    ensures Decides(t.limiter, Allow(t.limiter, key, now), key, now, Decide(t.limiter, key, now), n)
  {
    var l, call := t.limiter, Call(key, now);
    var held := if key in l.requests then l.requests[key] else [];
    var kept := KeptBefore(t, call);
    DecidedBy(t, call);
    TrackedAt(t, call);
    n := HeldSplits(t, key, now);
    if !Decide(l, key, now).allowed {
      RefusedIsFull(t, key, now);
      RoundsUp(kept[0] + l.window - now);
    }
  }

  lemma AllowSpares(t: Tracked, key: int, now: int)
    requires Inv(t)
    ensures Spares(t.limiter, Allow(t.limiter, key, now), key)
  {
    if key !in t.limiter.requests && |t.limiter.order| >= t.limiter.keys { EvictionTakesOldest(t.limiter); }
  }

  // ----- the limiter object -----

  class SlidingWindowRateLimiter {
    const maximumRequests: nat
    const windowMilliseconds: nat
    const maximumKeys: nat
    var order: seq<int>
    var requests: map<int, seq<int>>

    function State(): Limiter
      reads this
    {
      Limiter(maximumRequests, windowMilliseconds, maximumKeys, order, requests)
    }

    constructor (maximumRequests: nat, windowMilliseconds: nat, maximumKeys: nat)
      requires maximumRequests >= 1 && windowMilliseconds >= 1 && maximumKeys >= 1
      ensures forall clock :: Inv(Tracked(State(), map[], clock))
      ensures State() == Limiter(maximumRequests, windowMilliseconds, maximumKeys, [], map[])
    {
      this.maximumRequests, this.windowMilliseconds, this.maximumKeys := maximumRequests, windowMilliseconds, maximumKeys;
      order, requests := [], map[];
    }

    method EvictOldestKey()
      modifies this
      ensures State() == EvictOldest(old(State()))
      ensures old(order != [] && Distinct(order) && forall k :: k in order <==> k in requests) ==>
        exists oldest :: old(Oldest(State(), oldest)) && requests == old(requests) - {oldest}
    {
      if order != [] && Distinct(order) && forall k :: k in order <==> k in requests { EvictionTakesOldest(State()); }
      var sorted := SortBy(order, ByLast(State()));
      SortElements(order, ByLast(State()));
      if order != [] {
        var oldest := sorted[0];
        order := Filter(order, Other(oldest));
        requests := requests - {oldest};
      }
    }

    method PutRequests(key: int, held: seq<int>)
      modifies this
      ensures State() == Put(old(State()), key, held)
    {
      if key !in requests { order := order + [key]; }
      requests := requests[key := held];
    }

    method AllowCall(key: int, now: int) returns (decision: Decision)
      requires maximumRequests >= 1
      modifies this
      ensures decision == Decide(old(State()), key, now) && State() == Allow(old(State()), key, now)
      ensures forall t: Tracked :: Inv(t) && t.limiter == old(State()) && t.clock <= now ==>
        && Spares(old(State()), State(), key)
        && exists n: nat :: Decides(old(State()), State(), key, now, decision, n)
    {
      forall t: Tracked | Inv(t) && t.limiter == State() && t.clock <= now
        ensures Spares(State(), Allow(State(), key, now), key)
        ensures exists n: nat :: Decides(State(), Allow(State(), key, now), key, now, Decide(State(), key, now), n)
      {
        AllowSpares(t, key, now);
        var n := AllowDecides(t, key, now);
      }
      if key !in requests && |order| >= maximumKeys { EvictOldestKey(); }
      var cutoff := now - windowMilliseconds;
      var kept := Filter(if key in requests then requests[key] else [], Newer(cutoff));
      if |kept| >= maximumRequests {
        PutRequests(key, kept);
        return Decision(false, Max(1, CeilSeconds(kept[0] + windowMilliseconds - now)));
      }
      kept := kept + [now];
      PutRequests(key, kept);
      return Decision(true, 0);
    }
  }
}
