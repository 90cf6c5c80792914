/** Least-recently-used order over a history of uses. */
module RecencyOrder {
  datatype Key = Key(z: int, x: int, y: int)

  function Remove(s: seq<Key>, k: Key): seq<Key> {
    if s == [] then [] else Remove(s[..|s| - 1], k) + if s[|s| - 1] == k then [] else [s[|s| - 1]]
  }

  /** All keys used so far, the one used longest ago first. */
  function ByLastUse(uses: seq<Key>): seq<Key> {
    if uses == [] then [] else Remove(ByLastUse(uses[..|uses| - 1]), uses[|uses| - 1]) + [uses[|uses| - 1]]
  }

  function Newest(s: seq<Key>, n: nat): seq<Key> { if |s| <= n then s else s[|s| - n..] }

  ghost predicate Distinct(s: seq<Key>) { forall i, j | 0 <= i < j < |s| :: s[i] != s[j] }

  lemma {:induction false} RemoveAbsent(s: seq<Key>, k: Key)
    requires k !in s
    ensures Remove(s, k) == s
  {
    if s != [] {
      RemoveAbsent(s[..|s| - 1], k);
    }
  }

  lemma {:induction false} RemoveAt(s: seq<Key>, i: nat)
    requires Distinct(s) && i < |s|
    ensures Remove(s, s[i]) == s[..i] + s[i + 1..]
  {
    var n := |s| - 1;
    if i == n {
      RemoveAbsent(s[..n], s[i]);
    } else {
      RemoveAt(s[..n], i);
      assert s[..n][..i] == s[..i] && s[..n][i + 1..] + [s[n]] == s[i + 1..];
    }
  }

  lemma {:induction false} ByLastUseDistinct(uses: seq<Key>)
    ensures Distinct(ByLastUse(uses))
  {
    if uses != [] {
      var before, k := ByLastUse(uses[..|uses| - 1]), uses[|uses| - 1];
      ByLastUseDistinct(uses[..|uses| - 1]);
      if k in before {
        var i :| 0 <= i < |before| && before[i] == k;
        RemoveAt(before, i);
      } else {
        RemoveAbsent(before, k);
      }
    }
  }

  lemma {:induction false} UseStep(uses: seq<Key>, k: Key)
    ensures ByLastUse(uses + [k]) == Remove(ByLastUse(uses), k) + [k]
  {
    assert (uses + [k])[..|uses|] == uses;
  }

  /** The last `n` of a list and one more element. */
  lemma {:induction false} NewestAppend(s: seq<Key>, n: nat, k: Key)
    ensures Newest(s + [k], n) == if n == 0 then [] else Newest(s, n - 1) + [k]
  {
  }

  lemma {:induction false} NewestOfNewest(s: seq<Key>, m: nat, n: nat)
    requires m <= n
    ensures Newest(Newest(s, n), m) == Newest(s, m)
  {
  }

  lemma {:induction false} NewestParts(s: seq<Key>, n: nat)
    ensures |Newest(s, n)| <= |s| && s == s[..|s| - |Newest(s, n)|] + Newest(s, n)
  {
  }

  lemma {:induction false} NewestTail(a: seq<Key>, b: seq<Key>, n: nat)
    requires |b| == n || a == []
    ensures |b| <= n ==> Newest(a + b, n) == b
  {
    assert a == [] ==> a + b == b;
  }

  /** Using a cached key moves it to the end. */
  lemma {:induction false} HitOrder(s: seq<Key>, n: nat, i: nat)
    requires Distinct(s) && i < |Newest(s, n)|
    ensures
      var c := Newest(s, n);
      Newest(Remove(s, c[i]) + [c[i]], n) == c[..i] + c[i + 1..] + [c[i]]
  {
    var c := Newest(s, n);
    var older := s[..|s| - |c|];
    NewestParts(s, n);
    RemoveInTail(s, older, c, i);
    var moved := c[..i] + c[i + 1..] + [c[i]];
    assert older + (c[..i] + c[i + 1..]) + [c[i]] == older + moved;
    NewestTail(older, moved, n);
  }

  lemma {:induction false} RemoveInTail(s: seq<Key>, a: seq<Key>, c: seq<Key>, i: nat)
    requires s == a + c && Distinct(s) && i < |c|
    ensures Remove(s, c[i]) == a + (c[..i] + c[i + 1..])
  {
    RemoveAt(s, |a| + i);
    assert s[..|a| + i] == a + c[..i] && s[|a| + i + 1..] == c[i + 1..];
  }

  lemma {:induction false} RemoveInHead(s: seq<Key>, a: seq<Key>, c: seq<Key>, i: nat)
    requires s == a + c && Distinct(s) && i < |a|
    ensures Remove(s, a[i]) == (a[..i] + a[i + 1..]) + c
  {
    RemoveAt(s, i);
    assert s[i] == a[i] && s[..i] == a[..i] && s[i + 1..] == a[i + 1..] + c;
  }

  /** Using an uncached key drops the oldest cached one when there is no room. */
  lemma {:induction false} FillOrder(s: seq<Key>, n: nat, k: Key)
    requires Distinct(s) && k !in Newest(s, n)
    ensures Newest(Remove(s, k) + [k], n) == Newest(Newest(s, n) + [k], n)
  {
    var c := Newest(s, n);
    var a := s[..|s| - |c|];
    NewestParts(s, n);
    if k in s {
      var i :| 0 <= i < |a| && a[i] == k;
      RemoveInHead(s, a, c, i);
      var rest := a[..i] + a[i + 1..];
      NewestTail(rest, c, n);
      NewestAppend(rest + c, n, k);
      NewestAppend(c, n, k);
      if n > 0 {
        NewestOfNewest(rest + c, n - 1, n);
      }
    } else {
      RemoveAbsent(s, k);
      NewestAppend(s, n, k);
      NewestAppend(c, n, k);
      if n > 0 {
        NewestOfNewest(s, n - 1, n);
      }
    }
  }
}

/**
  The renderer's tile cache: requests that coalesce, timers that fill it, aborts
  that cancel, and viewports that load their tiles a few at a time.
 */
module TileCaching {
  import opened RecencyOrder

  type Tile = seq<int>

  datatype Entry = Entry(key: Key, data: Tile)

  datatype Signal = NoSignal | Signal(id: nat)

  datatype Promise = Waiting(key: Key, signal: Signal) | Fulfilled(key: Key, data: Tile) | Rejected(key: Key)

  datatype Stats = Stats(requests: nat, hits: nat, misses: nat, evictions: nat, cancelled: nat)

  // ----- The entries -----

  function Keys(entries: seq<Entry>): (ks: seq<Key>)
    ensures |ks| == |entries|
  {
    seq(|entries|, i requires 0 <= i < |entries| => entries[i].key)
  }

  /** The cache holds the tiles of the most recently used keys, oldest use first. */
  ghost predicate HoldsRecent(tile: Key -> Tile, capacity: nat, entries: seq<Entry>, uses: seq<Key>) {
    && Keys(entries) == Newest(ByLastUse(uses), capacity)
    && TilesOk(tile, entries)
  }

  ghost predicate TilesOk(tile: Key -> Tile, entries: seq<Entry>) {
    forall i | 0 <= i < |entries| :: entries[i].data == tile(entries[i].key)
  }

  function Moved(entries: seq<Entry>, i: nat): (r: seq<Entry>)
    requires i < |entries|
    ensures |r| == |entries| && r[|r| - 1] == entries[i]
    ensures forall j | 0 <= j < |r| :: r[j] == if j < i then entries[j] else if j < |r| - 1 then entries[j + 1] else entries[i]
  {
    entries[..i] + entries[i + 1..] + [entries[i]]
  }

  ghost predicate Cached(entries: seq<Entry>, k: Key) { exists i :: 0 <= i < |entries| && entries[i].key == k }

  lemma {:induction false} TouchKeepsRecent(tile: Key -> Tile, capacity: nat, entries: seq<Entry>, uses: seq<Key>, i: nat)
    requires HoldsRecent(tile, capacity, entries, uses) && i < |entries|
    ensures HoldsRecent(tile, capacity, Moved(entries, i), uses + [entries[i].key])
  {
    var k, c := entries[i].key, Keys(entries);
    KeysMoved(entries, i);
    HitNewest(uses, capacity, i);
  }

  lemma {:induction false} KeysMoved(entries: seq<Entry>, i: nat)
    requires i < |entries|
    ensures Keys(Moved(entries, i)) == Keys(entries)[..i] + Keys(entries)[i + 1..] + [entries[i].key]
  {
  }

  lemma {:induction false} HitNewest(uses: seq<Key>, n: nat, i: nat)
    requires i < |Newest(ByLastUse(uses), n)|
    ensures
      var c := Newest(ByLastUse(uses), n);
      Newest(ByLastUse(uses + [c[i]]), n) == c[..i] + c[i + 1..] + [c[i]]
  {
    var c := Newest(ByLastUse(uses), n);
    ByLastUseDistinct(uses);
    UseStep(uses, c[i]);
    HitOrder(ByLastUse(uses), n, i);
  }

  function Trim(entries: seq<Entry>, capacity: nat): seq<Entry> {
    if |entries| > capacity then entries[|entries| - capacity..] else entries
  }

  lemma {:induction false} FillNewest(uses: seq<Key>, n: nat, k: Key)
    requires k !in Newest(ByLastUse(uses), n)
    ensures Newest(ByLastUse(uses + [k]), n) == Newest(Newest(ByLastUse(uses), n) + [k], n)
  {
    ByLastUseDistinct(uses);
    UseStep(uses, k);
    FillOrder(ByLastUse(uses), n, k);
  }

  lemma {:induction false} KeysTrim(entries: seq<Entry>, capacity: nat)
    ensures Keys(Trim(entries, capacity)) == Newest(Keys(entries), capacity)
  {
  }

  lemma {:induction false} FillKeys(capacity: nat, entries: seq<Entry>, uses: seq<Key>, e: Entry)
    requires Keys(entries) == Newest(ByLastUse(uses), capacity) && e.key !in Keys(entries)
    ensures Keys(Trim(entries + [e], capacity)) == Newest(ByLastUse(uses + [e.key]), capacity)
  {
    FillNewest(uses, capacity, e.key);
    KeysAppend(entries, e);
    KeysTrim(entries + [e], capacity);
  }

  lemma {:induction false} KeysAppend(entries: seq<Entry>, e: Entry)
    ensures Keys(entries + [e]) == Keys(entries) + [e.key]
  {
  }

  lemma {:induction false} FillTiles(tile: Key -> Tile, entries: seq<Entry>, e: Entry, capacity: nat)
    requires TilesOk(tile, entries) && e.data == tile(e.key)
    ensures TilesOk(tile, Trim(entries + [e], capacity))
  {
  }

  lemma {:induction false} FillKeepsRecent(tile: Key -> Tile, capacity: nat, entries: seq<Entry>, uses: seq<Key>, k: Key)
    requires HoldsRecent(tile, capacity, entries, uses) && !Cached(entries, k)
    ensures HoldsRecent(tile, capacity, Trim(entries + [Entry(k, tile(k))], capacity), uses + [k])
  {
    UncachedKey(entries, k);
    FillKeys(capacity, entries, uses, Entry(k, tile(k)));
    FillTiles(tile, entries, Entry(k, tile(k)), capacity);
  }

  lemma {:induction false} UncachedKey(entries: seq<Entry>, k: Key)
    ensures k in Keys(entries) <==> Cached(entries, k)
  {
    if k in Keys(entries) {
      var i :| 0 <= i < |entries| && Keys(entries)[i] == k;
      assert entries[i].key == k;
    }
    if Cached(entries, k) {
      var i :| 0 <= i < |entries| && entries[i].key == k;
      assert Keys(entries)[i] == k;
    }
  }

  // ----- Pending requests -----

  ghost predicate PendingAt(pending: map<Key, nat>, promises: seq<Promise>, k: Key) {
    k in pending && pending[k] < |promises| && promises[pending[k]].Waiting? && promises[pending[k]].key == k
  }

  /** Pending keys and waiting promises correspond, and no pending key is cached. */
  ghost predicate PendingOk(entries: seq<Entry>, pending: map<Key, nat>, promises: seq<Promise>) {
    && (forall k {:trigger PendingAt(pending, promises, k)} | k in pending :: PendingAt(pending, promises, k))
    && (forall p: nat | p < |promises| && promises[p].Waiting? ::
          promises[p].key in pending && pending[promises[p].key] == p)
    && NonePending(entries, pending)
  }

  ghost predicate NonePending(entries: seq<Entry>, pending: map<Key, nat>) {
    forall i | 0 <= i < |entries| :: entries[i].key !in pending
  }

  lemma {:induction false} PendingAdd(entries: seq<Entry>, pending: map<Key, nat>, promises: seq<Promise>, k: Key, signal: Signal)
    requires PendingOk(entries, pending, promises) && k !in pending && !Cached(entries, k)
    ensures PendingOk(entries, pending[k := |promises|], promises + [Waiting(k, signal)])
  {
    var pending', promises' := pending[k := |promises|], promises + [Waiting(k, signal)];
    forall x | x in pending' ensures PendingAt(pending', promises', x) {
      assert x != k ==> PendingAt(pending, promises, x);
    }
  }

  lemma {:induction false} PendingAnswer(entries: seq<Entry>, pending: map<Key, nat>, promises: seq<Promise>, p: Promise)
    requires PendingOk(entries, pending, promises) && !p.Waiting?
    ensures PendingOk(entries, pending, promises + [p])
  {
    forall x | x in pending ensures PendingAt(pending, promises + [p], x) {
      assert PendingAt(pending, promises, x);
    }
  }

  lemma {:induction false} PendingSettle(entries: seq<Entry>, pending: map<Key, nat>, promises: seq<Promise>, p: nat, r: Promise)
    requires PendingOk(entries, pending, promises) && p < |promises| && promises[p].Waiting? && !r.Waiting?
    ensures PendingOk(entries, pending - {promises[p].key}, promises[p := r])
    ensures promises[p].key in pending && !Cached(entries, promises[p].key)
    ensures |pending - {promises[p].key}| == |pending| - 1
  {
    var k := promises[p].key;
    var pending', promises' := pending - {k}, promises[p := r];
    assert pending'.Keys == pending.Keys - {k};
    forall x | x in pending' ensures PendingAt(pending', promises', x) {
      assert PendingAt(pending, promises, x);
    }
  }

  lemma {:induction false} PendingFill(entries: seq<Entry>, pending: map<Key, nat>, promises: seq<Promise>, e: Entry, capacity: nat)
    requires PendingOk(entries, pending, promises) && e.key !in pending
    ensures PendingOk(Trim(entries + [e], capacity), pending, promises)
  {
  }

  lemma {:induction false} PendingMove(entries: seq<Entry>, pending: map<Key, nat>, promises: seq<Promise>, i: nat)
    requires PendingOk(entries, pending, promises) && i < |entries|
    ensures PendingOk(Moved(entries, i), pending, promises)
  {
  }

  ghost predicate AnswersOk(tile: Key -> Tile, promises: seq<Promise>) {
    forall i | 0 <= i < |promises| && promises[i].Fulfilled? :: promises[i].data == tile(promises[i].key)
  }

  /** A settled promise stays as it is; a waiting one keeps its key. */
  ghost predicate Settles(before: seq<Promise>, after: seq<Promise>) {
    && |before| <= |after|
    && forall p | 0 <= p < |before| ::
         after[p].key == before[p].key && (before[p].Waiting? || after[p] == before[p])
  }

  function Reject(p: Promise, signal: nat): Promise {
    if p.Waiting? && p.signal == Signal(signal) then Rejected(p.key) else p
  }

  // ----- Viewports -----

  datatype Viewport = Viewport(
    signal: nat, priority: seq<Key>, cursor: nat, started: seq<Key>, active: nat, waiting: seq<nat>, counted: nat,
    completed: nat, cancelled: nat, peak: nat, done: bool)

  /** Requests in flight, never above the cap, account for everything started and not yet counted. */
  ghost predicate InFlight(v: Viewport, promises: seq<Promise>, cap: nat) {
    && v.cursor <= |v.priority| && v.started == v.priority[..v.cursor]
    && v.active == |v.waiting| + v.counted <= cap && v.active <= v.peak <= cap && v.counted <= v.completed + v.cancelled
    && v.completed + v.cancelled + |v.waiting| == v.cursor
    && (forall p | p in v.waiting :: p < |promises|)
  }

  function Most(a: nat, b: nat): nat { if a < b then b else a }

  /** Between callbacks a viewport is done, or has started all it may; it once had as many in flight as the cap and its list allow. */
  ghost predicate ViewportOk(v: Viewport, promises: seq<Promise>, cap: nat) {
    && InFlight(v, promises, cap) && v.peak == (if cap < |v.priority| then cap else |v.priority|)
    && (v.done ==> v.cursor == |v.priority| && v.active == 0)
    && (!v.done ==> v.cursor == |v.priority| || v.active == cap)
    && (!v.done && cap > 0 && v.priority != [] ==> v.active > 0)
  }

  ghost predicate ViewportsOk(vs: seq<Viewport>, promises: seq<Promise>, cap: nat) {
    forall v | v in vs :: ViewportOk(v, promises, cap)
  }

  lemma {:induction false} ViewportsGrow(vs: seq<Viewport>, promises: seq<Promise>, promises': seq<Promise>, cap: nat)
    requires ViewportsOk(vs, promises, cap) && |promises| <= |promises'|
    ensures ViewportsOk(vs, promises', cap)
  {
    forall v | v in vs ensures ViewportOk(v, promises', cap) {
      assert ViewportOk(v, promises, cap);
    }
  }

  /** A finished viewport has settled every tile it asked for. */
  lemma {:induction false} DoneIsComplete(v: Viewport, promises: seq<Promise>, cap: nat)
    requires ViewportOk(v, promises, cap) && v.done
    ensures v.completed + v.cancelled == |v.priority| && v.started == v.priority
  {
    assert v.priority[..|v.priority|] == v.priority;
  }

  function Total(vs: seq<Viewport>, f: Viewport -> nat): nat {
    if vs == [] then 0 else Total(vs[..|vs| - 1], f) + f(vs[|vs| - 1])
  }

  lemma {:induction false} TotalUpdate(vs: seq<Viewport>, f: Viewport -> nat, i: nat, v: Viewport)
    requires i < |vs|
    ensures Total(vs[i := v], f) + f(vs[i]) == Total(vs, f) + f(v)
  {
    var n := |vs| - 1;
    if i == n {
      assert vs[i := v][..n] == vs[..n];
    } else {
      TotalUpdate(vs[..n], f, i, v);
      assert vs[i := v][..n] == vs[..n][i := v];
    }
  }

  lemma {:induction false} TotalAppend(vs: seq<Viewport>, f: Viewport -> nat, v: Viewport)
    ensures Total(vs + [v], f) == Total(vs, f) + f(v)
  {
    assert (vs + [v])[..|vs|] == vs;
  }

  const COMPLETED: Viewport -> nat := (v: Viewport) => v.completed
  const CANCELLED: Viewport -> nat := (v: Viewport) => v.cancelled
  const REQUESTED: Viewport -> nat := (v: Viewport) => |v.priority|

  /** The most any of the viewports had in flight. */
  function Top(vs: seq<Viewport>): nat { if vs == [] then 0 else Most(Top(vs[..|vs| - 1]), vs[|vs| - 1].peak) }

  lemma {:induction false} TopAbove(vs: seq<Viewport>, i: nat)
    requires i < |vs|
    ensures vs[i].peak <= Top(vs)
  {
    if i < |vs| - 1 {
      TopAbove(vs[..|vs| - 1], i);
    }
  }

  lemma {:induction false} TopUpdate(vs: seq<Viewport>, i: nat, v: Viewport)
    requires i < |vs| && v.peak == vs[i].peak
    ensures Top(vs[i := v]) == Top(vs)
  {
    var n := |vs| - 1;
    if i == n {
      assert vs[i := v][..n] == vs[..n];
    } else {
      TopUpdate(vs[..n], i, v);
      assert vs[i := v][..n] == vs[..n][i := v];
    }
  }

  datatype ViewportStats = ViewportStats(requests: nat, completed: nat, cancelled: nat, peakActive: nat)

  ghost predicate TotalsOk(vs: seq<Viewport>, t: ViewportStats, cap: nat) {
    && t.requests == Total(vs, REQUESTED) && t.completed == Total(vs, COMPLETED)
    && t.cancelled == Total(vs, CANCELLED) && t.peakActive == Top(vs)
  }

  // ----- The cache -----

  /** Requests, timers, aborts, new viewports and the two callbacks of a settled viewport request. */
  datatype Event =
    | Ask(key: Key, signal: Signal)
    | Tick(promise: nat)
    | AbortSignal(id: nat)
    | View(priority: seq<Key>)
    | Outcome(viewport: nat, request: nat)
    | Freed(viewport: nat)

  // ----- Viewports run out -----

  ghost function Unsettled(waiting: seq<nat>, promises: seq<Promise>): (n: nat)
    ensures n <= |waiting|
  {
    if waiting == [] then 0
    else
      var p := waiting[|waiting| - 1];
      Unsettled(waiting[..|waiting| - 1], promises) + if p < |promises| && promises[p].Waiting? then 1 else 0
  }

  /** What is left to do: four for a tile not started, three while it waits, two once settled, one once counted. */
  ghost function Left(v: Viewport, promises: seq<Promise>): nat
    requires v.cursor <= |v.priority|
  {
    4 * (|v.priority| - v.cursor) + 2 * |v.waiting| + Unsettled(v.waiting, promises) + v.counted
  }

  ghost predicate Before(waiting: seq<nat>, promises: seq<Promise>) { forall i | 0 <= i < |waiting| :: waiting[i] < |promises| }

  lemma {:induction false} UnsettledFalls(waiting: seq<nat>, before: seq<Promise>, after: seq<Promise>)
    requires Settles(before, after) && Before(waiting, before)
    ensures Unsettled(waiting, after) <= Unsettled(waiting, before)
    ensures (exists i :: 0 <= i < |waiting| && before[waiting[i]].Waiting? && !after[waiting[i]].Waiting?) ==>
            Unsettled(waiting, after) < Unsettled(waiting, before)
  {
    if waiting != [] {
      var front, n := waiting[..|waiting| - 1], |waiting| - 1;
      UnsettledFalls(front, before, after);
      if exists i :: 0 <= i < |waiting| && before[waiting[i]].Waiting? && !after[waiting[i]].Waiting? {
        var i :| 0 <= i < |waiting| && before[waiting[i]].Waiting? && !after[waiting[i]].Waiting?;
        if i < n {
          assert front[i] == waiting[i];
        }
      }
    }
  }

  lemma {:induction false} UnsettledJoin(a: seq<nat>, b: seq<nat>, promises: seq<Promise>)
    ensures Unsettled(a + b, promises) == Unsettled(a, promises) + Unsettled(b, promises)
  {
    if b == [] {
      assert a + b == a;
    } else {
      UnsettledJoin(a, b[..|b| - 1], promises);
      assert (a + b)[..|a + b| - 1] == a + b[..|b| - 1];
    }
  }

  /** Promises settling, whoever asked for them, never adds work. */
  lemma {:induction false} LeftFalls(v: Viewport, before: seq<Promise>, after: seq<Promise>, cap: nat)
    requires InFlight(v, before, cap) && Settles(before, after)
    ensures Left(v, after) <= Left(v, before)
    ensures (exists i :: 0 <= i < |v.waiting| && v.waiting[i] < |before| && before[v.waiting[i]].Waiting? && !after[v.waiting[i]].Waiting?) ==>
            Left(v, after) < Left(v, before)
  {
    WaitingBefore(v, before, cap);
    UnsettledFalls(v.waiting, before, after);
  }

  lemma {:induction false} WaitingBefore(v: Viewport, promises: seq<Promise>, cap: nat)
    requires InFlight(v, promises, cap)
    ensures Before(v.waiting, promises)
  {
    forall i | 0 <= i < |v.waiting| ensures v.waiting[i] < |promises| {
      assert v.waiting[i] in v.waiting;
    }
  }

  /** Starting a tile is progress too. */
  lemma {:induction false} LaunchLeaves(v: Viewport, w: Viewport, before: seq<Promise>, after: seq<Promise>, cap: nat)
    requires InFlight(v, before, cap) && InFlight(w, after, cap) && Further(v, w) && Settles(before, after)
    ensures Left(w, after) <= Left(v, before)
  {
    LeftFalls(v, before, after, cap);
    var more := w.waiting[|v.waiting|..];
    assert w.waiting == v.waiting + more;
    UnsettledJoin(v.waiting, more, after);
  }

  lemma {:induction false} CountLeaves(v: Viewport, j: nat, promises: seq<Promise>, fulfilled: bool)
    requires v.cursor <= |v.priority| && j < |v.waiting| && v.waiting[j] < |promises| && !promises[v.waiting[j]].Waiting?
    ensures Left(Counted(v, j, fulfilled), promises) < Left(v, promises)
  {
    var a, b := v.waiting[..j], v.waiting[j + 1..];
    assert v.waiting == a + [v.waiting[j]] + b;
    UnsettledJoin(a + [v.waiting[j]], b, promises);
    UnsettledJoin(a, [v.waiting[j]], promises);
    UnsettledJoin(a, b, promises);
    assert Unsettled([v.waiting[j]], promises) == 0 by {
      assert [v.waiting[j]][..0] == [];
    }
  }

  ghost predicate LeftAtMost(v: Viewport, before: seq<Promise>, w: Viewport, after: seq<Promise>) {
    v.cursor <= |v.priority| && w.cursor <= |w.priority| && Left(w, after) <= Left(v, before)
  }

  ghost predicate NoneHasMoreLeft(vs: seq<Viewport>, before: seq<Promise>, ws: seq<Viewport>, after: seq<Promise>) {
    |vs| <= |ws| && forall i | 0 <= i < |vs| :: LeftAtMost(vs[i], before, ws[i], after)
  }

  lemma {:induction false} AllFall(vs: seq<Viewport>, more: seq<Viewport>, before: seq<Promise>, after: seq<Promise>, cap: nat)
    requires ViewportsOk(vs, before, cap) && Settles(before, after)
    ensures NoneHasMoreLeft(vs, before, vs + more, after) && NoneHasMoreLeft(vs, before, vs, after)
  {
    forall i | 0 <= i < |vs| ensures LeftAtMost(vs[i], before, vs[i], after) {
      assert vs[i] in vs;
      LeftFalls(vs[i], before, after, cap);
    }
  }

  lemma {:induction false} NoneFallsBack(vs: seq<Viewport>, promises: seq<Promise>, cap: nat)
    requires ViewportsOk(vs, promises, cap)
    ensures NoneHasMoreLeft(vs, promises, vs, promises)
  {
    AllFall(vs, [], promises, promises, cap);
  }

  lemma {:induction false} OneFalls(vs: seq<Viewport>, i: nat, w: Viewport, before: seq<Promise>, after: seq<Promise>, cap: nat)
    requires ViewportsOk(vs, before, cap) && Settles(before, after) && i < |vs| && LeftAtMost(vs[i], before, w, after)
    ensures NoneHasMoreLeft(vs, before, vs[i := w], after)
  {
    AllFall(vs, [], before, after, cap);
    forall j | 0 <= j < |vs| ensures LeftAtMost(vs[j], before, vs[i := w][j], after) {
      if j != i {
        assert LeftAtMost(vs[j], before, vs[j], after);
      }
    }
  }

  /** An unfinished viewport has an event of its own that can happen now, and something left to do. */
  lemma {:induction false} UnfinishedGoesOn(v: Viewport, promises: seq<Promise>, cap: nat)
    requires ViewportOk(v, promises, cap) && !v.done && cap > 0 && v.priority != []
    ensures Left(v, promises) > 0
    ensures v.counted > 0 || (v.waiting != [] && v.waiting[0] < |promises|)
  {
    if v.counted == 0 {
      assert v.waiting[0] in v.waiting;
    }
  }

  class TileCache {
    const tile: Key -> Tile
    const capacity: nat
    const cap: nat
    var entries: seq<Entry>
    var pending: map<Key, nat>
    var promises: seq<Promise>
    var aborted: set<nat>
    var signals: nat
    var stats: Stats
    var viewports: seq<Viewport>
    var controller: Signal
    var totals: ViewportStats
    /** Hits and fills so far. */
    ghost var uses: seq<Key>
    ghost var fills: nat
    ghost var coalesced: nat

    constructor (tile: Key -> Tile, capacity: nat, cap: nat)
      ensures Valid() && entries == [] && pending == map[] && viewports == []
      ensures this.tile == tile && this.capacity == capacity && this.cap == cap
    {
      this.tile, this.capacity, this.cap := tile, capacity, cap;
      entries, pending, promises, aborted, signals := [], map[], [], {}, 0;
      stats, viewports, controller := Stats(0, 0, 0, 0, 0), [], NoSignal;
      totals := ViewportStats(0, 0, 0, 0);
      uses, fills, coalesced := [], 0, 0;
    }

    ghost predicate Accounts()
      reads this`entries, this`pending, this`promises, this`stats, this`uses, this`fills, this`coalesced
    {
      && stats.requests == stats.hits + stats.misses + coalesced
      && stats.misses == |pending| + stats.cancelled + fills
      && |entries| + stats.evictions == fills && |entries| <= capacity
    }

    ghost predicate CacheOk()
      reads this`entries, this`pending, this`promises, this`stats, this`uses, this`fills, this`coalesced
    {
      && HoldsRecent(tile, capacity, entries, uses)
      && PendingOk(entries, pending, promises)
      && AnswersOk(tile, promises)
      && Accounts()
    }

    ghost predicate Valid()
      reads this
    {
      && CacheOk()
      && ViewportsOk(viewports, promises, cap)
      && TotalsOk(viewports, totals, cap)
    }

    method IndexOf(key: Key) returns (i: int)
      ensures -1 <= i < |entries|
      ensures i >= 0 ==> entries[i].key == key
      ensures i == -1 <==> !Cached(entries, key)
    {
      i := 0;
      while i < |entries|
        invariant 0 <= i <= |entries| && forall j | 0 <= j < i :: entries[j].key != key
      {
        if entries[i].key == key { return; }
        i := i + 1;
      }
      i := -1;
    }

    /** A cached tile is answered at once, a pending one shares its promise, any other starts a timer. */
    method Request(key: Key, signal: Signal) returns (p: nat)
      requires CacheOk()
      modifies this`entries, this`pending, this`promises, this`stats, this`uses, this`coalesced
      ensures CacheOk() && Settles(old(promises), promises)
      ensures p < |promises| && promises[p].key == key
      ensures old(Cached(entries, key)) ==> promises[p] == Fulfilled(key, tile(key))
      ensures !old(Cached(entries, key)) ==> entries == old(entries) && key in pending && pending[key] == p
      ensures !old(Cached(entries, key)) && key !in old(pending) ==> promises[p] == Waiting(key, signal)
      ensures key in old(pending) ==> promises == old(promises) && pending == old(pending)
    {
      var i := IndexOf(key);
      if i >= 0 {
        p := Hit(i);
      } else if key in pending {
        stats := stats.(requests := stats.requests + 1);
        coalesced := coalesced + 1;
        assert PendingAt(pending, promises, key);
        p := pending[key];
      } else {
        p := Miss(key, signal);
      }
    }

    method Hit(i: nat) returns (p: nat)
      requires CacheOk() && i < |entries|
      modifies this`entries, this`promises, this`stats, this`uses
      ensures CacheOk() && p == |old(promises)|
      ensures promises == old(promises) + [Fulfilled(old(entries)[i].key, tile(old(entries)[i].key))]
    {
      var key := entries[i].key;
      stats := stats.(requests := stats.requests + 1, hits := stats.hits + 1);
      TouchKeepsRecent(tile, capacity, entries, uses, i);
      PendingMove(entries, pending, promises, i);
      entries, uses := Moved(entries, i), uses + [key];
      p := |promises|;
      var answer := Fulfilled(key, entries[|entries| - 1].data);
      PendingAnswer(entries, pending, promises, answer);
      promises := promises + [answer];
    }

    method Miss(key: Key, signal: Signal) returns (p: nat)
      requires CacheOk() && !Cached(entries, key) && key !in pending
      modifies this`pending, this`promises, this`stats
      ensures CacheOk() && p == |old(promises)|
      ensures promises == old(promises) + [Waiting(key, signal)] && pending == old(pending)[key := p]
    {
      stats := stats.(requests := stats.requests + 1, misses := stats.misses + 1);
      p := |promises|;
      PendingAdd(entries, pending, promises, key, signal);
      promises := promises + [Waiting(key, signal)];
      pending := pending[key := p];
    }

    /** The timer of a waiting request: cancelled if its signal was aborted, filled otherwise. */
    method FireTimer(p: nat)
      requires Valid() && p < |promises| && promises[p].Waiting?
      modifies this`entries, this`pending, this`promises, this`stats, this`uses, this`fills
      ensures Valid() && Settles(old(promises), promises) && |promises| == |old(promises)|
      ensures promises[p] ==
              var w := old(promises)[p];
              if w.signal.Signal? && w.signal.id in aborted then Rejected(w.key) else Fulfilled(w.key, tile(w.key))
      ensures forall q | 0 <= q < |promises| && q != p :: promises[q] == old(promises)[q]
      ensures pending == old(pending) - {old(promises)[p].key}
    {
      ViewportsGrow(viewports, promises, promises[p := Rejected(promises[p].key)], cap);
      var signal := promises[p].signal;
      if signal.Signal? && signal.id in aborted {
        Cancel(p);
      } else {
        Fill(p);
      }
    }

    method Cancel(p: nat)
      requires CacheOk() && p < |promises| && promises[p].Waiting?
      modifies this`pending, this`promises, this`stats
      ensures CacheOk() && promises == old(promises)[p := Rejected(old(promises)[p].key)]
      ensures pending == old(pending) - {old(promises)[p].key}
    {
      var key := promises[p].key;
      PendingSettle(entries, pending, promises, p, Rejected(key));
      pending := pending - {key};
      stats := stats.(cancelled := stats.cancelled + 1);
      promises := promises[p := Rejected(key)];
    }

    method Fill(p: nat)
      requires CacheOk() && p < |promises| && promises[p].Waiting?
      modifies this`entries, this`pending, this`promises, this`stats, this`uses, this`fills
      ensures CacheOk()
      ensures promises == old(promises)[p := Fulfilled(old(promises)[p].key, tile(old(promises)[p].key))]
      ensures pending == old(pending) - {old(promises)[p].key}
    {
      var key := promises[p].key;
      var answer := Fulfilled(key, tile(key));
      PendingSettle(entries, pending, promises, p, answer);
      pending, promises := pending - {key}, promises[p := answer];
      Store(key);
    }

    /** The new tile goes in last; what no longer fits goes out first. */
    method Store(key: Key)
      requires HoldsRecent(tile, capacity, entries, uses) && PendingOk(entries, pending, promises)
      requires !Cached(entries, key) && key !in pending
      requires |entries| + stats.evictions == fills && |entries| <= capacity
      modifies this`entries, this`stats, this`uses, this`fills
      ensures HoldsRecent(tile, capacity, entries, uses) && PendingOk(entries, pending, promises)
      ensures |entries| + stats.evictions == fills && |entries| <= capacity
      ensures fills == old(fills) + 1 && stats == old(stats).(evictions := stats.evictions)
    {
      var data := tile(key);
      PendingFill(entries, pending, promises, Entry(key, data), capacity);
      FillKeepsRecent(tile, capacity, entries, uses, key);
      entries := entries + [Entry(key, data)];
      uses, fills := uses + [key], fills + 1;
      Evict();
    }

    method Evict()
      modifies this`entries, this`stats
      ensures entries == Trim(old(entries), capacity)
      ensures stats == old(stats).(evictions := old(stats.evictions) + old(|entries|) - |entries|)
    {
      ghost var n := 0;
      while |entries| > capacity
        invariant n <= |old(entries)| && entries == old(entries)[n..]
        invariant n > 0 ==> |entries| >= capacity
        invariant stats == old(stats).(evictions := old(stats.evictions) + n)
      {
        entries := entries[1..];
        stats := stats.(evictions := stats.evictions + 1);
        n := n + 1;
      }
    }

    method NewSignal() returns (id: nat)
      modifies this`signals
      ensures id == old(signals) && signals == id + 1
    {
      id := signals;
      signals := signals + 1;
    }

    /** Aborting a signal cancels what waits on it, once. */
    method Abort(id: nat)
      requires Valid()
      modifies this`pending, this`promises, this`stats, this`aborted
      ensures Valid() && Settles(old(promises), promises)
      ensures aborted == old(aborted) + {id} && |promises| == |old(promises)|
      ensures forall p | 0 <= p < |promises| ::
                promises[p] == if id in old(aborted) then old(promises)[p] else Reject(old(promises)[p], id)
    {
      if id in aborted {
        assert aborted + {id} == aborted;
        return;
      }
      aborted := aborted + {id};
      for p := 0 to |promises|
        invariant CacheOk() && |promises| == |old(promises)| && aborted == old(aborted) + {id}
        invariant forall q | 0 <= q < p :: promises[q] == Reject(old(promises)[q], id)
        invariant forall q | p <= q < |promises| :: promises[q] == old(promises)[q]
      {
        if promises[p].Waiting? && promises[p].signal == Signal(id) {
          Cancel(p);
        }
      }
      ViewportsGrow(viewports, old(promises), promises, cap);
    }

    /** Start requests until the cap or the end of the list is reached. */
    method Launch(view: Viewport) returns (v: Viewport)
      requires CacheOk() && InFlight(view, promises, cap) && view.active <= totals.peakActive
      modifies this`entries, this`pending, this`promises, this`stats, this`uses, this`coalesced, this`totals
      ensures CacheOk() && InFlight(v, promises, cap) && Settles(old(promises), promises)
      ensures v.cursor == |v.priority| || v.active == cap
      ensures Further(view, v)
      ensures totals == old(totals).(peakActive := Most(old(totals).peakActive, v.active))
    {
      v := view;
      while v.active < cap && v.cursor < |v.priority|
        invariant CacheOk() && InFlight(v, promises, cap) && Settles(old(promises), promises)
        invariant Further(view, v)
        invariant totals == old(totals).(peakActive := Most(old(totals).peakActive, v.active))
        decreases |v.priority| - v.cursor
      {
        ghost var before := promises;
        v := StartNext(v);
        SettlesTwice(old(promises), before, promises);
      }
    }

    method StartNext(view: Viewport) returns (v: Viewport)
      requires CacheOk() && InFlight(view, promises, cap) && view.active <= totals.peakActive
      requires view.active < cap && view.cursor < |view.priority|
      modifies this`entries, this`pending, this`promises, this`stats, this`uses, this`coalesced, this`totals
      ensures CacheOk() && InFlight(v, promises, cap) && Settles(old(promises), promises)
      ensures Further(view, v) && v.cursor == view.cursor + 1
      ensures totals == old(totals).(peakActive := Most(old(totals).peakActive, v.active))
    {
      var key := view.priority[view.cursor];
      var active := view.active + 1;
      totals := totals.(peakActive := Most(totals.peakActive, active));
      var p := Request(key, Signal(view.signal));
      v := Started(view, key, p);
      StartedOk(view, old(promises), promises, cap, p);
    }

    /** The first callback of a settled request counts its outcome. */
    method CountOutcome(i: nat, j: nat)
      requires Valid() && i < |viewports| && j < |viewports[i].waiting|
      requires viewports[i].waiting[j] < |promises| && !promises[viewports[i].waiting[j]].Waiting?
      modifies this`viewports, this`totals
      ensures Valid() && |viewports| == |old(viewports)|
      ensures viewports == old(viewports)[i := viewports[i]]
      ensures
        var v, w := old(viewports)[i], viewports[i];
        && w.active == v.active && w.cursor == v.cursor && w.priority == v.priority && w.done == v.done
        && (if promises[v.waiting[j]].Fulfilled? then w.completed == v.completed + 1 && w.cancelled == v.cancelled
            else w.completed == v.completed && w.cancelled == v.cancelled + 1)
        && v.cursor <= |v.priority| && Left(w, promises) < Left(v, promises)
    {
      var v := viewports[i];
      assert v in viewports;
      CountLeaves(v, j, promises, promises[v.waiting[j]].Fulfilled?);
      var w := Counted(v, j, promises[v.waiting[j]].Fulfilled?);
      CountedOk(v, j, promises, cap);
      ViewportsReplace(viewports, promises, cap, i, w);
      TotalUpdate(viewports, REQUESTED, i, w);
      TotalUpdate(viewports, COMPLETED, i, w);
      TotalUpdate(viewports, CANCELLED, i, w);
      TopUpdate(viewports, i, w);
      totals := totals.(completed := totals.completed + w.completed - v.completed,
                        cancelled := totals.cancelled + w.cancelled - v.cancelled);
      viewports := viewports[i := w];
    }

    /** The last callback frees its slot, then ends the viewport or starts further requests. */
    method Release(i: nat)
      requires Valid() && i < |viewports| && viewports[i].counted > 0
      modifies this`entries, this`pending, this`promises, this`stats, this`uses, this`coalesced, this`totals, this`viewports
      ensures Valid() && Settles(old(promises), promises) && |viewports| == |old(viewports)|
      ensures viewports == old(viewports)[i := viewports[i]]
      ensures
        var v, w := old(viewports)[i], viewports[i];
        && w.priority == v.priority && w.completed == v.completed && w.cancelled == v.cancelled
        && (w.done <==> v.cursor == |v.priority| && v.active == 1)
        && w.cursor >= v.cursor && w.active == v.active - 1 + (w.cursor - v.cursor)
        && v.cursor <= |v.priority| && w.cursor <= |w.priority| && Left(w, promises) < Left(v, old(promises))
    {
      var v := viewports[i];
      assert v in viewports;
      var w := v.(active := v.active - 1, counted := v.counted - 1);
      ghost var freed := w;
      TopAbove(viewports, i);
      if w.cursor == |w.priority| && w.active == 0 {
        w := w.(done := true);
      } else {
        w := Launch(w);
        LaunchLeaves(freed, w, old(promises), promises, cap);
        ViewportsGrow(viewports, old(promises), promises, cap);
      }
      TotalUpdate(viewports, REQUESTED, i, w);
      TotalUpdate(viewports, COMPLETED, i, w);
      TotalUpdate(viewports, CANCELLED, i, w);
      TopUpdate(viewports, i, w);
      ViewportsReplace(viewports, promises, cap, i, w);
      viewports := viewports[i := w];
    }

    /** A new viewport aborts the one before it. */
    method BeginViewport(priority: seq<Key>) returns (i: nat)
      requires Valid()
      modifies this
      ensures Valid() && Settles(old(promises), promises)
      ensures i == |old(viewports)| && |viewports| == i + 1 && viewports == old(viewports) + [viewports[i]]
      ensures viewports[i].priority == priority && !viewports[i].done && controller == Signal(viewports[i].signal)
      ensures old(controller).Signal? ==> old(controller).id in aborted
    {
      AbortCurrent();
      ghost var before := promises;
      var id := NewSignal();
      controller := Signal(id);
      i := |viewports|;
      AddViewport(id, priority);
      SettlesTwice(old(promises), before, promises);
    }

    /** One event of the page, if it can happen now. */
    method Perform(e: Event)
      requires Valid()
      modifies this
      ensures Valid() && Settles(old(promises), promises)
      ensures NoneHasMoreLeft(old(viewports), old(promises), viewports, promises)
    {
      NoneFallsBack(viewports, promises, cap);
      match e {
        case Ask(key, signal) =>
          var p := Request(key, signal);
          ViewportsGrow(viewports, old(promises), promises, cap);
          AllFall(viewports, [], old(promises), promises, cap);
        case Tick(p) =>
          if p < |promises| && promises[p].Waiting? {
            FireTimer(p);
            AllFall(viewports, [], old(promises), promises, cap);
          }
        case AbortSignal(id) =>
          Abort(id);
          AllFall(viewports, [], old(promises), promises, cap);
        case View(priority) =>
          var i := BeginViewport(priority);
          AllFall(old(viewports), [viewports[i]], old(promises), promises, cap);
        case Outcome(i, j) =>
          if i < |viewports| && j < |viewports[i].waiting| {
            assert viewports[i] in viewports && viewports[i].waiting[j] in viewports[i].waiting;
            if !promises[viewports[i].waiting[j]].Waiting? {
              CountOutcome(i, j);
              OneFalls(old(viewports), i, viewports[i], old(promises), promises, cap);
            }
          }
        case Freed(i) =>
          if i < |viewports| && viewports[i].counted > 0 {
            Release(i);
            OneFalls(old(viewports), i, viewports[i], old(promises), promises, cap);
          }
      }
    }

    /** An event of one unfinished viewport's own, which leaves it less to do. */
    method Advance(i: nat)
      requires Valid() && i < |viewports| && cap > 0 && viewports[i].priority != [] && !viewports[i].done
      modifies this`entries, this`pending, this`promises, this`stats, this`uses, this`fills, this`coalesced, this`totals,
               this`viewports
      ensures Valid() && Settles(old(promises), promises) && |viewports| == |old(viewports)|
      ensures viewports == old(viewports)[i := viewports[i]] && viewports[i].priority == old(viewports)[i].priority
      ensures
        var v, w := old(viewports)[i], viewports[i];
        v.cursor <= |v.priority| && w.cursor <= |w.priority| && Left(w, promises) < Left(v, old(promises))
    {
      InOrder(viewports, promises, cap, i);
      UnfinishedGoesOn(viewports[i], promises, cap);
      if viewports[i].counted > 0 {
        Release(i);
      } else if promises[viewports[i].waiting[0]].Waiting? {
        var p := viewports[i].waiting[0];
        FireTimer(p);
        LeftFalls(viewports[i], old(promises), promises, cap);
        assert old(promises)[viewports[i].waiting[0]].Waiting?;
      } else {
        CountOutcome(i, 0);
      }
    }

    /** Whatever else is pending, a viewport's own events bring it to its end. */
    method RunOut(i: nat)
      requires Valid() && i < |viewports| && cap > 0 && viewports[i].priority != []
      modifies this
      ensures Valid() && Settles(old(promises), promises) && |viewports| == |old(viewports)|
      ensures viewports == old(viewports)[i := viewports[i]]
      ensures
        var v := viewports[i];
        v.done && v.priority == old(viewports)[i].priority && v.completed + v.cancelled == |v.priority|
    {
      InOrder(viewports, promises, cap, i);
      while !viewports[i].done
        invariant Valid() && Settles(old(promises), promises) && |viewports| == |old(viewports)|
        invariant viewports == old(viewports)[i := viewports[i]] && viewports[i].priority == old(viewports)[i].priority
        invariant viewports[i].cursor <= |viewports[i].priority|
        decreases Left(viewports[i], promises)
      {
        ghost var before := promises;
        Advance(i);
        SettlesTwice(old(promises), before, promises);
      }
      InOrder(viewports, promises, cap, i);
      DoneIsComplete(viewports[i], promises, cap);
    }

    /** Any interleaving of events. */
    method Play(events: seq<Event>)
      requires Valid()
      modifies this
      ensures Valid() && Settles(old(promises), promises)
    {
      for n := 0 to |events|
        invariant Valid() && Settles(old(promises), promises)
      {
        ghost var before := promises;
        Perform(events[n]);
        SettlesTwice(old(promises), before, promises);
      }
    }

    method AbortCurrent()
      requires Valid()
      modifies this`pending, this`promises, this`stats, this`aborted
      ensures Valid() && Settles(old(promises), promises)
      ensures controller.Signal? ==> controller.id in aborted
    {
      if controller.Signal? {
        Abort(controller.id);
      }
    }

    method AddViewport(id: nat, priority: seq<Key>)
      requires Valid()
      modifies this`entries, this`pending, this`promises, this`stats, this`uses, this`coalesced, this`totals, this`viewports
      ensures Valid() && Settles(old(promises), promises) && |viewports| == |old(viewports)| + 1
      ensures
        var v := viewports[|old(viewports)|];
        viewports == old(viewports) + [v] && v.priority == priority && !v.done && v.signal == id
    {
      var view := Viewport(id, priority, 0, [], 0, [], 0, 0, 0, 0, false);
      NewViewportFlies(view, promises, cap);
      var v := Launch(view);
      LaunchedIsOk(v, promises, cap);
      ViewportsAppend(viewports, old(promises), promises, cap, v);
      TotalsAppend(viewports, old(totals), cap, v);
      totals := totals.(requests := totals.requests + |priority|);
      viewports := viewports + [v];
    }
  }

  lemma {:induction false} NewViewportFlies(v: Viewport, promises: seq<Promise>, cap: nat)
    requires v.cursor == 0 && v.started == [] && v.active == 0 && v.waiting == [] && v.counted == 0
    requires v.completed == v.cancelled == v.peak == 0
    ensures InFlight(v, promises, cap)
  {
  }

  lemma {:induction false} LaunchedIsOk(v: Viewport, promises: seq<Promise>, cap: nat)
    requires InFlight(v, promises, cap) && !v.done && (v.cursor == |v.priority| || v.active == cap)
    requires v.completed == v.cancelled == v.counted == 0 && v.peak == v.active
    ensures ViewportOk(v, promises, cap)
  {
  }

  lemma {:induction false} TotalsAppend(vs: seq<Viewport>, t: ViewportStats, cap: nat, v: Viewport)
    requires TotalsOk(vs, t, cap) && v.completed == v.cancelled == 0
    ensures TotalsOk(vs + [v], t.(requests := t.requests + |v.priority|, peakActive := Most(t.peakActive, v.peak)), cap)
  {
    assert (vs + [v])[..|vs|] == vs;
    TotalAppend(vs, REQUESTED, v);
    TotalAppend(vs, COMPLETED, v);
    TotalAppend(vs, CANCELLED, v);
  }

  /** `w` is `v` with further requests started. */
  ghost predicate Further(v: Viewport, w: Viewport) {
    && w.cursor >= v.cursor && w.active == v.active + (w.cursor - v.cursor)
    && w.priority == v.priority && w.completed == v.completed && w.cancelled == v.cancelled
    && w.done == v.done && w.signal == v.signal && w.counted == v.counted && v.waiting <= w.waiting
    && w.peak == Most(v.peak, w.active)
  }

  lemma {:induction false} StartedOk(v: Viewport, promises: seq<Promise>, promises': seq<Promise>, cap: nat, p: nat)
    requires InFlight(v, promises, cap) && |promises| <= |promises'| && p < |promises'|
    requires v.active < cap && v.cursor < |v.priority|
    ensures InFlight(Started(v, v.priority[v.cursor], p), promises', cap)
  {
    assert v.priority[..v.cursor + 1] == v.priority[..v.cursor] + [v.priority[v.cursor]];
  }

  lemma {:induction false} InOrder(vs: seq<Viewport>, promises: seq<Promise>, cap: nat, i: nat)
    requires ViewportsOk(vs, promises, cap) && i < |vs|
    ensures ViewportOk(vs[i], promises, cap)
  {
    assert vs[i] in vs;
  }

  lemma {:induction false} ViewportsReplace(vs: seq<Viewport>, promises: seq<Promise>, cap: nat, i: nat, w: Viewport)
    requires ViewportsOk(vs, promises, cap) && ViewportOk(w, promises, cap) && i < |vs|
    ensures ViewportsOk(vs[i := w], promises, cap)
  {
    forall v | v in vs[i := w] ensures ViewportOk(v, promises, cap) {
      assert v == w || v in vs;
    }
  }

  lemma {:induction false} ViewportsAppend(
    vs: seq<Viewport>, promises: seq<Promise>, promises': seq<Promise>, cap: nat, w: Viewport)
    requires ViewportsOk(vs, promises, cap) && |promises| <= |promises'| && ViewportOk(w, promises', cap)
    ensures ViewportsOk(vs + [w], promises', cap)
  {
    ViewportsGrow(vs, promises, promises', cap);
  }

  lemma {:induction false} CountedOk(v: Viewport, j: nat, promises: seq<Promise>, cap: nat)
    requires ViewportOk(v, promises, cap) && j < |v.waiting|
    ensures ViewportOk(Counted(v, j, true), promises, cap) && ViewportOk(Counted(v, j, false), promises, cap)
  {
    var rest := v.waiting[..j] + v.waiting[j + 1..];
    forall p | p in rest ensures p < |promises| {
      assert p in v.waiting;
    }
  }

  lemma {:induction false} SettlesTwice(a: seq<Promise>, b: seq<Promise>, c: seq<Promise>)
    requires Settles(a, b) && Settles(b, c)
    ensures Settles(a, c)
  {
  }

  function Started(v: Viewport, key: Key, p: nat): Viewport {
    v.(cursor := v.cursor + 1, started := v.started + [key], active := v.active + 1, waiting := v.waiting + [p],
       peak := Most(v.peak, v.active + 1))
  }

  function Counted(v: Viewport, j: nat, fulfilled: bool): Viewport
    requires j < |v.waiting|
  {
    var w := v.(waiting := v.waiting[..j] + v.waiting[j + 1..], counted := v.counted + 1);
    if fulfilled then w.(completed := w.completed + 1) else w.(cancelled := w.cancelled + 1)
  }
}
