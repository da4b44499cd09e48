/** The bounded in-memory inbox (src/outbox.rs): a least-recently-used cache over two maps,
    proved against the history of accepted ids. */
module LruInbox {
  import opened Wrappers
  import opened DedupId

  // ---- Histories ------------------------------------------------------------------

  function Without<T(==, !new)>(s: seq<T>, x: T): (r: seq<T>)
    ensures forall y :: y in r <==> y in s && y != x
  {
    if s == [] then [] else if s[0] == x then Without(s[1..], x) else [s[0]] + Without(s[1..], x)
  }

  function Take<T>(s: seq<T>, n: nat): seq<T> { if |s| <= n then s else s[..n] }

  /** The distinct elements of a history, the most recently used first. */
  function Recency<T(==, !new)>(h: seq<T>): (r: seq<T>)
    ensures forall y :: y in r <==> y in h
  {
    if h == [] then []
    else
      assert h == h[..|h| - 1] + [h[|h| - 1]];
      [h[|h| - 1]] + Without(Recency(h[..|h| - 1]), h[|h| - 1])
  }

  ghost predicate Distinct<T(!new)>(s: seq<T>) { forall i, j | 0 <= i < j < |s| :: s[i] != s[j] }

  /** What came after the last `x` of a history (all of it when there is none). */
  ghost function Since<T(!new)>(h: seq<T>, x: T): seq<T> {
    if h == [] || h[|h| - 1] == x then [] else Since(h[..|h| - 1], x) + [h[|h| - 1]]
  }

  ghost function Elements<T(!new)>(s: seq<T>): set<T> { set x | x in s }

  /** The history specification of the bounded guard: it knows `x` exactly when `x` was
      used and fewer than `capacity` distinct others were since. */
  ghost predicate Remembers<T(!new)>(h: seq<T>, capacity: nat, x: T) {
    x in h && |Elements(Since(h, x))| < capacity
  }

  // ---- The two maps ---------------------------------------------------------------

  /** The maps are mutual inverses and every tick lies below the next one. */
  ghost predicate Inverse(seen: map<string, nat>, order: map<nat, string>, nextTick: nat) {
    && (forall id | id in seen :: seen[id] in order && order[seen[id]] == id && seen[id] < nextTick)
    && (forall t | t in order :: order[t] in seen && seen[order[t]] == t)
  }

  /** The ids of `seen` are those of `q`, most recent first. */
  ghost predicate Ranked(seen: map<string, nat>, q: seq<string>) {
    && (forall id :: id in seen <==> id in q)
    && (forall i, j | 0 <= i < j < |q| :: seen[q[i]] > seen[q[j]])
  }

  ghost predicate Represents(seen: map<string, nat>, order: map<nat, string>, nextTick: nat, q: seq<string>) {
    Inverse(seen, order, nextTick) && Ranked(seen, q)
  }

  class Inbox {
    var seen: map<string, nat>
    var order: map<nat, string>
    var nextTick: nat
    const capacity: nat
    const sha256: seq<byte> -> Digest
    /** The dedup id of every call to accept so far. */
    ghost var history: seq<string>

    ghost predicate Valid()
      reads this
    {
      capacity > 0 && Represents(seen, order, nextTick, Take(Recency(history), capacity))
    }

    constructor WithCapacity(sha256: seq<byte> -> Digest, capacity: nat)
      ensures Valid() && history == []
      ensures this.sha256 == sha256 && this.capacity == if capacity > 1 then capacity else 1
    {
      this.sha256, this.capacity := sha256, if capacity > 1 then capacity else 1;
      seen, order, nextTick, history := map[], map[], 0, [];
    }

    method AcceptForTenant(tenant: Option<Uuid>, key: seq<byte>) returns (first: bool)
      requires Valid()
      modifies this
      ensures Valid()
      ensures var id := TenantScopedDedupId(sha256, Scope(tenant, key));
              && history == old(history) + [id]
              && id in seen
              && (first <==> !Remembers(old(history), capacity, id))
    {
      hide Recency, Remembers, Represents, TenantScopedDedupId, Take, Without, Dropped, Elements, Distinct, DOMAIN,
           TENANT, GLOBAL;
      var id := ComputeDedupId(sha256, tenant, key);
      var tick := nextTick;
      ghost var q := Take(Recency(history), capacity);
      RetainedIsRemembered(history, capacity, id);
      nextTick := nextTick + 1;
      var known := id in seen;
      KeysAre(seen, order, tick, q);
      ghost var was, wasOrder := seen, order;
      history := history + [id];
      RecencyStep(old(history), id, capacity);
      if known {
        var previous := seen[id];
        seen := seen[id := tick];
        order := Dropped(order, previous);
        order := order[tick := id];
        Refreshed(was, wasOrder, tick, q, id);
        first := false;
        assert Represents(seen, order, nextTick, Take(Recency(history), capacity));
      } else {
        seen := seen[id := tick];
        order := order[tick := id];
        Added(was, wasOrder, tick, q, id);
        ghost var all := [id] + q;
        assert all[0] == id;
        ghost var kept := all;
        while |seen| > capacity
          invariant Represents(seen, order, nextTick, kept)
          invariant kept <= all && |kept| >= (if |all| < capacity then |all| else capacity)
          invariant |seen| == |kept|
          invariant history == old(history) + [id] && nextTick == tick + 1
          decreases |kept|
        {
          NotEmpty(seen, order, nextTick, kept);
          if order == map[] {
            break;
          }
          var oldest := FirstTick(order);
          var evicted := order[oldest];
          Oldest(seen, order, nextTick, kept, oldest);
          ghost var s, o := seen, order;
          order := Dropped(order, oldest);
          seen := Dropped(seen, evicted);
          Evicted(s, o, nextTick, kept);
          kept := kept[..|kept| - 1];
        }
        KeysAre(seen, order, nextTick, kept);
        assert kept[0] == id;
        TakenIs(all, kept, capacity);
        first := true;
      }
    }

    method Accept(key: seq<byte>) returns (first: bool)
      requires Valid()
      modifies this
      ensures Valid()
      ensures var id := TenantScopedDedupId(sha256, Scope(None, key));
              && history == old(history) + [id]
              && id in seen
              && (first <==> !Remembers(old(history), capacity, id))
    {
      first := AcceptForTenant(None, key);
    }

    method ContainsForTenant(tenant: Option<Uuid>, key: seq<byte>) returns (known: bool)
      requires Valid()
      ensures known <==> Remembers(history, capacity, TenantScopedDedupId(sha256, Scope(tenant, key)))
    {
      var id := ComputeDedupId(sha256, tenant, key);
      RetainedIsRemembered(history, capacity, id);
      known := id in seen;
    }

    /** The number of retained keys: never above the capacity, and exact below it. */
    method Len() returns (n: nat)
      requires Valid()
      ensures n == if |Elements(history)| < capacity then |Elements(history)| else capacity
    {
      KeysAre(seen, order, nextTick, Take(Recency(history), capacity));
      RecencyIsDistinct(history);
      assert Elements(Recency(history)) == Elements(history);
      SizeOf(Recency(history));
      n := |seen|;
    }
  }

  /** The least key of an ordered map. */
  method FirstTick(order: map<nat, string>) returns (t: nat)
    requires order != map[]
    ensures t in order && forall u | u in order :: t <= u
  {
    ghost var least := Least(order.Keys);
    t :| t in order.Keys && forall u | u in order.Keys :: t <= u;
  }

  lemma {:induction false} Least(s: set<nat>) returns (t: nat)
    requires s != {}
    ensures t in s && forall u | u in s :: t <= u
  {
    var x :| x in s;
    t := x;
    if s != {x} {
      var rest := Least(s - {x});
      t := if x < rest then x else rest;
      forall u | u in s ensures t <= u {
        assert u == x || u in s - {x};
      }
    }
  }

  // ---- The steps of the maps ------------------------------------------------------

  lemma {:induction false} SizeOf<T(!new)>(s: seq<T>)
    requires Distinct(s)
    ensures |Elements(s)| == |s|
  {
    if s != [] {
      var init := s[..|s| - 1];
      SizeOf(init);
      assert s == init + [s[|s| - 1]];
      assert Elements(s) == Elements(init) + {s[|s| - 1]};
      assert forall i | 0 <= i < |init| :: s[i] != s[|s| - 1];
    }
  }

  lemma {:induction false} KeysAre(seen: map<string, nat>, order: map<nat, string>, nextTick: nat, q: seq<string>)
    requires Represents(seen, order, nextTick, q)
    ensures Distinct(q) && seen.Keys == Elements(q) && |seen| == |q|
    ensures forall id :: id in seen <==> id in q
  {
    RankedDistinct(seen, q);
    assert seen.Keys == Elements(q);
    SizeOf(q);
  }

  lemma {:induction false} NotEmpty(seen: map<string, nat>, order: map<nat, string>, nextTick: nat, q: seq<string>)
    requires Represents(seen, order, nextTick, q) && |q| > 0
    ensures order != map[]
  {
    assert q[0] in seen && seen[q[0]] in order;
  }

  lemma {:induction false} WithoutFirst<T(!new)>(s: seq<T>, x: T, k: nat)
    requires Distinct(s) && k < |s| && s[k] == x
    ensures Without(s, x) == s[..k] + s[k + 1..]
  {
    if k == 0 {
      assert x !in s[1..];
      WithoutAbsent(s[1..], x);
    } else {
      assert s[0] != s[k];
      assert Distinct(s[1..]);
      WithoutFirst(s[1..], x, k - 1);
      assert s[..k] == [s[0]] + s[1..][..k - 1] && s[1..][k..] == s[k + 1..];
    }
  }

  lemma {:induction false} WithoutAbsent<T(!new)>(s: seq<T>, x: T)
    requires x !in s
    ensures Without(s, x) == s
  {
    if s != [] {
      WithoutAbsent(s[1..], x);
    }
  }

  function Dropped<K(==), V>(m: map<K, V>, k: K): map<K, V> { map x | x in m && x != k :: m[x] }

  lemma {:induction false} RankedRefreshed(seen: map<string, nat>, tick: nat, q: seq<string>, id: string)
    requires Ranked(seen, q) && id in seen && forall x | x in seen :: seen[x] < tick
    ensures Ranked(seen[id := tick], [id] + Without(q, id))
  {
    RankedDistinct(seen, q);
    var w := WithoutKeepsFalling(seen, q, id);
    FallingUnder(seen, tick, w, id);
  }

  lemma {:induction false} WithoutKeepsFalling(seen: map<string, nat>, q: seq<string>,
                                               id: string)
    returns (w: seq<string>)
    requires Ranked(seen, q) && Distinct(q) && id in seen
    ensures w == Without(q, id)
    ensures forall i | 0 <= i < |w| :: w[i] in seen && w[i] != id
    ensures forall i, j | 0 <= i < j < |w| :: seen[w[i]] > seen[w[j]]
  {
    hide Without;
    w := Without(q, id);
    var k :| 0 <= k < |q| && q[k] == id;
    WithoutFirst(q, id, k);
    FallingWithout(seen, q, k);
    assert forall i | 0 <= i < |w| :: w[i] in w;
  }

  lemma {:induction false} FallingUnder(seen: map<string, nat>, tick: nat, w: seq<string>, id: string)
    requires (forall i | 0 <= i < |w| :: w[i] in seen && w[i] != id && seen[w[i]] < tick)
    requires forall i, j | 0 <= i < j < |w| :: seen[w[i]] > seen[w[j]]
    ensures var after, v := seen[id := tick], [id] + w;
            forall i, j | 0 <= i < j < |v| :: v[i] in after && v[j] in after && after[v[i]] > after[v[j]]
  {
    var after, v := seen[id := tick], [id] + w;
    forall i, j | 0 <= i < j < |v| ensures v[i] in after && v[j] in after && after[v[i]] > after[v[j]] {
      assert v[j] == w[j - 1] && after[v[j]] == seen[w[j - 1]];
      if i > 0 {
        assert v[i] == w[i - 1] && after[v[i]] == seen[w[i - 1]];
      }
    }
  }

  lemma {:induction false} FallingWithout(seen: map<string, nat>, q: seq<string>, k: nat)
    requires Ranked(seen, q) && k < |q|
    ensures var w := q[..k] + q[k + 1..];
            && (forall i | 0 <= i < |w| :: w[i] in seen)
            && forall i, j | 0 <= i < j < |w| :: seen[w[i]] > seen[w[j]]
  {
    var w := q[..k] + q[k + 1..];
    assert forall i | 0 <= i < |w| :: w[i] == if i < k then q[i] else q[i + 1];
  }

  lemma {:induction false} RankedDistinct(seen: map<string, nat>, q: seq<string>)
    requires Ranked(seen, q)
    ensures Distinct(q)
  {
    forall i, j | 0 <= i < j < |q| ensures q[i] != q[j] {
      assert seen[q[i]] > seen[q[j]];
    }
  }

  lemma {:induction false} Refreshed(seen: map<string, nat>, order: map<nat, string>, tick: nat, q: seq<string>,
                                     id: string)
    requires Represents(seen, order, tick, q) && id in seen
    ensures Represents(seen[id := tick], Dropped(order, seen[id])[tick := id], tick + 1, [id] + Without(q, id))
  {
    hide Ranked;
    assert id in seen;
    RankedRefreshed(seen, tick, q, id);
  }

  lemma {:induction false} Added(seen: map<string, nat>, order: map<nat, string>, tick: nat, q: seq<string>, id: string)
    requires Represents(seen, order, tick, q) && id !in seen
    ensures Represents(seen[id := tick], order[tick := id], tick + 1, [id] + q)
    ensures |seen[id := tick]| == |q| + 1
  {
    hide Ranked;
    KeysAre(seen, order, tick, q);
    assert seen[id := tick].Keys == seen.Keys + {id};
    InverseAdded(seen, order, tick, id);
    RankedAdded(seen, tick, q, id);
  }

  lemma {:induction false} RankedAdded(seen: map<string, nat>, tick: nat, q: seq<string>, id: string)
    requires Ranked(seen, q) && id !in seen && forall x | x in seen :: seen[x] < tick
    ensures Ranked(seen[id := tick], [id] + q)
  {
    FallingUnder(seen, tick, q, id);
  }

  lemma {:induction false} InverseAdded(seen: map<string, nat>, order: map<nat, string>, tick: nat, id: string)
    requires Inverse(seen, order, tick) && id !in seen
    ensures Inverse(seen[id := tick], order[tick := id], tick + 1)
  {
  }

  lemma {:induction false} Oldest(seen: map<string, nat>, order: map<nat, string>, nextTick: nat, q: seq<string>,
                                  t: nat)
    requires Represents(seen, order, nextTick, q) && |q| > 0
    requires t in order && forall u | u in order :: t <= u
    ensures order[t] == q[|q| - 1] && seen[q[|q| - 1]] == t
  {
    var last := q[|q| - 1];
    assert order[t] in q;
    var i :| 0 <= i < |q| && q[i] == order[t];
    assert t <= seen[last];
    assert i < |q| - 1 ==> seen[q[i]] > seen[last];
  }

  lemma {:induction false} RankedEvicted(seen: map<string, nat>, q: seq<string>)
    requires Ranked(seen, q) && |q| > 0
    ensures Ranked(Dropped(seen, q[|q| - 1]), q[..|q| - 1])
  {
    var last, init := q[|q| - 1], q[..|q| - 1];
    assert q == init + [last];
    forall i | 0 <= i < |init| ensures init[i] != last {
      assert seen[q[i]] > seen[last];
    }
  }

  lemma {:induction false} Evicted(seen: map<string, nat>, order: map<nat, string>, nextTick: nat, q: seq<string>)
    requires Represents(seen, order, nextTick, q) && |q| > 0
    ensures var last := q[|q| - 1];
            && last in seen
            && Represents(Dropped(seen, last), Dropped(order, seen[last]), nextTick, q[..|q| - 1])
            && |Dropped(seen, last)| == |q| - 1
  {
    var last := q[|q| - 1];
    assert last in seen;
    KeysAre(seen, order, nextTick, q);
    RankedEvicted(seen, q);
    assert Dropped(seen, last).Keys == seen.Keys - {last};
  }

  lemma {:induction false} TakeStep(r: seq<string>, id: string, c: nat)
    requires c > 0 && Distinct(r)
    ensures var q := Take(r, c);
            Take([id] + Without(r, id), c) == if id in q then [id] + Without(q, id) else Take([id] + q, c)
  {
    hide Without;
    var q := Take(r, c);
    if id in r {
      var k :| 0 <= k < |r| && r[k] == id;
      WithoutFirst(r, id, k);
      if k < c {
        TakeWithin(r, id, k, c);
      } else {
        forall i | 0 <= i < |q| ensures q[i] != id {
          assert r[i] != r[k];
        }
        assert id !in q;
        assert ([id] + (r[..k] + r[k + 1..]))[..c] == ([id] + q)[..c];
      }
    } else {
      WithoutAbsent(r, id);
      assert id !in q;
      assert |r| >= c ==> ([id] + r)[..c] == ([id] + q)[..c];
    }
  }

  lemma {:induction false} TakeWithin(r: seq<string>, id: string, k: nat, c: nat)
    requires k < c && Distinct(r) && k < |r| && r[k] == id
    ensures id in Take(r, c) && Take([id] + (r[..k] + r[k + 1..]), c) == [id] + Without(Take(r, c), id)
  {
    hide Without;
    var q := Take(r, c);
    assert q[k] == id && Distinct(q);
    WithoutFirst(q, id, k);
    if |r| > c {
      assert ([id] + (r[..k] + r[k + 1..]))[..c] == [id] + (q[..k] + q[k + 1..]);
    }
  }

  lemma {:induction false} TakenIs<T>(all: seq<T>, kept: seq<T>, c: nat)
    requires kept <= all && |kept| <= c && |kept| >= if |all| < c then |all| else c
    ensures kept == Take(all, c)
  {
  }

  /** What one use of `id` does to the retained ids. */
  lemma {:induction false} RecencyStep(h: seq<string>, id: string, c: nat)
    requires c > 0
    ensures var q := Take(Recency(h), c);
            Take(Recency(h + [id]), c) == if id in q then [id] + Without(q, id) else Take([id] + q, c)
  {
    RecencyIsDistinct(h);
    assert (h + [id])[..|h|] == h;
    TakeStep(Recency(h), id, c);
  }

  // ---- The history theorem ----------------------------------------------------------

  lemma {:induction false} WithoutIsDistinct<T(!new)>(s: seq<T>, x: T)
    requires Distinct(s)
    ensures Distinct(Without(s, x)) && x !in Without(s, x)
  {
    if exists k | 0 <= k < |s| :: s[k] == x {
      var k :| 0 <= k < |s| && s[k] == x;
      WithoutFirst(s, x, k);
    } else {
      WithoutAbsent(s, x);
    }
  }

  lemma {:induction false} RecencyIsDistinct<T(!new)>(h: seq<T>)
    ensures Distinct(Recency(h))
  {
    if h != [] {
      RecencyIsDistinct(h[..|h| - 1]);
      WithoutIsDistinct(Recency(h[..|h| - 1]), h[|h| - 1]);
    }
  }

  lemma {:induction false} WithoutAhead<T(!new)>(r: seq<T>, y: T, i: nat) returns (j: nat)
    requires i < |Without(r, y)|
    ensures j < |r| && r[j] == Without(r, y)[i]
    ensures Elements(r[..j]) + {y} == Elements(Without(r, y)[..i]) + {y}
  {
    var t := r[1..];
    if r[0] != y && i == 0 {
      assert r[..0] == Without(r, y)[..0];
      return 0;
    }
    if r[0] == y {
      j := WithoutAhead(t, y, i);
      j := j + 1;
      assert r[..j] == [y] + t[..j - 1];
      assert Elements(r[..j]) == Elements(t[..j - 1]) + {y};
    } else {
      j := WithoutAhead(t, y, i - 1);
      j := j + 1;
      assert r[..j] == [r[0]] + t[..j - 1];
      assert Elements(r[..j]) == Elements(t[..j - 1]) + {r[0]};
      assert Without(r, y)[..i] == [r[0]] + Without(t, y)[..i - 1];
      assert Elements(Without(r, y)[..i]) == Elements(Without(t, y)[..i - 1]) + {r[0]};
    }
  }

  /** Ahead of an id in recency order stand exactly the ids used since it. */
  lemma {:induction false} AheadIsSince<T(!new)>(h: seq<T>, k: nat)
    requires k < |Recency(h)|
    ensures Elements(Since(h, Recency(h)[k])) == Elements(Recency(h)[..k])
  {
    var init, last := h[..|h| - 1], h[|h| - 1];
    var r, x := Recency(init), Recency(h)[k];
    if k > 0 {
      RecencyIsDistinct(h);
      assert Recency(h)[0] == last && x != last;
      var w := Without(r, last)[..k - 1];
      assert Recency(h)[..k] == [last] + w;
      var j := WithoutAhead(r, last, k - 1);
      AheadIsSince(init, j);
      assert Since(h, x) == Since(init, x) + [last];
      assert Elements(Since(init, x) + [last]) == Elements(Since(init, x)) + {last};
      assert Elements([last] + w) == Elements(w) + {last};
    }
  }

  /** The retained ids are the remembered ones. */
  lemma {:induction false} RetainedIsRemembered<T(!new)>(h: seq<T>, c: nat, x: T)
    ensures x in Take(Recency(h), c) <==> Remembers(h, c, x)
  {
    var r := Recency(h);
    RecencyIsDistinct(h);
    if x in h {
      var k :| 0 <= k < |r| && r[k] == x;
      AheadIsSince(h, k);
      assert Distinct(r[..k]);
      SizeOf(r[..k]);
      if k < c {
        assert Take(r, c)[k] == x;
      } else {
        forall i | 0 <= i < |Take(r, c)| ensures Take(r, c)[i] != x {
          assert r[i] != r[k];
        }
      }
    }
  }

  /** The larger of two inboxes fed the same history retains whatever the smaller one
      does: it never accepts an id the smaller one rejects. */
  lemma {:induction false} LargerRemembersMore<T(!new)>(h: seq<T>, c: nat, d: nat, x: T)
    requires c <= d && Remembers(h, c, x)
    ensures Remembers(h, d, x) && Elements(Take(Recency(h), c)) <= Elements(Take(Recency(h), d))
  {
  }

  /** How many uses of a history an inbox accepts. */
  ghost function Accepts<T(!new)>(h: seq<T>, c: nat): nat {
    if h == [] then 0
    else Accepts(h[..|h| - 1], c) + if Remembers(h[..|h| - 1], c, h[|h| - 1]) then 0 else 1
  }

  /** Over a whole history a larger inbox accepts no more than a smaller one; every inbox
      accepts each distinct id at least once, and exactly once if it has room for them all. */
  lemma {:induction false} LargerAcceptsLess<T(!new)>(h: seq<T>, c: nat, d: nat)
    requires c <= d
    ensures |Elements(h)| <= Accepts(h, d) <= Accepts(h, c)
    ensures |Elements(h)| <= c ==> Accepts(h, c) == |Elements(h)|
  {
    hide Remembers;
    if h != [] {
      var init, last := h[..|h| - 1], h[|h| - 1];
      LargerAcceptsLess(init, c, d);
      InitElements(h);
      if Remembers(init, c, last) { LargerRemembersMore(init, c, d, last); }
      RetainedIsRemembered(init, d, last);
      RetainedIsRemembered(init, c, last);
      if last in init {
        assert Elements(h) == Elements(init);
      } else {
        assert last !in Elements(init);
        assert |Elements(h)| == |Elements(init)| + 1;
      }
      if |Elements(h)| <= c {
        ExactWithinCapacity(init, c);
        assert Remembers(init, c, last) <==> last in init;
      }
    }
  }

  lemma {:induction false} SinceIsPart<T(!new)>(h: seq<T>, x: T)
    ensures x !in Since(h, x) && Elements(Since(h, x)) <= Elements(h)
  {
    if h != [] {
      SinceIsPart(h[..|h| - 1], x);
      assert h == h[..|h| - 1] + [h[|h| - 1]];
      assert Elements(h) == Elements(h[..|h| - 1]) + {h[|h| - 1]};
    }
  }

  /** With no more distinct ids than it has room for, the inbox is the exact, unbounded set;
      and only then, in every history: one id more and some used id is unknown. */
  lemma {:induction false} ExactWithinCapacity<T(!new)>(h: seq<T>, c: nat)
    ensures |Elements(h)| <= c <==> forall x :: Remembers(h, c, x) <==> x in h
  {
    var r := Recency(h);
    RecencyIsDistinct(h);
    SizeOf(r);
    assert Elements(r) == Elements(h);
    if |Elements(h)| <= c {
      forall x ensures Remembers(h, c, x) <==> x in h {
        RetainedIsRemembered(h, c, x);
      }
    } else {
      var x := r[c];
      RetainedIsRemembered(h, c, x);
      assert x in h && x !in Take(r, c);
    }
  }

  // ---- In terms of tenants and keys -------------------------------------------------

  function IdsOf(sha256: seq<byte> -> Digest, scopes: seq<Scope>): seq<string> {
    seq(|scopes|, i requires 0 <= i < |scopes| => TenantScopedDedupId(sha256, scopes[i]))
  }

  /** No two of the scopes in play share a dedup id: the keys are shorter than 2^64 bytes and
      the hash does not collide on them. */
  ghost predicate CollisionFree(sha256: seq<byte> -> Digest, scopes: set<Scope>) {
    && (forall s | s in scopes :: |s.key| < U64_LIMIT)
    && forall s, t | s in scopes && t in scopes :: NoCollision(sha256, s, t)
  }

  lemma {:induction false} SameImage(sha256: seq<byte> -> Digest, a: set<Scope>)
    requires CollisionFree(sha256, a)
    ensures |set s | s in a :: TenantScopedDedupId(sha256, s)| == |a|
  {
    if a != {} {
      var x :| x in a;
      SameImage(sha256, a - {x});
      var ids := set s | s in a - {x} :: TenantScopedDedupId(sha256, s);
      var id := TenantScopedDedupId(sha256, x);
      assert (set s | s in a :: TenantScopedDedupId(sha256, s)) == ids + {id};
      forall s | s in a - {x} ensures TenantScopedDedupId(sha256, s) != id {
        DedupIdIdentifiesScope(sha256, s, x);
      }
    }
  }

  lemma {:induction false} InitElements<T(!new)>(s: seq<T>)
    requires s != []
    ensures Elements(s) == Elements(s[..|s| - 1]) + {s[|s| - 1]}
  {
    assert s == s[..|s| - 1] + [s[|s| - 1]];
  }

  lemma {:induction false} SinceOfIds(sha256: seq<byte> -> Digest, scopes: seq<Scope>, s: Scope)
    requires CollisionFree(sha256, Elements(scopes) + {s})
    ensures Since(IdsOf(sha256, scopes), TenantScopedDedupId(sha256, s)) == IdsOf(sha256, Since(scopes, s))
    ensures TenantScopedDedupId(sha256, s) in IdsOf(sha256, scopes) <==> s in scopes
  {
    hide TenantScopedDedupId, CollisionFree, Elements;
    if scopes != [] {
      var init, last := scopes[..|scopes| - 1], scopes[|scopes| - 1];
      InitElements(scopes);
      Narrower(sha256, Elements(scopes) + {s}, Elements(init) + {s});
      SinceOfIds(sha256, init, s);
      assert scopes == init + [last];
      assert IdsOf(sha256, scopes) == IdsOf(sha256, init) + [TenantScopedDedupId(sha256, last)];
      assert last in Elements(scopes) + {s};
      Told(sha256, Elements(scopes) + {s}, last, s);
    }
  }

  lemma {:induction false} Narrower(sha256: seq<byte> -> Digest, a: set<Scope>, b: set<Scope>)
    requires CollisionFree(sha256, a) && b <= a
    ensures CollisionFree(sha256, b)
  {
  }

  lemma {:induction false} Told(sha256: seq<byte> -> Digest, a: set<Scope>, s: Scope, t: Scope)
    requires CollisionFree(sha256, a) && s in a && t in a
    ensures TenantScopedDedupId(sha256, s) == TenantScopedDedupId(sha256, t) <==> s == t
  {
    DedupIdIdentifiesScope(sha256, s, t);
  }

  /** The guard in the terms of its callers: a tenant's key is a duplicate exactly when that
      tenant used it before and fewer than `capacity` other scopes were used since. The same
      key of another tenant is just another scope. */
  lemma {:induction false} RemembersScopes(sha256: seq<byte> -> Digest, scopes: seq<Scope>, c: nat, s: Scope)
    requires CollisionFree(sha256, Elements(scopes) + {s})
    ensures Remembers(IdsOf(sha256, scopes), c, TenantScopedDedupId(sha256, s)) <==> Remembers(scopes, c, s)
  {
    hide TenantScopedDedupId;
    SinceOfIds(sha256, scopes, s);
    SinceIsPart(scopes, s);
    var since := Since(scopes, s);
    SameImage(sha256, Elements(since));
    var image := set t | t in Elements(since) :: TenantScopedDedupId(sha256, t);
    assert Elements(IdsOf(sha256, since)) == image by {
      forall t | t in since ensures TenantScopedDedupId(sha256, t) in IdsOf(sha256, since) {
        var i :| 0 <= i < |since| && since[i] == t;
        assert IdsOf(sha256, since)[i] == TenantScopedDedupId(sha256, t);
      }
    }
  }
}
