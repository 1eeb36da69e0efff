/**
 * Laravel's cache as the widgets use it. `Cache::remember(key, ttl, fn)`
 * returns the stored value while it has not expired and otherwise stores
 * and returns a freshly computed one; `Cache::forget(key)` drops a key and
 * is a no-op for an absent key. Times are seconds on the Calendar.Stamp
 * clock; an entry stored at t with a TTL of s seconds expires at t + s.
 * Entries are indexed by Key; Keys.RenderInjective shows this is the same
 * as indexing them by the rendered strings.
 */
module Cache {
  import opened Wrappers
  import opened Keys

  /** What the widgets store: an amount, a chart series, or a record's stats. */
  datatype Value =
    | Amount(cents: int)
    | Series(points: seq<int>)
    | Average(media: real)
    | CompraTotals(qtd: int, total: int)
    | VendaTotals(qtdItens: int, valorBruto: int, valorLiquido: int)

  datatype Kind = AmountKind | SeriesKind | AverageKind | CompraKind | VendaKind

  function KindOf(v: Value): Kind {
    match v
    case Amount(_) => AmountKind
    case Series(_) => SeriesKind
    case Average(_) => AverageKind
    case CompraTotals(_, _) => CompraKind
    case VendaTotals(_, _, _) => VendaKind
  }

  datatype Entry = Entry(value: Value, expiresAt: int)

  type Entries = map<Key, Entry>

  /** A stored entry that has not expired at `now`. */
  predicate Live(m: Entries, key: Key, now: int) {
    key in m && now < m[key].expiresAt
  }

  /** The entry under key after `remember`: the stored one on a hit, `computed` until now + ttl on a miss. */
  function Stored(m: Entries, key: Key, now: int, ttl: int, computed: Value): Entry {
    if Live(m, key, now) then m[key] else Entry(computed, now + ttl)
  }

  /** The value `remember` returns when `computed` is what its callback would compute. */
  function Recall(m: Entries, key: Key, now: int, computed: Value): Value {
    if Live(m, key, now) then m[key].value else computed
  }

  /** The entries after `remember`; on a hit the update rewrites the entry already there. */
  function Refreshed(m: Entries, key: Key, now: int, ttl: int, computed: Value): Entries {
    m[key := Stored(m, key, now, ttl, computed)]
  }

  /** The key, if present, holds a value of the given kind. */
  predicate Holds(m: Entries, key: Key, k: Kind) {
    key in m ==> KindOf(m[key].value) == k
  }

  /** Key `key` of m1 is what `remember(key, ttl, computed)` at `now` leaves when starting from m0. */
  predicate Remembered(m0: Entries, m1: Entries, key: Key, now: int, ttl: int, computed: Value) {
    key in m1 && m1[key] == Refreshed(m0, key, now, ttl, computed)[key]
  }

  /** m1 and m0 agree on every key outside `keys`. */
  ghost predicate ChangedOnly(m0: Entries, m1: Entries, keys: set<Key>) {
    forall k | k !in keys :: (k in m1 <==> k in m0) && (k in m1 ==> m1[k] == m0[k])
  }

  class Store {
    var entries: Entries

    constructor ()
      ensures entries == map[]
    {
      entries := map[];
    }

    /** The unexpired value stored under key, if any. */
    function Get(key: Key, now: int): (r: Option<Value>)
      reads this
      ensures r.Some? <==> Live(entries, key, now)
      ensures r.Some? ==> r.value == entries[key].value
    {
      if key in entries && now < entries[key].expiresAt then Some(entries[key].value) else None
    }

    method Put(key: Key, v: Value, expiresAt: int)
      modifies this
      ensures entries == old(entries)[key := Entry(v, expiresAt)]
    {
      entries := entries[key := Entry(v, expiresAt)];
    }

    /** `Cache::remember`: a hit returns the stored value; a miss stores `computed` for ttl seconds. */
    method Remember(key: Key, ttl: int, now: int, computed: Value) returns (v: Value)
      modifies this
      ensures v == Recall(old(entries), key, now, computed)
      ensures entries == Refreshed(old(entries), key, now, ttl, computed)
    {
      var hit := Get(key, now);
      if hit.Some? {
        v := hit.value;
        assert entries == entries[key := entries[key]];
      } else {
        v := computed;
        Put(key, computed, now + ttl);
      }
    }

    /** `Cache::forget`. */
    method Forget(key: Key)
      modifies this
      ensures entries == old(entries) - {key}
    {
      entries := entries - {key};
    }
  }

  /** `Cache::remember` for a key that holds amounts: the amount recalled, in cents. */
  method RememberAmount(store: Store, key: Key, ttl: int, now: int, cents: int) returns (c: int)
    requires Holds(store.entries, key, AmountKind)
    modifies store
    ensures c == Recall(old(store.entries), key, now, Amount(cents)).cents
    ensures store.entries == Refreshed(old(store.entries), key, now, ttl, Amount(cents))
  {
    var v := store.Remember(key, ttl, now, Amount(cents));
    c := v.cents;
  }

  /** Within the TTL, a value stored on a miss is what every later `remember` returns. */
  lemma RecallWithinTtl(m: Entries, key: Key, t0: int, ttl: int, f0: Value, t1: int, f1: Value)
    requires !Live(m, key, t0)
    requires t1 < t0 + ttl
    ensures Recall(Refreshed(m, key, t0, ttl, f0), key, t1, f1) == f0
  {
  }

  /** Once the TTL has passed, `remember` computes again. */
  lemma RecallAfterTtl(m: Entries, key: Key, t0: int, ttl: int, f0: Value, t1: int, f1: Value)
    requires !Live(m, key, t0)
    requires t0 + ttl <= t1
    ensures Recall(Refreshed(m, key, t0, ttl, f0), key, t1, f1) == f1
  {
  }

  /** Forgetting one more key after a set of keys is forgetting their union. */
  lemma ForgetStep(m: Entries, gone: set<Key>, key: Key)
    ensures (m - gone) - {key} == m - (gone + {key})
  {
  }

  /** Forgetting equal sets of keys leaves equal maps. */
  lemma ForgetSame(m: Entries, gone: set<Key>, keys: set<Key>)
    requires gone == keys
    ensures m - gone == m - keys
  {
  }

  /** After `forget`, the next `remember` computes again and stores its result. */
  lemma RecallAfterForget(m: Entries, key: Key, now: int, ttl: int, computed: Value)
    ensures Recall(m - {key}, key, now, computed) == computed
    ensures Refreshed(m - {key}, key, now, ttl, computed) == m[key := Entry(computed, now + ttl)]
  {
    assert (m - {key})[key := Entry(computed, now + ttl)] == m[key := Entry(computed, now + ttl)];
  }

  /** Forgetting or refreshing one key does not change what another key recalls. */
  lemma RecallOtherKey(m: Entries, key: Key, other: Key, now: int, ttl: int, computed: Value, t: int, f: Value)
    requires other != key
    ensures Recall(m - {key}, other, t, f) == Recall(m, other, t, f)
    ensures Recall(Refreshed(m, key, now, ttl, computed), other, t, f) == Recall(m, other, t, f)
  {
  }

  /** `remember` with a value of the right kind keeps the key's kind, and the recalled value has it. */
  lemma RecallKind(m: Entries, key: Key, now: int, ttl: int, computed: Value)
    requires Holds(m, key, KindOf(computed))
    ensures KindOf(Recall(m, key, now, computed)) == KindOf(computed)
    ensures Holds(Refreshed(m, key, now, ttl, computed), key, KindOf(computed))
  {
  }

  /** Every key of `keys` is live at `now`. */
  ghost predicate AllLive(m: Entries, keys: set<Key>, now: int) {
    forall k | k in keys :: Live(m, k, now)
  }

  /** One `Cache::remember` call: its key, TTL and what its callback computes. */
  datatype Request = Request(key: Key, ttl: int, computed: Value)

  /** The entries after the requests are remembered one after another at `now`. */
  ghost function RememberAll(m: Entries, reqs: seq<Request>, now: int): Entries
  {
    if reqs == [] then m
    else
      var r := reqs[|reqs| - 1];
      Refreshed(RememberAll(m, reqs[..|reqs| - 1], now), r.key, now, r.ttl, r.computed)
  }

  ghost function RequestKeys(reqs: seq<Request>): set<Key> {
    if reqs == [] then {} else RequestKeys(reqs[..|reqs| - 1]) + {reqs[|reqs| - 1].key}
  }

  predicate PositiveTtls(reqs: seq<Request>) {
    forall i | 0 <= i < |reqs| :: reqs[i].ttl > 0
  }

  lemma RememberAllSnoc(m: Entries, reqs: seq<Request>, r: Request, now: int)
    ensures RememberAll(m, reqs + [r], now) == Refreshed(RememberAll(m, reqs, now), r.key, now, r.ttl, r.computed)
    ensures RequestKeys(reqs + [r]) == RequestKeys(reqs) + {r.key}
  {
    assert (reqs + [r])[..|reqs|] == reqs;
  }

  /** One request more of the same list: how RememberAll and RequestKeys grow along a prefix. */
  lemma RememberAllStep(m: Entries, reqs: seq<Request>, i: nat, now: int)
    requires 0 < i <= |reqs|
    ensures var r := reqs[i - 1];
      RememberAll(m, reqs[..i], now) == Refreshed(RememberAll(m, reqs[..i - 1], now), r.key, now, r.ttl, r.computed)
    ensures RequestKeys(reqs[..i]) == RequestKeys(reqs[..i - 1]) + {reqs[i - 1].key}
  {
    assert reqs[..i][..i - 1] == reqs[..i - 1];
  }

  /** Five requests, one `remember` after another, and the keys they touch. */
  lemma RememberAllFive(m: Entries, r: seq<Request>, now: int)
    requires |r| == 5
    ensures RememberAll(m, r, now)
      == Refreshed(Refreshed(Refreshed(Refreshed(Refreshed(m,
           r[0].key, now, r[0].ttl, r[0].computed), r[1].key, now, r[1].ttl, r[1].computed),
           r[2].key, now, r[2].ttl, r[2].computed), r[3].key, now, r[3].ttl, r[3].computed),
           r[4].key, now, r[4].ttl, r[4].computed)
    ensures RequestKeys(r) == {r[0].key, r[1].key, r[2].key, r[3].key, r[4].key}
  {
    assert r[..0] == [] && r[..5] == r;
    assert RequestKeys(r) == {r[0].key, r[1].key, r[2].key, r[3].key, r[4].key} by {
      RememberAllStep(m, r, 1, now);
      RememberAllStep(m, r, 2, now);
      RememberAllStep(m, r, 3, now);
      RememberAllStep(m, r, 4, now);
      RememberAllStep(m, r, 5, now);
    }
    RememberAllStep(m, r, 1, now);
    RememberAllStep(m, r, 2, now);
    RememberAllStep(m, r, 3, now);
    RememberAllStep(m, r, 4, now);
    RememberAllStep(m, r, 5, now);
  }

  /** Remembering two runs of requests one after the other is remembering their concatenation. */
  lemma {:induction false} RememberAllConcat(m: Entries, a: seq<Request>, b: seq<Request>, now: int)
    ensures RememberAll(RememberAll(m, a, now), b, now) == RememberAll(m, a + b, now)
    ensures RequestKeys(a + b) == RequestKeys(a) + RequestKeys(b)
  {
    if b == [] {
      assert a + b == a;
    } else {
      var b0, r := b[..|b| - 1], b[|b| - 1];
      RememberAllConcat(m, a, b0, now);
      assert a + b == (a + b0) + [r];
      RememberAllSnoc(m, a + b0, r, now);
    }
  }

  /** A key no earlier request touched still holds what it held at the start. */
  lemma {:induction false} RememberAllUntouched(m: Entries, reqs: seq<Request>, now: int, key: Key)
    requires key !in RequestKeys(reqs)
    ensures key in RememberAll(m, reqs, now) <==> key in m
    ensures key in m ==> RememberAll(m, reqs, now)[key] == m[key]
  {
    if reqs != [] {
      RememberAllUntouched(m, reqs[..|reqs| - 1], now, key);
    }
  }

  /** After a run of `remember` calls with positive TTLs, every key read is live and nothing else changed. */
  lemma {:induction false} RememberAllFacts(m: Entries, reqs: seq<Request>, now: int)
    requires PositiveTtls(reqs)
    ensures ChangedOnly(m, RememberAll(m, reqs, now), RequestKeys(reqs))
    ensures AllLive(RememberAll(m, reqs, now), RequestKeys(reqs), now)
  {
    if reqs != [] {
      var prefix := reqs[..|reqs| - 1];
      assert PositiveTtls(prefix) by {
        forall i | 0 <= i < |prefix| ensures prefix[i].ttl > 0 {
          assert prefix[i] == reqs[i];
        }
      }
      RememberAllFacts(m, prefix, now);
    }
  }
}
