/** Watch events of the coordination store and the Consul watch handler
    (client/consul.go, makeWatchHandler) that turns Consul's full listings
    into put and delete events by diffing them against a cache. */
module Watch {
  import opened Wrappers

  type Bytes = seq<bv8>

  /** Put is the zero value of the event type, so an event built without a
      type is a put. */
  datatype UpdateType = Put | Delete

  datatype KV = KV(key: string, value: Bytes)

  datatype WatchUpdate = WatchUpdate(kind: UpdateType, kv: KV)

  // ---------------------------------------------------------------------
  // Specification of one listing

  /** The keys of a listing. */
  function KeysOf(pairs: seq<KV>): set<string>
  {
    if pairs == [] then {} else KeysOf(pairs[..|pairs| - 1]) + {pairs[|pairs| - 1].key}
  }

  /** KeysOf holds exactly the keys that occur in the listing. */
  lemma {:induction false} KeysOfMembers(pairs: seq<KV>)
    ensures forall i :: 0 <= i < |pairs| ==> pairs[i].key in KeysOf(pairs)
    ensures forall k :: k in KeysOf(pairs) ==> exists i :: 0 <= i < |pairs| && pairs[i].key == k
    decreases |pairs|
  {
    if pairs != [] {
      var init := pairs[..|pairs| - 1];
      KeysOfMembers(init);
      assert forall i :: 0 <= i < |init| ==> pairs[i] == init[i];
    }
  }

  /** The cache after recording every pair of the listing in order. */
  function Absorb(cache: map<string, Bytes>, pairs: seq<KV>): map<string, Bytes>
  {
    if pairs == [] then cache
    else
      var last := pairs[|pairs| - 1];
      Absorb(cache, pairs[..|pairs| - 1])[last.key := last.value]
  }

  /** The absorbed cache holds the old keys and the listed ones. */
  lemma {:induction false} AbsorbKeys(cache: map<string, Bytes>, pairs: seq<KV>)
    ensures Absorb(cache, pairs).Keys == cache.Keys + KeysOf(pairs)
    decreases |pairs|
  {
    if pairs != [] {
      AbsorbKeys(cache, pairs[..|pairs| - 1]);
    }
  }

  /** The puts a listing causes: one per pair whose key is new or whose value
      differs from what the cache holds by the time the pair is reached. */
  function Puts(cache: map<string, Bytes>, pairs: seq<KV>): seq<WatchUpdate>
  {
    if pairs == [] then []
    else
      var last := pairs[|pairs| - 1];
      var before := Absorb(cache, pairs[..|pairs| - 1]);
      var same := last.key in before && before[last.key] == last.value;
      Puts(cache, pairs[..|pairs| - 1]) + (if same then [] else [WatchUpdate(Put, last)])
  }

  /** The entries of `order` outside `keys`, in order. */
  function Missing(order: seq<string>, keys: set<string>): (r: seq<string>)
    ensures forall k :: k in r <==> k in order && k !in keys
  {
    if order == [] then []
    else if order[0] in keys then Missing(order[1..], keys)
    else [order[0]] + Missing(order[1..], keys)
  }

  /** One delete event per key, in order. */
  function Deletes(keys: seq<string>): (r: seq<WatchUpdate>)
    ensures |r| == |keys|
    ensures forall i :: 0 <= i < |r| ==> r[i] == WatchUpdate(Delete, KV(keys[i], []))
  {
    if keys == [] then [] else [WatchUpdate(Delete, KV(keys[0], []))] + Deletes(keys[1..])
  }

  predicate Distinct(s: seq<string>)
  {
    forall i, j :: 0 <= i < j < |s| ==> s[i] != s[j]
  }

  /** `order` lists every key of `keys` exactly once, as ranging over a Go
      map does. */
  predicate Enumerates(order: seq<string>, keys: set<string>)
  {
    Distinct(order) && (forall k :: k in order ==> k in keys) && (forall k :: k in keys ==> k in order)
  }

  /** The map without the keys outside `keys`. */
  function Restrict(m: map<string, Bytes>, keys: set<string>): (r: map<string, Bytes>)
    ensures r.Keys == m.Keys * keys
    ensures forall k :: k in r ==> r[k] == m[k]
  {
    map k | k in m && k in keys :: m[k]
  }

  // ---------------------------------------------------------------------
  // Lemmas used by the handler

  lemma {:induction false} MissingDistinct(order: seq<string>, keys: set<string>)
    requires Distinct(order)
    ensures Distinct(Missing(order, keys))
    decreases |order|
  {
    if order != [] {
      MissingDistinct(order[1..], keys);
    }
  }

  /** `s` without any occurrence of `k`. */
  function Without(s: seq<string>, k: string): (r: seq<string>)
    ensures forall x :: x in r <==> x in s && x != k
  {
    if s == [] then []
    else if s[0] == k then Without(s[1..], k)
    else [s[0]] + Without(s[1..], k)
  }

  /** Recording one more key drops it from the missing list. */
  lemma {:induction false} MissingAdd(order: seq<string>, keys: set<string>, k: string)
    ensures Missing(order, keys + {k}) == Without(Missing(order, keys), k)
    decreases |order|
  {
    if order != [] {
      MissingAdd(order[1..], keys, k);
    }
  }

  /** In a list without repetitions, cutting out the first occurrence of a
      key removes it altogether. */
  lemma {:induction false} CutFirst(s: seq<string>, j: nat, k: string)
    requires Distinct(s) && j < |s| && s[j] == k
    ensures s[..j] + s[j + 1..] == Without(s, k)
    decreases j
  {
    if j == 0 {
      assert k !in s[1..];
      WithoutAbsent(s[1..], k);
    } else {
      CutFirst(s[1..], j - 1, k);
      assert s[..j] + s[j + 1..] == [s[0]] + (s[1..][..j - 1] + s[1..][j..]);
    }
  }

  lemma {:induction false} WithoutAbsent(s: seq<string>, k: string)
    requires k !in s
    ensures Without(s, k) == s
    decreases |s|
  {
    if s != [] {
      WithoutAbsent(s[1..], k);
      assert s == [s[0]] + s[1..];
    }
  }

  lemma {:induction false} MissingUnchanged(order: seq<string>, keys: set<string>, k: string)
    requires k !in order
    ensures Missing(order, keys + {k}) == Missing(order, keys)
    decreases |order|
  {
    if order != [] {
      MissingUnchanged(order[1..], keys, k);
    }
  }

  lemma KeysOfStep(pairs: seq<KV>, i: nat)
    requires i < |pairs|
    ensures KeysOf(pairs[..i + 1]) == KeysOf(pairs[..i]) + {pairs[i].key}
  {
    assert pairs[..i + 1][..i] == pairs[..i];
  }

  /** Deleting the missing keys one by one from the absorbed cache leaves
      exactly the listed keys. */
  lemma DropMissing(c: map<string, Bytes>, order: seq<string>, keys: set<string>)
    requires c.Keys == (set k | k in order) + keys
    ensures Restrict(c, keys) == map k | k in c && k !in Missing(order, keys) :: c[k]
  {
  }

  // ---------------------------------------------------------------------
  // The handler

  /** A single-pair notification: a nil pair is dropped, anything else is
      forwarded as a one-event batch; the cache is not consulted. */
  function HandlePair(pair: Option<KV>): (sent: Option<seq<WatchUpdate>>)
    ensures pair.None? <==> sent.None?
    ensures pair.Some? ==> sent.value == [WatchUpdate(Put, pair.value)]
  {
    match pair
    case None => None
    case Some(kv) => Some([WatchUpdate(Put, kv)])
  }

  /** The closure's state: the last value seen for each key. */
  class ConsulWatch {
    var cache: map<string, Bytes>

    constructor ()
      ensures cache == map[]
    {
      cache := map[];
    }

    /** A full listing. `order` is the order in which ranging over the cache
        happens to produce its keys. */
    method HandlePairs(pairs: seq<KV>, order: seq<string>) returns (updates: seq<WatchUpdate>)
      requires Enumerates(order, cache.Keys)
      modifies this
      ensures updates == Puts(old(cache), pairs) + Deletes(Missing(order, KeysOf(pairs)))
      ensures cache == Restrict(Absorb(old(cache), pairs), KeysOf(pairs))
    {
      assert cache.Keys == set k | k in order;
      var expected;
      updates, expected := RecordPairs(pairs, order);
      var absorbed := cache;
      var deletes := DropKeys(expected);
      updates := updates + deletes;
      AbsorbKeys(old(cache), pairs);
      DropMissing(absorbed, order, KeysOf(pairs));
    }

    /** The loop over the listing: changed pairs become puts and enter the
        cache, and every listed key leaves the expected list. */
    method RecordPairs(pairs: seq<KV>, order: seq<string>) returns (puts: seq<WatchUpdate>, expected: seq<string>)
      requires Enumerates(order, cache.Keys)
      modifies this
      ensures cache == Absorb(old(cache), pairs)
      ensures puts == Puts(old(cache), pairs)
      ensures expected == Missing(order, KeysOf(pairs))
    {
      puts := [];
      expected := order;
      MissingUnchangedEmpty(order);
      assert pairs[..0] == [];
      ghost var c0 := cache;
      var i := 0;
      while i < |pairs|
        invariant 0 <= i <= |pairs|
        invariant cache == Absorb(c0, pairs[..i])
        invariant puts == Puts(c0, pairs[..i])
        invariant expected == Missing(order, KeysOf(pairs[..i]))
        invariant Distinct(expected)
      {
        var pair := pairs[i];
        KeysOfStep(pairs, i);
        MissingAdd(order, KeysOf(pairs[..i]), pair.key);
        expected := RemoveKey(expected, pair.key);
        MissingDistinct(order, KeysOf(pairs[..i + 1]));
        RecordStep(c0, pairs, i);
        if pair.key in cache && cache[pair.key] == pair.value {
          assert cache[pair.key := pair.value] == cache;
        } else {
          puts := puts + [WatchUpdate(Put, pair)];
          cache := cache[pair.key := pair.value];
        }
        i := i + 1;
      }
      assert pairs[..|pairs|] == pairs;
    }

    /** The loop over the keys left expected: a delete event each, and the
        key leaves the cache. */
    method DropKeys(expected: seq<string>) returns (deletes: seq<WatchUpdate>)
      modifies this
      ensures deletes == Deletes(expected)
      ensures cache == map k | k in old(cache) && k !in expected :: old(cache)[k]
    {
      deletes := [];
      var d := 0;
      while d < |expected|
        invariant 0 <= d <= |expected|
        invariant cache == map k | k in old(cache) && k !in expected[..d] :: old(cache)[k]
        invariant deletes == Deletes(expected[..d])
      {
        deletes := deletes + [WatchUpdate(Delete, KV(expected[d], []))];
        DeletesStep(expected, d);
        cache := map k | k in cache && k != expected[d] :: cache[k];
        d := d + 1;
      }
      assert expected[..d] == expected;
    }
  }

  lemma RecordStep(cache: map<string, Bytes>, pairs: seq<KV>, i: nat)
    requires i < |pairs|
    ensures var before := Absorb(cache, pairs[..i]);
            var same := pairs[i].key in before && before[pairs[i].key] == pairs[i].value;
            && Absorb(cache, pairs[..i + 1]) == before[pairs[i].key := pairs[i].value]
            && Puts(cache, pairs[..i + 1]) == Puts(cache, pairs[..i]) + (if same then [] else [WatchUpdate(Put, pairs[i])])
  {
    assert pairs[..i + 1][..i] == pairs[..i];
  }

  lemma {:induction false} DeletesStep(keys: seq<string>, d: nat)
    requires d < |keys|
    ensures Deletes(keys[..d + 1]) == Deletes(keys[..d]) + [WatchUpdate(Delete, KV(keys[d], []))]
  {
    var a := Deletes(keys[..d + 1]);
    var b := Deletes(keys[..d]) + [WatchUpdate(Delete, KV(keys[d], []))];
    assert |a| == |b|;
    forall i | 0 <= i < |a| ensures a[i] == b[i] {
    }
  }

  /** The inner search of the handler: the first entry equal to `key` is
      cut out of the list. */
  method RemoveKey(expected: seq<string>, key: string) returns (r: seq<string>)
    requires Distinct(expected)
    ensures r == Without(expected, key)
  {
    r := expected;
    var j := 0;
    while j < |expected| && expected[j] != key
      invariant 0 <= j <= |expected|
      invariant forall m :: 0 <= m < j ==> expected[m] != key
    {
      j := j + 1;
    }
    if j < |expected| {
      CutFirst(expected, j, key);
      r := expected[..j] + expected[j + 1..];
    } else {
      WithoutAbsent(expected, key);
    }
  }

  lemma MissingUnchangedEmpty(order: seq<string>)
    ensures Missing(order, KeysOf([])) == order
  {
    MissingNone(order);
  }

  lemma {:induction false} MissingNone(order: seq<string>)
    ensures Missing(order, {}) == order
    decreases |order|
  {
    if order != [] {
      MissingNone(order[1..]);
      assert order == [order[0]] + order[1..];
    }
  }

  // ---------------------------------------------------------------------
  // Properties of one listing

  /** Puts are puts of listed pairs, at most one per pair. */
  lemma {:induction false} PutsOfPairs(cache: map<string, Bytes>, pairs: seq<KV>)
    ensures |Puts(cache, pairs)| <= |pairs|
    ensures forall i :: 0 <= i < |Puts(cache, pairs)| ==>
              Puts(cache, pairs)[i].kind == Put && Puts(cache, pairs)[i].kv in pairs
    decreases |pairs|
  {
    if pairs != [] {
      var init := pairs[..|pairs| - 1];
      PutsOfPairs(cache, init);
      forall kv | kv in init ensures kv in pairs { }
    }
  }

  /** In an emitted batch no put follows a delete. */
  lemma PutsBeforeDeletes(cache: map<string, Bytes>, pairs: seq<KV>, order: seq<string>)
    ensures var u := Puts(cache, pairs) + Deletes(Missing(order, KeysOf(pairs)));
            forall i, j :: 0 <= i < j < |u| && u[i].kind == Delete ==> u[j].kind == Delete
  {
    PutsOfPairs(cache, pairs);
  }

  /** A key the listing does not mention keeps its cached value. */
  lemma {:induction false} AbsorbUnlisted(cache: map<string, Bytes>, pairs: seq<KV>, k: string)
    requires forall i :: 0 <= i < |pairs| ==> pairs[i].key != k
    ensures k in Absorb(cache, pairs) <==> k in cache
    ensures k in cache ==> Absorb(cache, pairs)[k] == cache[k]
    decreases |pairs|
  {
    if pairs != [] {
      AbsorbUnlisted(cache, pairs[..|pairs| - 1], k);
    }
  }

  /** The cache ends up holding, for each listed key, the value of the last
      pair with that key. */
  lemma {:induction false} AbsorbLastWins(cache: map<string, Bytes>, pairs: seq<KV>, i: nat)
    requires i < |pairs|
    requires forall j :: i < j < |pairs| ==> pairs[j].key != pairs[i].key
    ensures pairs[i].key in Absorb(cache, pairs) && Absorb(cache, pairs)[pairs[i].key] == pairs[i].value
    decreases |pairs|
  {
    if i < |pairs| - 1 {
      AbsorbLastWins(cache, pairs[..|pairs| - 1], i);
    }
  }

  /** After a listing the cache holds exactly the listed keys, each with its
      last listed value. */
  lemma ListingDefinesCache(cache: map<string, Bytes>, pairs: seq<KV>, i: nat)
    requires i < |pairs|
    requires forall j :: i < j < |pairs| ==> pairs[j].key != pairs[i].key
    ensures var c := Restrict(Absorb(cache, pairs), KeysOf(pairs));
            && c.Keys == KeysOf(pairs)
            && pairs[i].key in c
            && c[pairs[i].key] == pairs[i].value
  {
    AbsorbKeys(cache, pairs);
    KeysOfMembers(pairs);
    AbsorbLastWins(cache, pairs, i);
  }

  predicate DistinctKeys(pairs: seq<KV>)
  {
    forall i, j :: 0 <= i < j < |pairs| ==> pairs[i].key != pairs[j].key
  }

  /** A listing that only repeats what the cache holds emits no put. */
  lemma {:induction false} PutsQuiet(cache: map<string, Bytes>, pairs: seq<KV>)
    requires DistinctKeys(pairs)
    requires forall i :: 0 <= i < |pairs| ==> pairs[i].key in cache && cache[pairs[i].key] == pairs[i].value
    ensures Puts(cache, pairs) == []
    decreases |pairs|
  {
    if pairs != [] {
      var init := pairs[..|pairs| - 1];
      PutsQuiet(cache, init);
      AbsorbUnlisted(cache, init, pairs[|pairs| - 1].key);
    }
  }

  /** When every enumerated key is listed, nothing is missing. */
  lemma {:induction false} MissingNoneLeft(order: seq<string>, keys: set<string>)
    requires forall k :: k in order ==> k in keys
    ensures Missing(order, keys) == []
    decreases |order|
  {
    if order != [] {
      MissingNoneLeft(order[1..], keys);
    }
  }

  /** Replaying a listing with distinct keys right after it was absorbed
      emits nothing and leaves the cache as it is. */
  lemma ReplayIsQuiet(cache: map<string, Bytes>, pairs: seq<KV>, order: seq<string>)
    requires DistinctKeys(pairs)
    requires Enumerates(order, Restrict(Absorb(cache, pairs), KeysOf(pairs)).Keys)
    ensures var c := Restrict(Absorb(cache, pairs), KeysOf(pairs));
            && Puts(c, pairs) + Deletes(Missing(order, KeysOf(pairs))) == []
            && Restrict(Absorb(c, pairs), KeysOf(pairs)) == c
  {
    var c := Restrict(Absorb(cache, pairs), KeysOf(pairs));
    forall i | 0 <= i < |pairs| ensures pairs[i].key in c && c[pairs[i].key] == pairs[i].value {
      ListingDefinesCache(cache, pairs, i);
    }
    PutsQuiet(c, pairs);
    AbsorbKeys(cache, pairs);
    AbsorbKeys(c, pairs);
    MissingNoneLeft(order, KeysOf(pairs));
    var c2 := Restrict(Absorb(c, pairs), KeysOf(pairs));
    forall k | k in c2 ensures c2[k] == c[k] {
      KeysOfMembers(pairs);
      var i :| 0 <= i < |pairs| && pairs[i].key == k;
      ListingDefinesCache(c, pairs, i);
    }
  }
}
