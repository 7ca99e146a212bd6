/** `CachedDocument`: a read-through, write-through Redis cache in front of
    a document collection. Records are cached under `_id:<id>|`; each extra
    lookup group caches a link from `field:value|...` to that key. */
module Cache {
  import opened Wrappers
  import opened Values
  import opened Foreign
  import opened PyText
  import opened StringOrder
  import opened Hex
  import Store
  import FieldCodec

  /** A Redis value with the expiry it was written with (`setex`). */
  datatype Entry = Entry(payload: seq<byte>, ttl: nat)

  /** The Redis database: byte-string keys to entries. */
  type Redis = map<seq<byte>, Entry>

  /** `timedelta(hours=1)`, the default time to live, in seconds. */
  const DefaultTtl: nat := 3600

  /** The Redis key a `str` key is sent as. */
  function RedisKey(p: Primitives, key: string): seq<byte> {
    p.utf8Encode(key)
  }

  /** One `f"{field}:{value}|"` segment of a cache key. */
  function Segment(p: Primitives, field: string, v: Value): string {
    field + ":" + PyStr(p, v) + "|"
  }

  /** Every listed field is a key of the record. */
  predicate Complete(fields: seq<string>, d: Dict) {
    forall i :: 0 <= i < |fields| ==> fields[i] in d
  }

  /** A prefix of a complete field list is complete. */
  lemma CompletePrefix(fields: seq<string>, d: Dict, n: nat)
    requires Complete(fields, d) && n <= |fields|
    ensures Complete(fields[..n], d)
  {
  }

  /** The segments of the listed fields, in the listed order. */
  function KeyOver(p: Primitives, fields: seq<string>, d: Dict): (r: string)
    requires Complete(fields, d)
    ensures r == [] <==> fields == []
    ensures r != [] ==> r[|r| - 1] == '|'
  {
    if fields == [] then ""
    else
      var rest := KeyOver(p, fields[1..], d);
      var r := Segment(p, fields[0], d[fields[0]]) + rest;
      assert rest != [] ==> r[|r| - 1] == rest[|rest| - 1];
      r
  }

  lemma {:induction false} KeyOverSnoc(p: Primitives, fields: seq<string>, d: Dict, f: string)
    requires Complete(fields, d) && f in d
    ensures Complete(fields + [f], d)
    ensures KeyOver(p, fields + [f], d) == KeyOver(p, fields, d) + Segment(p, f, d[f])
  {
    assert Complete(fields + [f], d) by {
      forall i | 0 <= i < |fields + [f]| ensures (fields + [f])[i] in d {
        if i < |fields| {
          assert (fields + [f])[i] == fields[i];
        }
      }
    }
    if fields == [] {
      assert [] + [f] == [f];
      assert [f][1..] == [];
    } else {
      assert (fields + [f])[1..] == fields[1..] + [f];
      KeyOverSnoc(p, fields[1..], d, f);
    }
  }

  /** `_build_redis_lookup_key(d)`: the segments of all keys of `d`, in
      ascending order of key. */
  ghost function LookupKey(p: Primitives, d: Dict): string {
    var fields := SortedElements(d.Keys);
    assert Complete(fields, d) by {
      forall i | 0 <= i < |fields| ensures fields[i] in d {
        assert fields[i] in fields;
      }
    }
    KeyOver(p, fields, d)
  }

  /** `f"_id:{data_id}|"`, the key a record is cached under. */
  function PrimaryKey(p: Primitives, id: Value): (r: string)
    ensures r == Segment(p, "_id", id)
  {
    "_id:" + PyStr(p, id) + "|"
  }

  /** The position of the first missing field. */
  function FirstMissing(fields: seq<string>, d: Dict): (i: nat)
    requires !Complete(fields, d)
    ensures i < |fields| && fields[i] !in d
    ensures forall j :: 0 <= j < i ==> fields[j] in d
  {
    if fields[0] !in d then 0
    else
      assert !Complete(fields[1..], d) by {
        var k :| 0 <= k < |fields| && fields[k] !in d;
        assert fields[1..][k - 1] == fields[k];
      }
      var i := FirstMissing(fields[1..], d);
      assert forall j :: 1 <= j < i + 1 ==> fields[j] == fields[1..][j - 1];
      1 + i
  }

  /** The key of one lookup group for a record: `data[item]` raises
      `KeyError` at the first field the record lacks. */
  function GroupKey(p: Primitives, group: seq<string>, d: Dict): (r: Result<string, Error>)
    ensures r.Ok? <==> Complete(group, d)
    ensures r.Err? ==> exists i :: 0 <= i < |group| && group[i] !in d && r.error == KeyError(group[i])
  {
    if Complete(group, d) then Ok(KeyOver(p, group, d))
    else Err(KeyError(group[FirstMissing(group, d)]))
  }

  /** The link entries `_update_redis_cache` writes, group by group,
      stopping at the first group whose key cannot be built. Nothing is
      removed, and every entry written points at `target` with the one TTL. */
  function GroupWrites(p: Primitives, groups: seq<seq<string>>, d: Dict, target: seq<byte>, ttl: nat, redis: Redis)
    : (r: (Redis, Option<Error>))
    ensures redis.Keys <= r.0.Keys
    ensures forall k :: k in r.0 ==> (k in redis && r.0[k] == redis[k]) || r.0[k] == Entry(target, ttl)
    ensures r.1.None? <==> forall i :: 0 <= i < |groups| ==> Complete(groups[i], d)
    ensures r.1.Some? ==> r.1.value.KeyError?
  {
    if groups == [] then (redis, None)
    else
      match GroupKey(p, groups[0], d)
      case Err(e) => (redis, Some(e))
      case Ok(k) =>
        var r := GroupWrites(p, groups[1..], d, target, ttl, redis[RedisKey(p, k) := Entry(target, ttl)]);
        assert forall i :: 1 <= i < |groups| ==> groups[i] == groups[1..][i - 1];
        r
  }

  /** `_update_redis_cache(data)`: the record is written under its primary
      key, then each lookup group's key is pointed at the primary key. */
  function CacheUpdate(p: Primitives, lookups: seq<seq<string>>, ttl: nat, redis: Redis, data: Dict)
    : (r: (Redis, Option<Error>))
    ensures redis.Keys <= r.0.Keys
    ensures forall k :: k in r.0 && !(k in redis && r.0[k] == redis[k]) ==> r.0[k].ttl == ttl
    ensures "_id" !in data ==> r == (redis, Some(AssertionError))
    ensures r.1.None? <==> ("_id" in data && p.jsonDumps(VDict(data)).Ok?
                            && forall i :: 0 <= i < |lookups| ==> Complete(lookups[i], data))
  {
    if "_id" !in data then (redis, Some(AssertionError))
    else
      var primary := RedisKey(p, PrimaryKey(p, data["_id"]));
      match FieldCodec.Dumps(p, VDict(data))
      case Err(e) => (redis, Some(e))
      case Ok(b) => GroupWrites(p, lookups, data, primary, ttl, redis[primary := Entry(b, ttl)])
  }

  /** The Redis key a lookup resolves to: a key not starting with `_id:`
      is followed through the link stored under it, if there is one. */
  function ResolvedKey(p: Primitives, redis: Redis, derived: string): (r: seq<byte>)
    ensures StartsWith(derived, "_id:") ==> r == RedisKey(p, derived)
    ensures RedisKey(p, derived) !in redis ==> r == RedisKey(p, derived)
  {
    if StartsWith(derived, "_id:") then RedisKey(p, derived)
    else if RedisKey(p, derived) in redis then redis[RedisKey(p, derived)].payload
    else RedisKey(p, derived)
  }

  /** What `get(filter, try_convert=False)` returns, and Redis afterwards: a
      hit is loaded from its JSON; a miss reads the collection and caches
      the record found. */
  ghost function GetOutcome(p: Primitives, lookups: seq<seq<string>>, ttl: nat, redis: Redis,
                            docs: seq<Dict>, filter: Dict): (Result<Option<Value>, Error>, Redis)
  {
    var key := ResolvedKey(p, redis, LookupKey(p, filter));
    if key in redis then
      match FieldCodec.Loads(p, redis[key].payload)
      case Ok(v) => (Ok(Some(v)), redis)
      case Err(e) => (Err(e), redis)
    else
      match Store.FirstMatch(docs, filter)
      case None => (Ok(None), redis)
      case Some(i) =>
        var doc := Store.Project(docs[i], map[]);
        var (r, err) := CacheUpdate(p, lookups, ttl, redis, doc);
        if err.Some? then (Err(err.value), r) else (Ok(Some(VDict(doc))), r)
  }

  /** Every lookup group is in ascending order. */
  predicate GroupsSorted(lookups: seq<seq<string>>) {
    forall i :: 0 <= i < |lookups| ==> IsSorted(lookups[i])
  }

  class CachedDocument {
    const p: Primitives
    const document: Store.Collection
    const lookups: seq<seq<string>>
    const ttl: nat
    var redis: Redis

    /** Every lookup group is kept in ascending order, which is what lets
        `get` rebuild a group's key from a filter (`ReadThroughSecondary`). */
    predicate Valid()
      reads this
    {
      GroupsSorted(lookups)
    }

    /** Keeps each extra lookup group sorted, so that a group's key can be
        rebuilt from a filter with `_build_redis_lookup_key`. */
    constructor (p: Primitives, document: Store.Collection, redis: Redis,
                 extraLookups: Option<seq<seq<string>>>, ttl: nat)
      ensures Valid()
      ensures this.p == p && this.document == document && this.redis == redis && this.ttl == ttl
      ensures extraLookups.None? ==> lookups == []
      ensures extraLookups.Some? ==> |lookups| == |extraLookups.value|
      ensures extraLookups.Some? ==> forall i :: 0 <= i < |lookups| ==> lookups[i] == Sort(extraLookups.value[i])
    {
      var groups: seq<seq<string>> := [];
      if extraLookups.Some? {
        var i := 0;
        while i < |extraLookups.value|
          invariant 0 <= i <= |extraLookups.value| && |groups| == i
          invariant forall j :: 0 <= j < i ==> groups[j] == Sort(extraLookups.value[j])
        {
          groups := groups + [Sort(extraLookups.value[i])];
          i := i + 1;
        }
      }
      this.p := p;
      this.document := document;
      this.lookups := groups;
      this.ttl := ttl;
      this.redis := redis;
    }

    /** `_build_redis_lookup_key`: the filter's keys (listed in `order`, the
        dict's own order) are sorted, then their segments concatenated. The
        result does not depend on `order`. */
    static method BuildLookupKey(p: Primitives, filter: Dict, order: seq<string>) returns (key: string)
      requires Distinct(order) && forall x :: x in order <==> x in filter
      ensures key == LookupKey(p, filter)
    {
      var keys := SortedKeys(order, filter);
      key := JoinSegments(p, keys, filter);
    }

    /** The loop of `_build_redis_lookup_key`: one `field:value|` segment
        per key, in the given order. */
    static method JoinSegments(p: Primitives, keys: seq<string>, filter: Dict) returns (key: string)
      requires Complete(keys, filter)
      ensures key == KeyOver(p, keys, filter)
    {
      key := "";
      var i := 0;
      while i < |keys|
        invariant 0 <= i <= |keys|
        invariant Complete(keys[..i], filter)
        invariant key == KeyOver(p, keys[..i], filter)
      {
        CompletePrefix(keys, filter, i + 1);
        KeyOverSnoc(p, keys[..i], filter, keys[i]);
        assert keys[..i + 1] == keys[..i] + [keys[i]];
        key := key + Segment(p, keys[i], filter[keys[i]]);
        i := i + 1;
      }
      assert keys[..|keys|] == keys;
    }

    /** `sorted(filter.keys())`. */
    static method SortedKeys(order: seq<string>, filter: Dict) returns (keys: seq<string>)
      requires Distinct(order) && forall x :: x in order <==> x in filter
      ensures keys == SortedElements(filter.Keys) && Complete(keys, filter)
    {
      keys := Sort(order);
      SortListing(order, filter.Keys);
      assert Complete(keys, filter) by {
        forall i | 0 <= i < |keys| ensures keys[i] in filter {
          assert keys[i] in keys;
        }
      }
    }

    /** The inner loop of `_update_redis_cache`: one group's key, or the
        `KeyError` of its first field the record lacks. */
    static method BuildGroupKey(p: Primitives, group: seq<string>, data: Dict) returns (r: Result<string, Error>)
      ensures r == GroupKey(p, group, data)
    {
      var key := "";
      var i := 0;
      while i < |group|
        invariant 0 <= i <= |group|
        invariant Complete(group[..i], data)
        invariant key == KeyOver(p, group[..i], data)
      {
        if group[i] !in data {
          assert FirstMissing(group, data) == i;
          return Err(KeyError(group[i]));
        }
        KeyOverSnoc(p, group[..i], data, group[i]);
        assert group[..i + 1] == group[..i] + [group[i]];
        key := key + Segment(p, group[i], data[group[i]]);
        i := i + 1;
      }
      assert group[..|group|] == group;
      return Ok(key);
    }

    /** `_update_redis_cache(data)`. */
    method UpdateRedisCache(data: Dict) returns (err: Option<Error>)
      modifies this
      ensures (redis, err) == CacheUpdate(p, lookups, ttl, old(redis), data)
    {
      if "_id" !in data {
        return Some(AssertionError);
      }
      var target := RedisKey(p, PrimaryKey(p, data["_id"]));
      var dumped := FieldCodec.Dumps(p, VDict(data));
      if dumped.Err? {
        return Some(dumped.error);
      }
      redis := redis[target := Entry(dumped.value, ttl)];
      ghost var final := GroupWrites(p, lookups, data, target, ttl, redis);
      var i := 0;
      while i < |lookups|
        invariant 0 <= i <= |lookups|
        invariant GroupWrites(p, lookups[i..], data, target, ttl, redis) == final
      {
        assert lookups[i..][0] == lookups[i];
        var key := BuildGroupKey(p, lookups[i], data);
        if key.Err? {
          return Some(key.error);
        }
        assert lookups[i..][1..] == lookups[i + 1..];
        redis := redis[RedisKey(p, key.value) := Entry(target, ttl)];
        i := i + 1;
      }
      return None;
    }

    /** `get(filter, try_convert=False)`: a cache hit is returned without
        reading the collection; a miss reads it and, when a record is
        found, caches it. */
    method Get(filter: Dict, order: seq<string>) returns (r: Result<Option<Value>, Error>)
      requires Valid()
      requires Distinct(order) && forall x :: x in order <==> x in filter
      modifies this
      ensures (r, redis) == GetOutcome(p, lookups, ttl, old(redis), document.docs, filter)
    {
      var derived := BuildLookupKey(p, filter, order);
      var lookupKey := RedisKey(p, derived);
      if !StartsWith(derived, "_id:") && lookupKey in redis {
        lookupKey := redis[lookupKey].payload;
      }
      if lookupKey in redis {
        var loaded := FieldCodec.Loads(p, redis[lookupKey].payload);
        if loaded.Err? {
          return Err(loaded.error);
        }
        return Ok(Some(loaded.value));
      }
      var found := document.FindOne(filter, map[]);
      if found.None? {
        return Ok(None);
      }
      var err := UpdateRedisCache(found.value);
      if err.Some? {
        return Err(err.value);
      }
      return Ok(Some(VDict(found.value)));
    }

    /** `set(filter, data)`: without `_id` the cache is skipped; otherwise
        it is refreshed first, and an error there stops the store write.
        The store write is an upsert. */
    method Set(filter: Dict, data: Dict) returns (err: Option<Error>)
      requires Valid()
      modifies this, document
      ensures "_id" !in data ==> redis == old(redis) && err.None?
      ensures "_id" in data ==> (redis, err) == CacheUpdate(p, lookups, ttl, old(redis), data)
      ensures document.docs == (if err.None? then Store.SetResult(old(document.docs), filter, data, true)
                                else old(document.docs))
    {
      err := None;
      if "_id" in data {
        err := UpdateRedisCache(data);
        if err.Some? {
          return;
        }
      }
      document.SetOne(filter, data, true);
    }

    /** An entry reaching the end of its time to live. */
    method Expire(key: seq<byte>)
      modifies this
      ensures redis == old(redis) - {key}
    {
      redis := redis - {key};
    }
  }

  // ----- Properties of the cache keys -----

  /** The sorted field list covers the record. */
  lemma SortedFieldsComplete(d: Dict)
    ensures Complete(SortedElements(d.Keys), d)
  {
    var fields := SortedElements(d.Keys);
    forall i | 0 <= i < |fields| ensures fields[i] in d {
      assert fields[i] in fields;
    }
  }

  /** A cache key is empty only for the empty filter and otherwise ends
      in `|`. */
  lemma LookupKeyEnds(p: Primitives, d: Dict)
    ensures LookupKey(p, d) == "" <==> d == map[]
    ensures d != map[] ==> LookupKey(p, d)[|LookupKey(p, d)| - 1] == '|'
  {
    var fields := SortedElements(d.Keys);
    assert |fields| == |d.Keys|;
    assert d == map[] <==> |d.Keys| == 0;
  }

  lemma SingleSorted(k: string)
    ensures SortedElements({k}) == [k]
  {
    var r := SortedElements({k});
    assert r[0] in r;
  }

  /** The key of a one-field filter is that field's segment. */
  lemma SingleLookupKey(p: Primitives, k: string, v: Value)
    ensures LookupKey(p, map[k := v]) == k + ":" + PyStr(p, v) + "|"
  {
    SingleSorted(k);
    assert map[k := v].Keys == {k};
    assert [k][1..] == [];
    assert KeyOver(p, [k], map[k := v]) == Segment(p, k, v) + "";
  }

  /** An `_id` filter's key is the primary key a record is cached under,
      which `get` looks up directly. */
  lemma PrimaryKeyIsLookupKey(p: Primitives, id: Value)
    ensures LookupKey(p, map["_id" := id]) == PrimaryKey(p, id)
    ensures StartsWith(PrimaryKey(p, id), "_id:")
  {
    SingleLookupKey(p, "_id", id);
    assert PrimaryKey(p, id)[..4] == "_id:";
  }

  /** A sorted, duplicate-free list is the sorted listing of its elements. */
  lemma SortedListing(group: seq<string>)
    requires IsSorted(group) && Distinct(group)
    ensures SortedElements(set i | 0 <= i < |group| :: group[i]) == group
  {
    var s := set i | 0 <= i < |group| :: group[i];
    assert forall x :: x in group <==> x in s by {
      forall x | x in group ensures x in s {
        var i :| 0 <= i < |group| && group[i] == x;
      }
    }
    SortListing(group, s);
    SortedUnique(Sort(group), group);
  }

  /** A sorted, duplicate-free group's key is the lookup key of the record
      cut down to the group's fields, so `get` with that filter finds it. */
  lemma GroupKeyIsLookupKey(p: Primitives, group: seq<string>, data: Dict)
    requires IsSorted(group) && Distinct(group) && Complete(group, data)
    ensures GroupKey(p, group, data) == Ok(LookupKey(p, Restrict(data, group)))
  {
    var cut := Restrict(data, group);
    var s := set i | 0 <= i < |group| :: group[i];
    assert cut.Keys == s by {
      forall x | x in cut ensures x in s {
        var i :| 0 <= i < |group| && group[i] == x;
      }
    }
    SortedListing(group);
    assert Complete(group, cut);
    KeyOverAgrees(p, group, data, cut);
  }

  /** The record cut down to some fields. */
  function Restrict(data: Dict, fields: seq<string>): (r: Dict)
    ensures forall k :: k in r <==> k in data && k in fields
  {
    map k | k in data && k in fields :: data[k]
  }

  lemma {:induction false} KeyOverAgrees(p: Primitives, fields: seq<string>, d1: Dict, d2: Dict)
    requires Complete(fields, d1) && Complete(fields, d2)
    requires forall i :: 0 <= i < |fields| ==> d1[fields[i]] == d2[fields[i]]
    ensures KeyOver(p, fields, d1) == KeyOver(p, fields, d2)
  {
    if fields != [] {
      assert forall i :: 0 <= i < |fields[1..]| ==> fields[1..][i] == fields[i + 1];
      KeyOverAgrees(p, fields[1..], d1, d2);
    }
  }

  /** The index of the first `c` in `s`, or `|s|`. */
  function IndexOf(s: string, c: char): (i: nat)
    ensures i <= |s|
  {
    if s == [] then 0 else if s[0] == c then 0 else 1 + IndexOf(s[1..], c)
  }

  lemma {:induction false} IndexOfPrefix(a: string, c: char, rest: string)
    requires c !in a
    ensures IndexOf(a + [c] + rest, c) == |a|
  {
    if a != [] {
      assert (a + [c] + rest)[1..] == a[1..] + [c] + rest;
      IndexOfPrefix(a[1..], c, rest);
    }
  }

  /** A segment whose field has no `:` or `|` and whose value has no `|`
      is recovered from the front of a key. */
  lemma SegmentSplit(f: string, v: string, x: string, g: string, w: string, y: string)
    requires ':' !in f && '|' !in f && ':' !in g && '|' !in g && '|' !in v && '|' !in w
    requires f + ":" + v + "|" + x == g + ":" + w + "|" + y
    ensures f == g && v == w && x == y
  {
    var s := f + ":" + v + "|" + x;
    assert s == f + [':'] + (v + "|" + x);
    assert s == g + [':'] + (w + "|" + y);
    IndexOfPrefix(f, ':', v + "|" + x);
    IndexOfPrefix(g, ':', w + "|" + y);
    assert f == s[..|f|] && g == s[..|g|];
    var t := s[|f| + 1..];
    assert t == v + [ '|' ] + x && t == w + ['|'] + y;
    IndexOfPrefix(v, '|', x);
    IndexOfPrefix(w, '|', y);
    assert v == t[..|v|] && w == t[..|w|];
    assert x == t[|v| + 1..] && y == t[|w| + 1..];
  }

  /** Field names free of `:` and `|`, and values whose `str()` has no `|`. */
  predicate CleanSegments(p: Primitives, fields: seq<string>, d: Dict)
    requires Complete(fields, d)
  {
    forall i :: 0 <= i < |fields| ==>
      ':' !in fields[i] && '|' !in fields[i] && '|' !in PyStr(p, d[fields[i]])
  }

  lemma {:induction false} KeyOverInjective(p: Primitives, fs1: seq<string>, d1: Dict, fs2: seq<string>, d2: Dict)
    requires Complete(fs1, d1) && Complete(fs2, d2)
    requires CleanSegments(p, fs1, d1) && CleanSegments(p, fs2, d2)
    requires KeyOver(p, fs1, d1) == KeyOver(p, fs2, d2)
    ensures fs1 == fs2
    ensures forall i :: 0 <= i < |fs1| ==> PyStr(p, d1[fs1[i]]) == PyStr(p, d2[fs2[i]])
  {
    if fs1 != [] && fs2 != [] {
      var r1 := fs1[1..];
      var r2 := fs2[1..];
      assert forall i :: 0 <= i < |r1| ==> r1[i] == fs1[i + 1];
      assert forall i :: 0 <= i < |r2| ==> r2[i] == fs2[i + 1];
      SegmentSplit(fs1[0], PyStr(p, d1[fs1[0]]), KeyOver(p, r1, d1),
                   fs2[0], PyStr(p, d2[fs2[0]]), KeyOver(p, r2, d2));
      KeyOverInjective(p, r1, d1, r2, d2);
      assert fs1 == [fs1[0]] + r1 && fs2 == [fs2[0]] + r2;
    }
  }

  /** Filters whose keys have no `:` or `|` and whose values' `str()` has
      no `|` share a cache key only when they have the same keys and their
      values print the same. */
  lemma LookupKeyInjective(p: Primitives, d1: Dict, d2: Dict)
    requires forall k :: k in d1 ==> ':' !in k && '|' !in k && '|' !in PyStr(p, d1[k])
    requires forall k :: k in d2 ==> ':' !in k && '|' !in k && '|' !in PyStr(p, d2[k])
    requires LookupKey(p, d1) == LookupKey(p, d2)
    ensures d1.Keys == d2.Keys
    ensures forall k :: k in d1 ==> PyStr(p, d1[k]) == PyStr(p, d2[k])
  {
    var fs1 := SortedElements(d1.Keys);
    var fs2 := SortedElements(d2.Keys);
    SortedFieldsComplete(d1);
    SortedFieldsComplete(d2);
    KeyOverInjective(p, fs1, d1, fs2, d2);
    forall k | k in d1 ensures k in d2 && PyStr(p, d1[k]) == PyStr(p, d2[k]) {
      assert k in fs1;
      var i :| 0 <= i < |fs1| && fs1[i] == k;
    }
    forall k | k in d2 ensures k in d1 {
      assert k in fs2;
    }
  }

  /** Values are rendered with `str()`, so `{"_id": 1}` and `{"_id": "1"}`
      share a key, and a `:` in a field name can make two filters collide. */
  lemma KeyCollisions(p: Primitives)
    ensures LookupKey(p, map["_id" := VInt(1)]) == "_id:1|"
    ensures LookupKey(p, map["_id" := VStr("1")]) == "_id:1|"
    ensures LookupKey(p, map["a:b" := VStr("c")]) == LookupKey(p, map["a" := VStr("b:c")])
  {
    SingleLookupKey(p, "_id", VInt(1));
    SingleLookupKey(p, "_id", VStr("1"));
    assert PyStr(p, VInt(1)) == "1";
    SingleLookupKey(p, "a:b", VStr("c"));
    SingleLookupKey(p, "a", VStr("b:c"));
    assert "a:b" + ":" + "c" + "|" == "a" + ":" + "b:c" + "|";
  }

  // ----- Properties of the cache updates -----

  /** The byte keys the lookup groups of a record are written under. */
  function GroupKeys(p: Primitives, groups: seq<seq<string>>, d: Dict): set<seq<byte>>
    requires forall i :: 0 <= i < |groups| ==> Complete(groups[i], d)
  {
    set i | 0 <= i < |groups| :: RedisKey(p, KeyOver(p, groups[i], d))
  }

  lemma {:induction false} GroupWritesComplete(p: Primitives, groups: seq<seq<string>>, d: Dict,
                                               target: seq<byte>, ttl: nat, redis: Redis)
    requires forall i :: 0 <= i < |groups| ==> Complete(groups[i], d)
    ensures var r := GroupWrites(p, groups, d, target, ttl, redis).0;
      && r.Keys == redis.Keys + GroupKeys(p, groups, d)
      && (forall k :: k in GroupKeys(p, groups, d) ==> r[k] == Entry(target, ttl))
      && (forall k :: k in redis && k !in GroupKeys(p, groups, d) ==> r[k] == redis[k])
  {
    if groups != [] {
      var k0 := RedisKey(p, KeyOver(p, groups[0], d));
      var rest := groups[1..];
      var r0 := redis[k0 := Entry(target, ttl)];
      assert forall i :: 0 <= i < |rest| ==> rest[i] == groups[i + 1];
      GroupWritesComplete(p, rest, d, target, ttl, r0);
      GroupKeysCons(p, groups, d);
      GroupWritesStep(p, groups, d, target, ttl, redis);
      OverwriteCons(redis, k0, Entry(target, ttl), GroupWrites(p, rest, d, target, ttl, r0).0,
                    GroupKeys(p, groups, d), GroupKeys(p, rest, d));
    }
  }

  /** Writing `e` under `k0` and then under every key of `rest` writes it
      under every key of `{k0} + rest`. */
  lemma OverwriteCons(redis: Redis, k0: seq<byte>, e: Entry, r: Redis, all: set<seq<byte>>, rest: set<seq<byte>>)
    requires all == {k0} + rest
    requires r.Keys == redis[k0 := e].Keys + rest
    requires forall k :: k in rest ==> r[k] == e
    requires forall k :: k in redis[k0 := e] && k !in rest ==> r[k] == redis[k0 := e][k]
    ensures r.Keys == redis.Keys + all
    ensures forall k :: k in all ==> r[k] == e
    ensures forall k :: k in redis && k !in all ==> r[k] == redis[k]
  {
  }

  /** One step of `GroupWrites` over a group whose key can be built. */
  lemma GroupWritesStep(p: Primitives, groups: seq<seq<string>>, d: Dict, target: seq<byte>, ttl: nat, redis: Redis)
    requires groups != [] && Complete(groups[0], d)
    ensures GroupWrites(p, groups, d, target, ttl, redis)
         == GroupWrites(p, groups[1..], d, target, ttl, redis[RedisKey(p, KeyOver(p, groups[0], d)) := Entry(target, ttl)])
  {
  }

  lemma GroupKeysCons(p: Primitives, groups: seq<seq<string>>, d: Dict)
    requires groups != [] && forall i :: 0 <= i < |groups| ==> Complete(groups[i], d)
    ensures forall i :: 0 <= i < |groups[1..]| ==> Complete(groups[1..][i], d)
    ensures GroupKeys(p, groups, d) == {RedisKey(p, KeyOver(p, groups[0], d))} + GroupKeys(p, groups[1..], d)
  {
    var rest := groups[1..];
    assert forall i :: 0 <= i < |rest| ==> rest[i] == groups[i + 1];
    var k0 := RedisKey(p, KeyOver(p, groups[0], d));
    forall k | k in GroupKeys(p, groups, d) ensures k in {k0} + GroupKeys(p, rest, d) {
      var i :| 0 <= i < |groups| && k == RedisKey(p, KeyOver(p, groups[i], d));
      if i > 0 {
        assert k == RedisKey(p, KeyOver(p, rest[i - 1], d));
      }
    }
    forall k | k in GroupKeys(p, rest, d) ensures k in GroupKeys(p, groups, d) {
      var i :| 0 <= i < |rest| && k == RedisKey(p, KeyOver(p, rest[i], d));
      assert k == RedisKey(p, KeyOver(p, groups[i + 1], d));
    }
  }

  /** A successful `_update_redis_cache`: the record's JSON under its
      primary key (unless a group key is that very key), every group key
      pointing at the primary key, all with the one TTL, and every other
      entry as it was. */
  lemma CacheUpdateEntries(p: Primitives, lookups: seq<seq<string>>, ttl: nat, redis: Redis, data: Dict)
    requires "_id" in data && p.jsonDumps(VDict(data)).Ok?
    requires forall i :: 0 <= i < |lookups| ==> Complete(lookups[i], data)
    ensures var (r, err) := CacheUpdate(p, lookups, ttl, redis, data);
      var primary := RedisKey(p, PrimaryKey(p, data["_id"]));
      && err.None?
      && r.Keys == redis.Keys + {primary} + GroupKeys(p, lookups, data)
      && (primary !in GroupKeys(p, lookups, data) ==> r[primary] == Entry(p.jsonDumps(VDict(data)).value, ttl))
      && (forall i :: 0 <= i < |lookups| ==>
            r[RedisKey(p, KeyOver(p, lookups[i], data))] == Entry(primary, ttl))
      && (forall k :: k in redis && k != primary && k !in GroupKeys(p, lookups, data) ==> r[k] == redis[k])
  {
    var primary := RedisKey(p, PrimaryKey(p, data["_id"]));
    var b := p.jsonDumps(VDict(data)).value;
    GroupWritesComplete(p, lookups, data, primary, ttl, redis[primary := Entry(b, ttl)]);
    assert forall i :: 0 <= i < |lookups| ==> RedisKey(p, KeyOver(p, lookups[i], data)) in GroupKeys(p, lookups, data);
  }

  /** Under the laws of UTF-8, distinct `str` keys are distinct Redis keys. */
  lemma RedisKeyInjective(p: Primitives, a: string, b: string)
    requires Lawful(p) && RedisKey(p, a) == RedisKey(p, b)
    ensures a == b
  {
    assert p.utf8Decode(p.utf8Encode(a)) == Some(a);
    assert p.utf8Decode(p.utf8Encode(b)) == Some(b);
  }

  /** No lookup group of the record has the primary key as its key. */
  predicate NoPrimaryClash(p: Primitives, lookups: seq<seq<string>>, data: Dict)
    requires "_id" in data
    requires forall i :: 0 <= i < |lookups| ==> Complete(lookups[i], data)
  {
    forall i :: 0 <= i < |lookups| ==> KeyOver(p, lookups[i], data) != PrimaryKey(p, data["_id"])
  }

  lemma PrimaryOutsideGroups(p: Primitives, lookups: seq<seq<string>>, data: Dict)
    requires Lawful(p) && "_id" in data
    requires forall i :: 0 <= i < |lookups| ==> Complete(lookups[i], data)
    requires NoPrimaryClash(p, lookups, data)
    ensures RedisKey(p, PrimaryKey(p, data["_id"])) !in GroupKeys(p, lookups, data)
  {
  }

  /** Read-through by `_id`: a miss finds the record in the collection,
      returns it and caches it, and the same `get` then hits and returns it
      whatever the collection holds by then. */
  lemma ReadThroughPrimary(p: Primitives, lookups: seq<seq<string>>, ttl: nat, redis: Redis,
                           docs: seq<Dict>, later: seq<Dict>, data: Dict, i: nat)
    requires Lawful(p) && "_id" in data && p.jsonDumps(VDict(data)).Ok?
    requires forall j :: 0 <= j < |lookups| ==> Complete(lookups[j], data)
    requires NoPrimaryClash(p, lookups, data)
    requires Store.FirstMatch(docs, map["_id" := data["_id"]]) == Some(i) && docs[i] == data
    requires RedisKey(p, PrimaryKey(p, data["_id"])) !in redis
    ensures var filter := map["_id" := data["_id"]];
      var (res, r1) := GetOutcome(p, lookups, ttl, redis, docs, filter);
      && res == Ok(Some(VDict(data)))
      && r1 == CacheUpdate(p, lookups, ttl, redis, data).0
      && GetOutcome(p, lookups, ttl, r1, later, filter) == (Ok(Some(VDict(data))), r1)
  {
    var filter := map["_id" := data["_id"]];
    PrimaryKeyIsLookupKey(p, data["_id"]);
    Store.EmptyProjectionKeepsAll(data);
    CacheUpdateEntries(p, lookups, ttl, redis, data);
    PrimaryOutsideGroups(p, lookups, data);
    var b := p.jsonDumps(VDict(data)).value;
    assert p.jsonLoads(b) == Some(VDict(data));
  }

  /** Read-through by a lookup group (a group whose key does not start with
      `_id:`): once the record is cached, `get` with the record's values for
      the group's fields follows the link and returns the record. */
  lemma ReadThroughSecondary(p: Primitives, lookups: seq<seq<string>>, ttl: nat, redis: Redis,
                             later: seq<Dict>, data: Dict, j: nat)
    requires Lawful(p) && "_id" in data && p.jsonDumps(VDict(data)).Ok?
    requires forall i :: 0 <= i < |lookups| ==> Complete(lookups[i], data)
    requires NoPrimaryClash(p, lookups, data)
    requires GroupsSorted(lookups) && j < |lookups| && Distinct(lookups[j])
    requires !StartsWith(KeyOver(p, lookups[j], data), "_id:")
    ensures var r1 := CacheUpdate(p, lookups, ttl, redis, data).0;
      GetOutcome(p, lookups, ttl, r1, later, Restrict(data, lookups[j])) == (Ok(Some(VDict(data))), r1)
  {
    var r1 := CacheUpdate(p, lookups, ttl, redis, data).0;
    var primary := RedisKey(p, PrimaryKey(p, data["_id"]));
    GroupKeyIsLookupKey(p, lookups[j], data);
    CacheUpdateEntries(p, lookups, ttl, redis, data);
    PrimaryOutsideGroups(p, lookups, data);
    var gk := KeyOver(p, lookups[j], data);
    assert r1[RedisKey(p, gk)] == Entry(primary, ttl);
    assert ResolvedKey(p, r1, gk) == primary;
    var b := p.jsonDumps(VDict(data)).value;
    assert r1[primary] == Entry(b, ttl);
    assert p.jsonLoads(b) == Some(VDict(data));
  }

  /** The one group key of a single-field lookup group. */
  lemma SingleGroupKeys(p: Primitives, field: string, d: Dict)
    requires field in d
    ensures forall i :: 0 <= i < |[[field]]| ==> Complete([[field]][i], d)
    ensures GroupKeys(p, [[field]], d) == {RedisKey(p, Segment(p, field, d[field]))}
  {
    var g := [[field]];
    assert g[0] == [field] && [field][1..] == [];
    assert KeyOver(p, g[0], d) == Segment(p, field, d[field]) + "";
    assert KeyOver(p, g[0], d) == Segment(p, field, d[field]);
    forall k | k in GroupKeys(p, g, d) ensures k == RedisKey(p, Segment(p, field, d[field])) {
      var i :| 0 <= i < |g| && k == RedisKey(p, KeyOver(p, g[i], d));
      assert i == 0;
    }
    assert RedisKey(p, KeyOver(p, g[0], d)) in GroupKeys(p, g, d);
  }

  /** A `value` group key never is a primary key: the first characters differ. */
  lemma ValueKeyNotPrimary(p: Primitives, id: Value, v: Value)
    requires Lawful(p)
    ensures RedisKey(p, Segment(p, "value", v)) != RedisKey(p, PrimaryKey(p, id))
  {
    var a, b := Segment(p, "value", v), PrimaryKey(p, id);
    assert p.utf8Decode(p.utf8Encode(a)) == Some(a);
    assert p.utf8Decode(p.utf8Encode(b)) == Some(b);
    assert a[0] != b[0];
  }

  /** One update of the cache with the single lookup group `["value"]`. */
  lemma ValueGroupUpdate(p: Primitives, ttl: nat, redis: Redis, id: Value, v: Value)
    requires Lawful(p)
    requires p.jsonDumps(VDict(map["_id" := id, "value" := v])).Ok?
    ensures var d := map["_id" := id, "value" := v];
      var r := CacheUpdate(p, [["value"]], ttl, redis, d).0;
      var primary := RedisKey(p, PrimaryKey(p, id));
      var gk := RedisKey(p, Segment(p, "value", v));
      && r.Keys == redis.Keys + {primary, gk}
      && r[gk] == Entry(primary, ttl)
      && r[primary] == Entry(p.jsonDumps(VDict(d)).value, ttl)
      && (forall k :: k in redis && k != primary && k != gk ==> r[k] == redis[k])
  {
    var d := map["_id" := id, "value" := v];
    var g := [["value"]];
    assert d["value"] == v && d["_id"] == id;
    SingleGroupKeys(p, "value", d);
    ValueKeyNotPrimary(p, id, v);
    assert forall i :: 0 <= i < |g| ==> Complete(g[i], d);
    CacheUpdateEntries(p, g, ttl, redis, d);
  }

  /** A changed lookup value leaves the old link in place: after caching
      a record with `value` set to `v1` and then to `v2`, both group keys
      point at the primary key, which holds the second record. */
  lemma StaleSecondaryKey(p: Primitives, ttl: nat, redis: Redis, id: Value, v1: Value, v2: Value)
    requires Lawful(p)
    requires p.jsonDumps(VDict(map["_id" := id, "value" := v1])).Ok?
    requires p.jsonDumps(VDict(map["_id" := id, "value" := v2])).Ok?
    ensures var d1 := map["_id" := id, "value" := v1];
      var d2 := map["_id" := id, "value" := v2];
      var r2 := CacheUpdate(p, [["value"]], ttl, CacheUpdate(p, [["value"]], ttl, redis, d1).0, d2).0;
      var primary := RedisKey(p, PrimaryKey(p, id));
      var k1 := RedisKey(p, Segment(p, "value", v1));
      var k2 := RedisKey(p, Segment(p, "value", v2));
      && k1 in r2 && r2[k1] == Entry(primary, ttl)
      && k2 in r2 && r2[k2] == Entry(primary, ttl)
      && primary in r2 && r2[primary] == Entry(p.jsonDumps(VDict(d2)).value, ttl)
  {
    var r1 := CacheUpdate(p, [["value"]], ttl, redis, map["_id" := id, "value" := v1]).0;
    var r2 := CacheUpdate(p, [["value"]], ttl, r1, map["_id" := id, "value" := v2]).0;
    var primary := RedisKey(p, PrimaryKey(p, id));
    var k1 := RedisKey(p, Segment(p, "value", v1));
    var k2 := RedisKey(p, Segment(p, "value", v2));
    ValueGroupUpdate(p, ttl, redis, id, v1);
    ValueGroupUpdate(p, ttl, r1, id, v2);
    ValueKeyNotPrimary(p, id, v1);
    assert k1 in r1 && r1[k1] == Entry(primary, ttl);
    if k1 != k2 {
      assert r2[k1] == r1[k1];
    }
  }
}
