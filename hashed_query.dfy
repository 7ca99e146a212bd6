/** `HashedQueryField.build`: a built filter `{field: {operator: value}}` with
    every operator's value replaced by its `hash_field` digest. */
module HashedQuery {
  import opened Wrappers
  import opened Values
  import opened Foreign
  import opened Hashing

  /** Every operator value under this field can be hashed. */
  predicate EntryHashes(p: Primitives, v: Value) {
    v.VDict? && forall op :: op in v.entries ==> HashField(p, op, v.entries[op]).Ok?
  }

  predicate AllEntriesHash(p: Primitives, initial: Dict) {
    forall k :: k in initial ==> EntryHashes(p, initial[k])
  }

  /** The operators of one field with their values hashed. */
  function HashedEntry(p: Primitives, v: Value): (r: Value)
    requires EntryHashes(p, v)
    ensures r.VDict? && r.entries.Keys == v.entries.Keys
  {
    VDict(map op | op in v.entries :: VStr(HashField(p, op, v.entries[op]).value))
  }

  /** The filter `build` returns when nothing fails. */
  function HashedFilter(p: Primitives, initial: Dict): (r: Dict)
    requires AllEntriesHash(p, initial)
    ensures r.Keys == initial.Keys
  {
    map k | k in initial :: HashedEntry(p, initial[k])
  }

  function NoItems(v: Value): Error {
    AttributeError("'" + TypeName(v) + "' object has no attribute 'items'")
  }

  /** An error `build` can raise at the entry `v`: a value without `.items()`,
      or the first operator value that cannot be hashed. */
  predicate IsEntryError(p: Primitives, v: Value, e: Error) {
    (!v.VDict? && e == NoItems(v))
    || (v.VDict? && exists op :: op in v.entries && HashField(p, op, v.entries[op]) == Err(e))
  }

  /** The inner loop of `HashedQueryField.build`: one field's operators,
      each value replaced by its digest. */
  method HashEntry(p: Primitives, v: Value) returns (r: Result<Value, Error>)
    requires v.VDict?
    ensures r.Ok? <==> EntryHashes(p, v)
    ensures r.Ok? ==> r.value == HashedEntry(p, v)
    ensures r.Err? ==> IsEntryError(p, v, r.error)
  {
    var d: map<string, Value> := map[];
    var ops := v.entries.Keys;
    while ops != {}
      invariant ops <= v.entries.Keys
      invariant forall op :: op in v.entries && op !in ops ==> HashField(p, op, v.entries[op]).Ok?
      invariant d.Keys == v.entries.Keys - ops
      invariant forall op :: op in d ==> d[op] == VStr(HashField(p, op, v.entries[op]).value)
      decreases |ops|
    {
      var op :| op in ops;
      var h := HashField(p, op, v.entries[op]);
      if h.Err? {
        EntryFails(p, v, op, h.error);
        return Err(h.error);
      }
      d := d[op := VStr(h.value)];
      ops := ops - {op};
    }
    EntryBuilt(p, v, d);
    return Ok(VDict(d));
  }

  /** One operator value that cannot be hashed fails the whole entry. */
  lemma EntryFails(p: Primitives, v: Value, op: string, e: Error)
    requires v.VDict? && op in v.entries && HashField(p, op, v.entries[op]) == Err(e)
    ensures !EntryHashes(p, v) && IsEntryError(p, v, e)
  {
  }

  /** A map holding the digest of every operator value is the hashed entry. */
  lemma EntryBuilt(p: Primitives, v: Value, d: map<string, Value>)
    requires v.VDict? && d.Keys == v.entries.Keys
    requires forall op :: op in v.entries ==> HashField(p, op, v.entries[op]).Ok?
    requires forall op :: op in d ==> d[op] == VStr(HashField(p, op, v.entries[op]).value)
    ensures EntryHashes(p, v) && d == HashedEntry(p, v).entries
  {
  }

  /** `HashedQueryField.build` on the filter its comparison built: a loop
      over the fields, each hashed by `HashEntry`. */
  method HashQuery(p: Primitives, initial: Dict) returns (r: Result<Dict, Error>)
    ensures r.Ok? <==> AllEntriesHash(p, initial)
    ensures r.Ok? ==> r.value == HashedFilter(p, initial)
    ensures r.Err? ==> exists k :: k in initial && IsEntryError(p, initial[k], r.error)
  {
    var out: Dict := map[];
    var todo := initial.Keys;
    while todo != {}
      invariant todo <= initial.Keys
      invariant forall k :: k in initial && k !in todo ==> EntryHashes(p, initial[k])
      invariant out.Keys == initial.Keys - todo
      invariant forall k :: k in out ==> out[k] == HashedEntry(p, initial[k])
      decreases |todo|
    {
      var k :| k in todo;
      var v := initial[k];
      if !v.VDict? {
        return Err(NoItems(v));
      }
      var e := HashEntry(p, v);
      if e.Err? {
        return Err(e.error);
      }
      out := out[k := e.value];
      todo := todo - {k};
    }
    return Ok(out);
  }
}
