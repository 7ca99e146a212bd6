/** `EncryptedDocument`: a collection whose records are transformed on the
    way in (hashed, encrypted, given shadow digest columns) and on the way
    out (shadow columns dropped, encrypted fields decrypted). */
module EncryptedDocuments {
  import opened Wrappers
  import opened Values
  import opened Hex
  import opened Foreign
  import opened Hashing
  import opened FieldSets
  import opened FieldCodec
  import opened RecordTransform
  import opened Projections
  import opened Store
  import Query

  /** `generate_aes_key`: 32 bytes from the random source, a valid
      AES-256 key. */
  function GenerateAesKey(random: seq<byte>): (k: seq<byte>)
    requires |random| >= 32
    ensures ValidKey(k) && |k| == 32
    ensures forall i :: 0 <= i < 32 ==> k[i] == random[i]
  {
    random[..32]
  }

  /** The policy set a missing argument defaults to. */
  function OrEmpty(s: Option<FieldSet>): FieldSet {
    if s.Some? then s.value else Base([])
  }

  /** `value += amount` on a Python value and an `int`. A list's `+=` is
      `list.extend`, which iterates its argument. */
  function PyAdd(v: Value, amount: int): (r: Result<Value, Error>)
    ensures r.Ok? <==> v.VInt? || v.VBool?
    ensures v.VInt? ==> r == Ok(VInt(v.i + amount))
    ensures v.VBool? ==> r == Ok(VInt(if v.b then amount + 1 else amount))
    ensures v.VStr? ==> r == Err(TypeError("can only concatenate str (not \"int\") to str"))
    ensures v.VList? ==> r == Err(TypeError("'int' object is not iterable"))
    ensures v.VBytes? ==> r == Err(TypeError("can't concat int to bytes"))
    ensures v.VNone? || v.VDict? || v.VObjectId? ==>
      r == Err(TypeError("unsupported operand type(s) for +=: '" + TypeName(v) + "' and 'int'"))
  {
    match v
    case VInt(i) => Ok(VInt(i + amount))
    case VBool(b) => Ok(VInt((if b then 1 else 0) + amount))
    case VStr(_) => Err(TypeError("can only concatenate str (not \"int\") to str"))
    case VList(_) => Err(TypeError("'int' object is not iterable"))
    case VBytes(_) => Err(TypeError("can't concat int to bytes"))
    case _ => Err(TypeError("unsupported operand type(s) for +=: '" + TypeName(v) + "' and 'int'"))
  }

  /** The projection `increment` reads an encrypted field with:
      `Projection(Show(field))`. */
  function ShowProjection(field: string): Dict {
    WithIdDefault(Merged([Show([field])]))
  }

  lemma ShowProjectionIs(field: string)
    ensures ShowProjection(field)
      == if field == "_id" then map["_id" := VInt(1)] else map[field := VInt(1), "_id" := VInt(0)]
  {
    assert [Show([field])][..0] == [];
  }

  /** Lines 439-442 of `increment` on an encrypted field: the raw record read
      back, the field summed with `+=`, or the exception raised on the way. */
  function IncrementedRecord(found: Option<Dict>, field: string, amount: int): (r: Result<Dict, Error>)
    ensures found.None? || found.value == map[] ==> r == Err(ValueError("Item to increment didn't exist with this filter."))
    ensures found.Some? && found.value != map[] && field !in found.value ==> r == Err(KeyError(field))
    ensures found.Some? && field in found.value ==>
      (r.Ok? <==> PyAdd(found.value[field], amount).Ok?)
      && (r.Err? ==> r == Err(PyAdd(found.value[field], amount).error))
      && (r.Ok? ==> r.value == found.value[field := PyAdd(found.value[field], amount).value])
    ensures r.Ok? ==> found.Some? && r.value.Keys == found.value.Keys && field in r.value
  {
    if found.None? || found.value == map[] then Err(ValueError("Item to increment didn't exist with this filter."))
    else if field !in found.value then Err(KeyError(field))
    else
      var sum :- PyAdd(found.value[field], amount);
      Ok(found.value[field := sum])
  }

  /** The `$set` update an encrypted document applies: the record
      transformed, or the first field's exception and no write. */
  predicate Updated(p: Primitives, pol: Policy, key: seq<byte>, nonces: string -> Nonce, ignore: FieldSet,
                    filter: Dict, data: Dict, before: seq<Dict>, after: seq<Dict>, err: Option<Error>)
  {
    if Encodes(p, pol, key, nonces, ignore, data) then
      err.None? && after == SetResult(before, filter, EncryptedRecord(p, pol, key, nonces, ignore, data), false)
    else
      err.Some? && after == before
      && exists k :: k in data && FieldOutcome(p, pol, key, nonces, ignore, data, k) == Err(err.value)
  }

  class EncryptedDocument {
    const p: Primitives
    const key: seq<byte>
    const pol: Policy
    const store: Collection

    /** The policy sets default to empty; the key is not checked here. */
    constructor (p: Primitives, key: seq<byte>, hashed: Option<FieldSet>, autoHashed: Option<FieldSet>,
                 encrypted: Option<FieldSet>, encryptAll: bool, store: Collection)
      ensures this.p == p && this.key == key && this.store == store
      ensures this.pol == Policy(OrEmpty(encrypted), OrEmpty(hashed), OrEmpty(autoHashed), encryptAll)
    {
      this.p := p;
      this.key := key;
      this.store := store;
      this.pol := Policy(OrEmpty(encrypted), OrEmpty(hashed), OrEmpty(autoHashed), encryptAll);
    }

    /** One field of `_encrypt_data` (the body of its loop) added to the
        record built so far: copied if ignored; otherwise its shadow digest
        first, checked against the columns already present, then its value
        encrypted, hashed or kept. */
    method TransformField(data: Dict, ignore: FieldSet, nonces: string -> Nonce, k: string, out: Dict)
      returns (r: Result<Dict, Error>)
      requires k in data
      requires ShadowName(k) in out ==> ShadowName(k) in data
      ensures r.Ok? <==> FieldOutcome(p, pol, key, nonces, ignore, data, k).Ok?
      ensures r.Ok? ==> r.value == AddField(out, k, FieldOutcome(p, pol, key, nonces, ignore, data, k).value)
      ensures r.Err? ==> FieldOutcome(p, pol, key, nonces, ignore, data, k) == Err(r.error)
    {
      var v := data[k];
      if ignore.Contains(k) {
        return Ok(out[k := v]);
      }
      var fields := out;
      if pol.autoHashed.Contains(k) {
        var newKey := ShadowName(k);
        if newKey in fields || newKey in data {
          return Err(CollisionError(k));
        }
        var h := HashField(p, newKey, v);
        if h.Err? {
          return Err(h.error);
        }
        fields := fields[newKey := VStr(h.value)];
      }
      if pol.encryptAll {
        var e := EncryptField(p, key, nonces(k), v);
        if e.Err? {
          return Err(e.error);
        }
        v := e.value;
      } else if pol.encrypted.Contains(k) {
        var e := EncryptField(p, key, nonces(k), v);
        if e.Err? {
          return Err(e.error);
        }
        v := e.value;
      } else if pol.hashed.Contains(k) {
        var h := HashField(p, k, v);
        if h.Err? {
          return Err(h.error);
        }
        v := VStr(h.value);
      }
      return Ok(fields[k := v]);
    }

    /** `_encrypt_data`: one pass over the record's fields; the first field
        that fails stops the pass. */
    method EncryptData(data: Dict, ignore: FieldSet, nonces: string -> Nonce) returns (r: Result<Dict, Error>)
      ensures r.Ok? <==> Encodes(p, pol, key, nonces, ignore, data)
      ensures r.Ok? ==> r.value == EncryptedRecord(p, pol, key, nonces, ignore, data)
      ensures r.Err? ==> exists k :: k in data && FieldOutcome(p, pol, key, nonces, ignore, data, k) == Err(r.error)
    {
      var out: Dict := map[];
      var todo := data.Keys;
      while todo != {}
        invariant todo <= data.Keys
        invariant forall k :: k in data && k !in todo ==> FieldOutcome(p, pol, key, nonces, ignore, data, k).Ok?
        invariant Describes(out, OutcomesOf(p, pol, key, nonces, ignore, data, data.Keys - todo))
        decreases |todo|
      {
        var k :| k in todo;
        ghost var done := data.Keys - todo;
        ghost var o := OutcomesOf(p, pol, key, nonces, ignore, data, done);
        if ShadowName(k) in out {
          DescribedShadowFresh(out, o, k, data.Keys);
        }
        var step := TransformField(data, ignore, nonces, k, out);
        if step.Err? {
          return Err(step.error);
        }
        assert data.Keys - (todo - {k}) == done + {k};
        BuildStep(p, pol, key, nonces, ignore, data, done, k, out);
        out := step.value;
        todo := todo - {k};
      }
      assert data.Keys - todo == data.Keys;
      DescribedComplete(p, pol, key, nonces, ignore, data, out);
      return Ok(out);
    }

    /** The first loop of `_decrypt_data`: every `<field>_hashed` of an
        automatically hashed field is popped from the caller's dict. */
    method PopShadows(d: DictRef)
      modifies d
      ensures d.items == Stripped(pol, old(d.items))
    {
      var names := pol.autoHashed.Iterate();
      var i := 0;
      while i < |names|
        invariant 0 <= i <= |names|
        invariant d.items.Keys == old(d.items).Keys - (set a | a in names[..i] :: ShadowName(a))
        invariant forall k :: k in d.items ==> d.items[k] == old(d.items)[k]
      {
        assert (set a | a in names[..i + 1] :: ShadowName(a))
            == (set a | a in names[..i] :: ShadowName(a)) + {ShadowName(names[i])} by {
          assert names[..i + 1] == names[..i] + [names[i]];
        }
        d.items := d.items - {ShadowName(names[i])};
        i := i + 1;
      }
      assert names[..i] == names;
      assert (set a | a in names :: ShadowName(a)) == ShadowNames(pol);
    }

    /** `_decrypt_data`: the shadow columns popped from the caller's dict,
        then each remaining field decrypted as needed; the first failure
        stops the pass. */
    method DecryptData(d: DictRef) returns (r: Result<Dict, Error>)
      modifies d
      ensures d.items == Stripped(pol, old(d.items))
      ensures r.Ok? <==> Decodes(p, pol, key, old(d.items))
      ensures r.Ok? ==> r.value == DecryptedRecord(p, pol, key, old(d.items))
      ensures r.Err? ==> exists k :: k in d.items && Inbound(p, pol, key, k, d.items[k]) == Err(r.error)
    {
      ghost var stored := d.items;
      PopShadows(d);
      var data := d.items;
      var out: Dict := map[];
      var todo := data.Keys;
      while todo != {}
        invariant todo <= data.Keys
        invariant out.Keys == data.Keys - todo
        invariant forall k :: k in out ==> Inbound(p, pol, key, k, stored[k]) == Ok(out[k])
        invariant d.items == data
        decreases |todo|
      {
        var k :| k in todo;
        var v := Inbound(p, pol, key, k, data[k]);
        if v.Err? {
          return Err(v.error);
        }
        out := out[k := v.value];
        todo := todo - {k};
      }
      DecodedFromFields(p, pol, key, stored, out);
      return Ok(out);
    }

    /** `find(filter, projections, try_convert=...)` without a converter: the
        raw record, or, when converting and the record is not empty, the
        record decrypted. */
    method Find(filter: Dict, projection: Dict, tryConvert: bool) returns (r: Result<Option<Dict>, Error>)
      ensures var raw := store.FindOne(filter, projection);
        if !tryConvert || raw.None? || raw.value == map[] then r == Ok(raw)
        else
          (r.Ok? <==> Decodes(p, pol, key, raw.value))
          && (r.Ok? ==> r.value == Some(DecryptedRecord(p, pol, key, raw.value)))
          && (r.Err? ==> exists k :: k in Stripped(pol, raw.value) && Inbound(p, pol, key, k, raw.value[k]) == Err(r.error))
    {
      var raw := store.FindOne(filter, projection);
      if !tryConvert || raw.None? || raw.value == map[] {
        return Ok(raw);
      }
      var ref := new DictRef(raw.value);
      var dec := DecryptData(ref);
      if dec.Err? {
        return Err(dec.error);
      }
      return Ok(Some(dec.value));
    }

    /** `insert`: the transformed record is added to the collection. */
    method Insert(data: Dict, ignore: FieldSet, nonces: string -> Nonce) returns (err: Option<Error>)
      modifies store
      ensures Encodes(p, pol, key, nonces, ignore, data) ==>
        err.None? && store.docs == old(store.docs) + [EncryptedRecord(p, pol, key, nonces, ignore, data)]
      ensures !Encodes(p, pol, key, nonces, ignore, data) ==>
        err.Some? && store.docs == old(store.docs)
        && exists k :: k in data && FieldOutcome(p, pol, key, nonces, ignore, data, k) == Err(err.value)
    {
      var rec := EncryptData(data, ignore, nonces);
      if rec.Err? {
        return Some(rec.error);
      }
      store.InsertOne(rec.value);
      return None;
    }

    /** `update`: the transformed record is `$set` on the first match. */
    method Update(filter: Dict, data: Dict, ignore: FieldSet, nonces: string -> Nonce) returns (err: Option<Error>)
      modifies store
      ensures Updated(p, pol, key, nonces, ignore, filter, data, old(store.docs), store.docs, err)
    {
      var rec := EncryptData(data, ignore, nonces);
      if rec.Err? {
        return Some(rec.error);
      }
      store.SetOne(filter, rec.value, false);
      return None;
    }

    /** `upsert`: the record is transformed, then handed to the inherited
        `upsert`, which calls this class's `update`; that transforms it a
        second time with no ignored fields and drops `upsert=True`. */
    method Upsert(filter: Dict, data: Dict, ignore: FieldSet, first: string -> Nonce, second: string -> Nonce)
      returns (err: Option<Error>)
      modifies store
      ensures !Encodes(p, pol, key, first, ignore, data) ==>
        err.Some? && store.docs == old(store.docs)
        && exists k :: k in data && FieldOutcome(p, pol, key, first, ignore, data, k) == Err(err.value)
      ensures Encodes(p, pol, key, first, ignore, data) ==>
        Updated(p, pol, key, second, Base([]), filter, EncryptedRecord(p, pol, key, first, ignore, data),
                old(store.docs), store.docs, err)
    {
      var rec := EncryptData(data, ignore, first);
      if rec.Err? {
        return Some(rec.error);
      }
      err := Update(filter, rec.value, Base([]), second);
    }

    /** `increment`: a field outside the Encrypted set is left to `$inc`;
        an encrypted one is read back raw, summed with `+=` and written with
        `update`. */
    method Increment(filter: Dict, field: string, amount: int, nonces: string -> Nonce) returns (err: Option<Error>)
      modifies store
      ensures !pol.encrypted.Contains(field) ==>
        var r := IncResult(old(store.docs), filter, field, amount);
        if r.Ok? then err.None? && store.docs == r.value else err == Some(r.error) && store.docs == old(store.docs)
      ensures pol.encrypted.Contains(field) && '.' in field ==>
        err == Some(ValueError("Nested field updates on encrypted fields is not supported."))
        && store.docs == old(store.docs)
      ensures pol.encrypted.Contains(field) && '.' !in field ==>
        var rec := IncrementedRecord(old(store.FindOne(filter, ShowProjection(field))), field, amount);
        if rec.Err? then err == Some(rec.error) && store.docs == old(store.docs)
        else Updated(p, pol, key, nonces, Base([]), filter, rec.value, old(store.docs), store.docs, err)
    {
      if !pol.encrypted.Contains(field) {
        err := store.IncOne(filter, field, amount);
        return;
      }
      if '.' in field {
        return Some(ValueError("Nested field updates on encrypted fields is not supported."));
      }
      var projection := BuildProjection([Show([field])]);
      var found := Find(filter, projection, false);
      var data := found.value;
      if data.None? || data.value == map[] {
        return Some(ValueError("Item to increment didn't exist with this filter."));
      }
      if field !in data.value {
        return Some(KeyError(field));
      }
      var sum := PyAdd(data.value[field], amount);
      if sum.Err? {
        return Some(sum.error);
      }
      err := Update(filter, data.value[field := sum.value], Base([]), nonces);
    }

    /** `change_field_to`: the new value is encrypted when the field is in
        the Encrypted set (encrypt-all is not consulted), then `$set`. */
    method ChangeFieldTo(filter: Dict, field: string, newValue: Value, nonce: Nonce) returns (err: Option<Error>)
      modifies store
      ensures var stored := if pol.encrypted.Contains(field) then EncryptField(p, key, nonce, newValue) else Ok(newValue);
        if stored.Ok? then err.None? && store.docs == SetResult(old(store.docs), filter, map[field := stored.value], false)
        else err == Some(stored.error) && store.docs == old(store.docs)
    {
      var v := newValue;
      if pol.encrypted.Contains(field) {
        var e := EncryptField(p, key, nonce, newValue);
        if e.Err? {
          return Some(e.error);
        }
        v := e.value;
      }
      store.SetOne(filter, map[field := v], false);
      return None;
    }

    /** `bulk_insert` calls a helper the class does not have, so it always
        raises before anything is written. */
    method BulkInsert(data: seq<Dict>, ignore: FieldSet) returns (err: Option<Error>)
      ensures err == Some(AttributeError("'EncryptedDocument' object has no attribute '_ensure_list_of_dicts'"))
    {
      return Some(AttributeError("'EncryptedDocument' object has no attribute '_ensure_list_of_dicts'"));
    }
  }

  // ----- Properties across the operations -----

  /** A record's shadow column is found by the hashed query on it:
      `HQF(EQ("<k>_hashed", v))` matches the stored record. */
  lemma ShadowLookupMatches(p: Primitives, pol: Policy, key: seq<byte>, nonces: string -> Nonce,
                            ignore: FieldSet, data: Dict, k: string)
    requires Encodes(p, pol, key, nonces, ignore, data)
    requires k in data && !ignore.Contains(k) && pol.autoHashed.Contains(k)
    ensures var q := Query.Build(p, Query.HQF(Query.EQ(ShadowName(k), data[k])));
      q.Ok? && Matches(EncryptedRecord(p, pol, key, nonces, ignore, data), q.value)
  {
    ShadowDigest(p, pol, key, nonces, ignore, data, k);
    Query.HashedEquality(p, ShadowName(k), data[k]);
  }

  /** A hashed (not encrypted) field is found by the hashed query on its
      original value: `HQF(EQ(k, v))` matches the stored record. */
  lemma HashedLookupMatches(p: Primitives, pol: Policy, key: seq<byte>, nonces: string -> Nonce,
                            ignore: FieldSet, data: Dict, k: string)
    requires Encodes(p, pol, key, nonces, ignore, data)
    requires k in data && !ignore.Contains(k) && !pol.encryptAll && !pol.encrypted.Contains(k) && pol.hashed.Contains(k)
    ensures var q := Query.Build(p, Query.HQF(Query.EQ(k, data[k])));
      q.Ok? && Matches(EncryptedRecord(p, pol, key, nonces, ignore, data), q.value)
  {
    Precedence(p, pol, key, nonces, ignore, data, k);
    Query.HashedEquality(p, k, data[k]);
  }

  /** Incrementing an encrypted field that was stored encrypted fails: the
      raw read returns the hex ciphertext, and `str += int` raises. */
  lemma IncrementOnCiphertext(p: Primitives, pol: Policy, key: seq<byte>, nonces: string -> Nonce,
                              ignore: FieldSet, data: Dict, field: string, amount: int)
    requires Encodes(p, pol, key, nonces, ignore, data)
    requires field in data && !ignore.Contains(field) && pol.encrypted.Contains(field) && !data[field].VObjectId?
    ensures var stored := EncryptedRecord(p, pol, key, nonces, ignore, data);
      IncrementedRecord(Some(Project(stored, ShowProjection(field))), field, amount)
        == Err(TypeError("can only concatenate str (not \"int\") to str"))
  {
    var stored := EncryptedRecord(p, pol, key, nonces, ignore, data);
    Precedence(p, pol, key, nonces, ignore, data, field);
    ShowProjectionIs(field);
    ShowOneField(stored, field);
    assert field in Project(stored, ShowProjection(field));
  }

  /** An ignored Encrypted field is stored as given, so a list stored that
      way reaches `+=` as a list, and `list.extend` refuses the `int`. */
  lemma IncrementOnStoredList(p: Primitives, pol: Policy, key: seq<byte>, nonces: string -> Nonce,
                              ignore: FieldSet, data: Dict, field: string, amount: int)
    requires Encodes(p, pol, key, nonces, ignore, data)
    requires field in data && ignore.Contains(field) && data[field].VList?
    ensures var stored := EncryptedRecord(p, pol, key, nonces, ignore, data);
      IncrementedRecord(Some(Project(stored, ShowProjection(field))), field, amount)
        == Err(TypeError("'int' object is not iterable"))
  {
    var stored := EncryptedRecord(p, pol, key, nonces, ignore, data);
    IgnoredVerbatim(p, pol, key, nonces, ignore, data, field);
    ShowProjectionIs(field);
    ShowOneField(stored, field);
    assert field in Project(stored, ShowProjection(field));
  }

  /** The policy of the wrong-key test: only `data` is encrypted. */
  function DataEncrypted(): Policy {
    Policy(Base(["data"]), Base([]), Base([]), false)
  }

  /** The record of the wrong-key test. */
  function DataAndId(): Dict {
    map["data" := VInt(1), "id" := VInt(1)]
  }

  lemma DataAndIdEncodes(p: Primitives, key: seq<byte>, nonces: string -> Nonce)
    requires ValidKey(key)
    ensures Encodes(p, DataEncrypted(), key, nonces, Base([]), DataAndId())
  {
    var pol, data := DataEncrypted(), DataAndId();
    forall k | k in data ensures FieldOutcome(p, pol, key, nonces, Base([]), data, k).Ok? {
      assert !Base([]).Contains(k) && !pol.autoHashed.Contains(k);
      assert data[k] == VInt(1);
    }
  }

  /** The stored test record: `id` as given, no shadow column, and nothing
      popped on the way back. */
  lemma DataAndIdStored(p: Primitives, key: seq<byte>, nonces: string -> Nonce)
    requires ValidKey(key)
    ensures Encodes(p, DataEncrypted(), key, nonces, Base([]), DataAndId())
    ensures var stored := EncryptedRecord(p, DataEncrypted(), key, nonces, Base([]), DataAndId());
      stored.Keys == {"data", "id"} && stored["id"] == VInt(1)
  {
    var pol, data := DataEncrypted(), DataAndId();
    DataAndIdEncodes(p, key, nonces);
    var stored := EncryptedRecord(p, pol, key, nonces, Base([]), data);
    NothingShadowed(Base([]), data);
    assert stored.Keys == {"data", "id"};
    StoredNotShadowed(p, pol, key, nonces, Base([]), data, "id");
  }

  /** The test's policy hashes nothing automatically. */
  lemma NothingShadowed(ignore: FieldSet, data: Dict)
    ensures ShadowNames(DataEncrypted()) == {}
    ensures ShadowColumns(DataEncrypted(), ignore, data) == {}
  {
    assert DataEncrypted().autoHashed.fields == {};
    assert Shadowed(DataEncrypted(), ignore, data) == {};
  }

  /** The wrong-key test: `{"data": 1, "id": 1}` with `data` encrypted, read
      back after the key is replaced by another valid one. `id` passes
      through and `data` raises the invalid-key error, so `_decrypt_data`
      (and `find`) fails, and with that error only. */
  lemma IncorrectKeyRaises(p: Primitives, key: seq<byte>, other: seq<byte>, nonces: string -> Nonce)
    requires Lawful(p) && ValidKey(key) && ValidKey(other) && key != other
    ensures Encodes(p, DataEncrypted(), key, nonces, Base([]), DataAndId())
    ensures var stored := EncryptedRecord(p, DataEncrypted(), key, nonces, Base([]), DataAndId());
      && Stripped(DataEncrypted(), stored).Keys == {"data", "id"}
      && Inbound(p, DataEncrypted(), other, "id", stored["id"]) == Ok(VInt(1))
      && Inbound(p, DataEncrypted(), other, "data", stored["data"]) == Err(InvalidKeyError())
      && !Decodes(p, DataEncrypted(), other, stored)
  {
    var pol, data := DataEncrypted(), DataAndId();
    DataAndIdStored(p, key, nonces);
    var stored := EncryptedRecord(p, pol, key, nonces, Base([]), data);
    NothingShadowed(Base([]), data);
    assert Stripped(pol, stored).Keys == stored.Keys;
    assert pol.encrypted.Contains("data") && !pol.encrypted.Contains("id") && !pol.encryptAll;
    FieldOtherKey(p, pol, key, other, nonces, Base([]), data, "data");
    assert "data" in Stripped(pol, stored);
  }

  /** Without a matching record, `upsert` writes nothing: the flag that
      would insert one is dropped on the way to `update`. */
  lemma UpsertNeverInserts(p: Primitives, pol: Policy, key: seq<byte>, second: string -> Nonce,
                           filter: Dict, rec: Dict, before: seq<Dict>, after: seq<Dict>, err: Option<Error>)
    requires Updated(p, pol, key, second, Base([]), filter, rec, before, after, err)
    requires FirstMatch(before, filter).None?
    ensures after == before
  {
  }
}
