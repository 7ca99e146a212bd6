/** What `EncryptedDocument._encrypt_data` and `_decrypt_data` compute for a
    whole record, field by field, as functions of the record and the policy. */
module RecordTransform {
  import opened Wrappers
  import opened Values
  import opened Hex
  import opened Foreign
  import opened Hashing
  import opened FieldSets
  import opened FieldCodec

  /** The three policy sets and the encrypt-all flag of an `EncryptedDocument`. */
  datatype Policy = Policy(
    encrypted: FieldSet,
    hashed: FieldSet,
    autoHashed: FieldSet,
    encryptAll: bool)

  /** The column an automatically hashed field's digest is stored under. */
  function ShadowName(k: string): (r: string)
    ensures |r| == |k| + 7 && r[..|k|] == k
  {
    k + "_hashed"
  }

  lemma ShadowNameInjective(a: string, b: string)
    requires ShadowName(a) == ShadowName(b)
    ensures a == b
  {
    assert a == ShadowName(a)[..|a|] && b == ShadowName(b)[..|b|];
  }

  function CollisionError(k: string): Error {
    ValueError("Cannot automatically hash " + k + " as the column " + ShadowName(k) + " already exists in the dataset.")
  }

  /** What a field that is not ignored is stored as: encrypt-all first, then
      the Encrypted set, then the Hashed set; otherwise the value as given. */
  function Outbound(p: Primitives, pol: Policy, key: seq<byte>, nonce: Nonce, k: string, v: Value): (r: Result<Value, Error>)
    ensures r.Ok? ==> r.value == v || r.value.VStr?
  {
    if pol.encryptAll || pol.encrypted.Contains(k) then EncryptField(p, key, nonce, v)
    else if pol.hashed.Contains(k) then
      var h :- HashField(p, k, v);
      Ok(VStr(h))
    else Ok(v)
  }

  /** The shadow digest an automatically hashed field adds, taken of the
      original value; its column must not already be in the record. */
  function ShadowOf(p: Primitives, pol: Policy, data: Dict, k: string): Result<Option<Value>, Error>
    requires k in data
  {
    if !pol.autoHashed.Contains(k) then Ok(None)
    else if ShadowName(k) in data then Err(CollisionError(k))
    else
      var h :- HashField(p, ShadowName(k), data[k]);
      Ok(Some(VStr(h)))
  }

  /** What one field of the record contributes: its shadow entry, if any, and
      its stored value. An ignored field is copied and gets no shadow. */
  function FieldOutcome(p: Primitives, pol: Policy, key: seq<byte>, nonces: string -> Nonce,
                        ignore: FieldSet, data: Dict, k: string): (r: Result<(Option<Value>, Value), Error>)
    requires k in data
  {
    if ignore.Contains(k) then Ok((None, data[k]))
    else
      var shadow :- ShadowOf(p, pol, data, k);
      var stored :- Outbound(p, pol, key, nonces(k), k, data[k]);
      Ok((shadow, stored))
  }

  /** Every field of the record can be transformed. */
  predicate Encodes(p: Primitives, pol: Policy, key: seq<byte>, nonces: string -> Nonce, ignore: FieldSet, data: Dict) {
    forall k :: k in data ==> FieldOutcome(p, pol, key, nonces, ignore, data, k).Ok?
  }

  /** The fields of the record that gain a shadow column. */
  function Shadowed(pol: Policy, ignore: FieldSet, data: Dict): set<string> {
    set k | k in data && !ignore.Contains(k) && pol.autoHashed.Contains(k)
  }

  /** The shadow columns the transform adds. */
  function ShadowColumns(pol: Policy, ignore: FieldSet, data: Dict): set<string> {
    set j | j in Shadowed(pol, ignore, data) :: ShadowName(j)
  }

  /** The record `_encrypt_data` returns: every field's stored value, plus a
      shadow column for each automatically hashed field that is not ignored. */
  function EncryptedRecord(p: Primitives, pol: Policy, key: seq<byte>, nonces: string -> Nonce,
                           ignore: FieldSet, data: Dict): (r: Dict)
    requires Encodes(p, pol, key, nonces, ignore, data)
    ensures r.Keys == data.Keys + ShadowColumns(pol, ignore, data)
  {
    var stored := map k | k in data :: FieldOutcome(p, pol, key, nonces, ignore, data, k).value.1;
    var shadows := map k | k in Shadowed(pol, ignore, data) :: ShadowName(k) := FieldOutcome(p, pol, key, nonces, ignore, data, k).value.0.value;
    assert shadows.Keys == ShadowColumns(pol, ignore, data) by {
      forall c | c in ShadowColumns(pol, ignore, data) ensures c in shadows {
        var j :| j in Shadowed(pol, ignore, data) && c == ShadowName(j);
        assert ShadowName(j) in shadows;
      }
      forall c | c in shadows ensures c in ShadowColumns(pol, ignore, data) {
        var j :| j in Shadowed(pol, ignore, data) && c == ShadowName(j);
      }
    }
    stored + shadows
  }

  /** A record holding every field's stored value and every shadow digest,
      and nothing else, is the one `_encrypt_data` returns. */
  lemma RecordFromFields(p: Primitives, pol: Policy, key: seq<byte>, nonces: string -> Nonce,
                         ignore: FieldSet, data: Dict, r: Dict)
    requires Encodes(p, pol, key, nonces, ignore, data)
    requires r.Keys == data.Keys + ShadowColumns(pol, ignore, data)
    requires forall k :: k in data ==> r[k] == FieldOutcome(p, pol, key, nonces, ignore, data, k).value.1
    requires forall j :: j in Shadowed(pol, ignore, data) ==>
               r[ShadowName(j)] == FieldOutcome(p, pol, key, nonces, ignore, data, j).value.0.value
    ensures r == EncryptedRecord(p, pol, key, nonces, ignore, data)
  {
    var e := EncryptedRecord(p, pol, key, nonces, ignore, data);
    forall c | c in r ensures r[c] == e[c] {
      if c in data {
        StoredNotShadowed(p, pol, key, nonces, ignore, data, c);
      } else {
        var j :| j in Shadowed(pol, ignore, data) && c == ShadowName(j);
        ShadowDigest(p, pol, key, nonces, ignore, data, j);
      }
    }
  }

  /** What each transformed field contributed: its shadow digest, if any,
      and its stored value. */
  type Outcomes = map<string, (Option<Value>, Value)>

  /** The shadow columns the outcomes add. */
  function ShadowKeys(o: Outcomes): set<string> {
    set k | k in o && o[k].0.Some? :: ShadowName(k)
  }

  /** `out` is the record built from the outcomes `o`: each field's stored
      value and each shadow digest, and no other column. */
  predicate Describes(out: Dict, o: Outcomes) {
    && out.Keys == o.Keys + ShadowKeys(o)
    && (forall k :: k in o ==> out[k] == o[k].1)
    && (forall k :: k in o && o[k].0.Some? ==> out[ShadowName(k)] == o[k].0.value)
  }

  /** No shadow column lands on one of the `names`. */
  predicate ShadowsOutside(o: Outcomes, names: set<string>) {
    forall k :: k in o && o[k].0.Some? ==> ShadowName(k) !in names
  }

  /** What one field adds to the record built so far: its shadow digest,
      if any, then its stored value. */
  function AddField(out: Dict, k: string, outcome: (Option<Value>, Value)): Dict {
    (if outcome.0.Some? then out[ShadowName(k) := outcome.0.value] else out)[k := outcome.1]
  }

  /** Adding one more field's outcome keeps the description. */
  lemma DescribesStep(out: Dict, o: Outcomes, k: string, outcome: (Option<Value>, Value), names: set<string>)
    requires Describes(out, o)
    requires o.Keys + {k} <= names && k !in o
    requires ShadowsOutside(o[k := outcome], names)
    ensures Describes(AddField(out, k, outcome), o[k := outcome])
  {
    var o2 := o[k := outcome];
    var b := AddField(out, k, outcome);
    assert ShadowKeys(o2) == ShadowKeys(o) + (if outcome.0.Some? then {ShadowName(k)} else {}) by {
      forall c | c in ShadowKeys(o2) ensures c in ShadowKeys(o) + (if outcome.0.Some? then {ShadowName(k)} else {}) {
        var j :| j in o2 && o2[j].0.Some? && c == ShadowName(j);
        if j != k {
          assert o2[j] == o[j];
        }
      }
    }
    forall j | j in o2 ensures b[j] == o2[j].1 {
      if j != k {
        assert o2[j] == o[j];
      }
    }
    forall j | j in o2 && o2[j].0.Some? ensures b[ShadowName(j)] == o2[j].0.value {
      if j != k {
        assert o2[j] == o[j];
        if outcome.0.Some? && ShadowName(j) == ShadowName(k) {
          ShadowNameInjective(j, k);
        }
      }
    }
  }

  /** The outcomes of the fields in `done`. */
  function OutcomesOf(p: Primitives, pol: Policy, key: seq<byte>, nonces: string -> Nonce,
                      ignore: FieldSet, data: Dict, done: set<string>): (o: Outcomes)
    requires done <= data.Keys
    requires forall k :: k in done ==> FieldOutcome(p, pol, key, nonces, ignore, data, k).Ok?
    ensures o.Keys == done
  {
    map k | k in done :: FieldOutcome(p, pol, key, nonces, ignore, data, k).value
  }

  /** A field gets a shadow exactly when it is shadowed, and its shadow name
      is never a field of the input. */
  lemma OutcomeShadow(p: Primitives, pol: Policy, key: seq<byte>, nonces: string -> Nonce,
                      ignore: FieldSet, data: Dict, k: string)
    requires k in data && FieldOutcome(p, pol, key, nonces, ignore, data, k).Ok?
    ensures var o := FieldOutcome(p, pol, key, nonces, ignore, data, k).value;
      (o.0.Some? <==> k in Shadowed(pol, ignore, data))
      && (o.0.Some? ==> ShadowName(k) !in data)
  {
  }

  lemma OutcomesFresh(p: Primitives, pol: Policy, key: seq<byte>, nonces: string -> Nonce,
                      ignore: FieldSet, data: Dict, done: set<string>)
    requires done <= data.Keys
    requires forall k :: k in done ==> FieldOutcome(p, pol, key, nonces, ignore, data, k).Ok?
    ensures ShadowsOutside(OutcomesOf(p, pol, key, nonces, ignore, data, done), data.Keys)
  {
    forall k | k in done {
      OutcomeShadow(p, pol, key, nonces, ignore, data, k);
    }
  }

  lemma OutcomesStep(p: Primitives, pol: Policy, key: seq<byte>, nonces: string -> Nonce,
                     ignore: FieldSet, data: Dict, done: set<string>, k: string)
    requires done <= data.Keys && k in data
    requires forall j :: j in done + {k} ==> FieldOutcome(p, pol, key, nonces, ignore, data, j).Ok?
    ensures OutcomesOf(p, pol, key, nonces, ignore, data, done + {k})
         == OutcomesOf(p, pol, key, nonces, ignore, data, done)[k := FieldOutcome(p, pol, key, nonces, ignore, data, k).value]
  {
  }

  /** One more transformed field keeps the built record in step with the
      outcomes of the fields done. */
  lemma BuildStep(p: Primitives, pol: Policy, key: seq<byte>, nonces: string -> Nonce,
                  ignore: FieldSet, data: Dict, done: set<string>, k: string, out: Dict)
    requires done <= data.Keys && k in data && k !in done
    requires forall j :: j in done + {k} ==> FieldOutcome(p, pol, key, nonces, ignore, data, j).Ok?
    requires Describes(out, OutcomesOf(p, pol, key, nonces, ignore, data, done))
    ensures Describes(AddField(out, k, FieldOutcome(p, pol, key, nonces, ignore, data, k).value),
                      OutcomesOf(p, pol, key, nonces, ignore, data, done + {k}))
  {
    OutcomesStep(p, pol, key, nonces, ignore, data, done, k);
    OutcomesFresh(p, pol, key, nonces, ignore, data, done + {k});
    DescribesStep(out, OutcomesOf(p, pol, key, nonces, ignore, data, done), k,
                  FieldOutcome(p, pol, key, nonces, ignore, data, k).value, data.Keys);
  }

  /** A field not yet transformed finds its shadow name in the record built
      so far only if that name is one of the input's fields. */
  lemma DescribedShadowFresh(out: Dict, o: Outcomes, k: string, names: set<string>)
    requires Describes(out, o) && o.Keys <= names && k !in o
    requires ShadowName(k) in out
    ensures ShadowName(k) in names
  {
  }

  /** A record described by every field's outcome is the one
      `_encrypt_data` returns. */
  lemma DescribedComplete(p: Primitives, pol: Policy, key: seq<byte>, nonces: string -> Nonce,
                          ignore: FieldSet, data: Dict, out: Dict)
    requires Encodes(p, pol, key, nonces, ignore, data)
    requires Describes(out, OutcomesOf(p, pol, key, nonces, ignore, data, data.Keys))
    ensures out == EncryptedRecord(p, pol, key, nonces, ignore, data)
  {
    var o := OutcomesOf(p, pol, key, nonces, ignore, data, data.Keys);
    forall j | j in o ensures (o[j].0.Some? <==> j in Shadowed(pol, ignore, data)) {
      OutcomeShadow(p, pol, key, nonces, ignore, data, j);
    }
    assert ShadowKeys(o) == ShadowColumns(pol, ignore, data);
    RecordFromFields(p, pol, key, nonces, ignore, data, out);
  }

  // ----- Decryption -----

  /** The shadow columns `_decrypt_data` pops, whether or not they are present. */
  function ShadowNames(pol: Policy): set<string> {
    set a | a in pol.autoHashed.fields :: ShadowName(a)
  }

  /** The caller's dict after the shadow columns are popped. */
  function Stripped(pol: Policy, data: Dict): (r: Dict)
    ensures forall k :: k in r <==> k in data && k !in ShadowNames(pol)
    ensures forall k :: k in r ==> r[k] == data[k]
  {
    map k | k in data && k !in ShadowNames(pol) :: data[k]
  }

  /** What `_decrypt_data` raises for any `ValueError` inside its `try`. */
  function InvalidKeyError(): Error {
    ValueError("Invalid encryption_key in use for this data.")
  }

  /** Inside the `try`, every `ValueError` becomes the wrong-key error; other
      exceptions pass through. */
  function WrongKey(r: Result<Value, Error>): (q: Result<Value, Error>)
    ensures q.Ok? <==> r.Ok?
    ensures q.Ok? ==> q == r
    ensures r.Err? && r.error.ValueError? ==> q == Err(InvalidKeyError())
    ensures r.Err? && !r.error.ValueError? ==> q == r
  {
    if r.Err? && r.error.ValueError? then Err(InvalidKeyError()) else r
  }

  /** What `_decrypt_data` makes of one stored field: an Encrypted or
      encrypt-all field that is not an ObjectId is hex-decoded and decrypted;
      everything else, hashed digests included, is passed through. */
  function Inbound(p: Primitives, pol: Policy, key: seq<byte>, k: string, v: Value): (r: Result<Value, Error>)
    ensures r.Err? && r.error.ValueError? ==> r.error == InvalidKeyError()
  {
    if !(pol.encrypted.Contains(k) || pol.encryptAll) || v.VObjectId? then Ok(v)
    else
      match v
      case VStr(s) =>
        WrongKey(match FromHexChecked(s)
                 case Err(e) => Err(e)
                 case Ok(b) => DecryptField(p, key, b))
      case _ => Err(TypeError("fromhex() argument must be str, not " + TypeName(v)))
  }

  /** Every remaining field of a stored record can be decrypted. */
  predicate Decodes(p: Primitives, pol: Policy, key: seq<byte>, stored: Dict) {
    forall k :: k in Stripped(pol, stored) ==> Inbound(p, pol, key, k, stored[k]).Ok?
  }

  /** The record `_decrypt_data` returns. */
  function DecryptedRecord(p: Primitives, pol: Policy, key: seq<byte>, stored: Dict): (r: Dict)
    requires Decodes(p, pol, key, stored)
    ensures r.Keys == Stripped(pol, stored).Keys
  {
    map k | k in Stripped(pol, stored) :: Inbound(p, pol, key, k, stored[k]).value
  }

  /** A record holding every remaining field's decrypted value, and
      nothing else, is the one `_decrypt_data` returns. */
  lemma DecodedFromFields(p: Primitives, pol: Policy, key: seq<byte>, stored: Dict, out: Dict)
    requires out.Keys == Stripped(pol, stored).Keys
    requires forall k :: k in out ==> Inbound(p, pol, key, k, stored[k]) == Ok(out[k])
    ensures Decodes(p, pol, key, stored) && out == DecryptedRecord(p, pol, key, stored)
  {
  }

  // ----- Properties of the transform -----

  /** An ignored field is copied verbatim and adds no shadow column of its
      own: its shadow name is in the output only when the input holds it. */
  lemma IgnoredVerbatim(p: Primitives, pol: Policy, key: seq<byte>, nonces: string -> Nonce,
                        ignore: FieldSet, data: Dict, k: string)
    requires Encodes(p, pol, key, nonces, ignore, data)
    requires k in data && ignore.Contains(k)
    ensures EncryptedRecord(p, pol, key, nonces, ignore, data)[k] == data[k]
    ensures ShadowName(k) in EncryptedRecord(p, pol, key, nonces, ignore, data) ==> ShadowName(k) in data
  {
    StoredNotShadowed(p, pol, key, nonces, ignore, data, k);
    assert FieldOutcome(p, pol, key, nonces, ignore, data, k).Ok?;
  }

  /** Which transform a field that is not ignored receives: encrypt-all beats
      the Encrypted set, which beats the Hashed set; a field in no set is kept. */
  lemma Precedence(p: Primitives, pol: Policy, key: seq<byte>, nonces: string -> Nonce,
                   ignore: FieldSet, data: Dict, k: string)
    requires Encodes(p, pol, key, nonces, ignore, data)
    requires k in data && !ignore.Contains(k)
    ensures var r := EncryptedRecord(p, pol, key, nonces, ignore, data);
      && k in r
      && (pol.encryptAll || pol.encrypted.Contains(k) ==> Ok(r[k]) == EncryptField(p, key, nonces(k), data[k]))
      && (!pol.encryptAll && !pol.encrypted.Contains(k) && pol.hashed.Contains(k) ==>
            HashField(p, k, data[k]) == Ok(r[k].s) && r[k].VStr?)
      && (!pol.encryptAll && !pol.encrypted.Contains(k) && !pol.hashed.Contains(k) ==> r[k] == data[k])
  {
    var r := EncryptedRecord(p, pol, key, nonces, ignore, data);
    assert FieldOutcome(p, pol, key, nonces, ignore, data, k).Ok?;
    StoredNotShadowed(p, pol, key, nonces, ignore, data, k);
  }

  /** A data field is never overwritten by a shadow column. */
  lemma StoredNotShadowed(p: Primitives, pol: Policy, key: seq<byte>, nonces: string -> Nonce,
                          ignore: FieldSet, data: Dict, k: string)
    requires Encodes(p, pol, key, nonces, ignore, data)
    requires k in data
    ensures EncryptedRecord(p, pol, key, nonces, ignore, data)[k] == FieldOutcome(p, pol, key, nonces, ignore, data, k).value.1
  {
    forall j | j in Shadowed(pol, ignore, data) ensures ShadowName(j) != k {
      assert FieldOutcome(p, pol, key, nonces, ignore, data, j).Ok?;
    }
  }

  /** Each automatically hashed field that is not ignored gains the column
      `<field>_hashed` holding the digest of its original, unencrypted value. */
  lemma ShadowDigest(p: Primitives, pol: Policy, key: seq<byte>, nonces: string -> Nonce,
                     ignore: FieldSet, data: Dict, k: string)
    requires Encodes(p, pol, key, nonces, ignore, data)
    requires k in data && !ignore.Contains(k) && pol.autoHashed.Contains(k)
    ensures var r := EncryptedRecord(p, pol, key, nonces, ignore, data);
      ShadowName(k) !in data && ShadowName(k) in r
      && r[ShadowName(k)].VStr? && HashField(p, ShadowName(k), data[k]) == Ok(r[ShadowName(k)].s)
  {
    assert FieldOutcome(p, pol, key, nonces, ignore, data, k).Ok?;
    assert k in Shadowed(pol, ignore, data);
  }

  /** The output holds the input's fields plus the new shadow columns and
      nothing else, one shadow per automatically hashed field. */
  lemma OutputFields(p: Primitives, pol: Policy, key: seq<byte>, nonces: string -> Nonce,
                     ignore: FieldSet, data: Dict)
    requires Encodes(p, pol, key, nonces, ignore, data)
    ensures var r := EncryptedRecord(p, pol, key, nonces, ignore, data);
      |r| == |data| + |Shadowed(pol, ignore, data)|
  {
    var r := EncryptedRecord(p, pol, key, nonces, ignore, data);
    ShadowsFresh(p, pol, key, nonces, ignore, data);
    ShadowCount(Shadowed(pol, ignore, data));
    assert |r.Keys| == |data.Keys| + |ShadowColumns(pol, ignore, data)|;
  }

  /** No shadow column the transform adds is already a field of the record. */
  lemma ShadowsFresh(p: Primitives, pol: Policy, key: seq<byte>, nonces: string -> Nonce,
                     ignore: FieldSet, data: Dict)
    requires Encodes(p, pol, key, nonces, ignore, data)
    ensures data.Keys !! ShadowColumns(pol, ignore, data)
  {
    forall j | j in Shadowed(pol, ignore, data) ensures ShadowName(j) !in data {
      assert FieldOutcome(p, pol, key, nonces, ignore, data, j).Ok?;
    }
  }

  lemma {:induction false} ShadowCount(fields: set<string>)
    ensures |set j | j in fields :: ShadowName(j)| == |fields|
  {
    if fields != {} {
      var x :| x in fields;
      ShadowCount(fields - {x});
      var smaller := set j | j in fields - {x} :: ShadowName(j);
      var all := set j | j in fields :: ShadowName(j);
      assert all == smaller + {ShadowName(x)};
      assert ShadowName(x) !in smaller;
    }
  }

  /** A field `<k>_hashed` already in the record makes an automatically hashed,
      non-ignored `k` fail with `ValueError`. */
  lemma CollisionRejected(p: Primitives, pol: Policy, key: seq<byte>, nonces: string -> Nonce,
                          ignore: FieldSet, data: Dict, k: string)
    requires k in data && !ignore.Contains(k) && pol.autoHashed.Contains(k) && ShadowName(k) in data
    ensures FieldOutcome(p, pol, key, nonces, ignore, data, k) == Err(CollisionError(k))
    ensures !Encodes(p, pol, key, nonces, ignore, data)
  {
  }

  /** `upsert` transforms its record twice, the second time with no ignored
      fields; the first pass's shadow column then collides, so any automatically
      hashed field that was not ignored makes the upsert fail. */
  lemma UpsertTransformsTwice(p: Primitives, pol: Policy, key: seq<byte>, n1: string -> Nonce, n2: string -> Nonce,
                              ignore: FieldSet, data: Dict, k: string)
    requires Encodes(p, pol, key, n1, ignore, data)
    requires k in data && !ignore.Contains(k) && pol.autoHashed.Contains(k)
    ensures !Encodes(p, pol, key, n2, Base([]), EncryptedRecord(p, pol, key, n1, ignore, data))
  {
    var r := EncryptedRecord(p, pol, key, n1, ignore, data);
    ShadowDigest(p, pol, key, n1, ignore, data, k);
    CollisionRejected(p, pol, key, n2, Base([]), r, k);
  }

  // ----- The round trip -----

  /** `_decrypt_data` undoes `_encrypt_data` under the same key when: no input
      field is named like a shadow column; every hashed field is also
      encrypted (digests are one-way); and an ignored field that decryption
      will look at is an ObjectId (anything else would be fed to the cipher). */
  lemma DecryptEncryptedRecord(p: Primitives, pol: Policy, key: seq<byte>, nonces: string -> Nonce,
                         ignore: FieldSet, data: Dict)
    requires Lawful(p) && ValidKey(key)
    requires Encodes(p, pol, key, nonces, ignore, data)
    requires forall k :: k in data ==> k !in ShadowNames(pol)
    requires forall k :: k in data && !ignore.Contains(k) && pol.hashed.Contains(k) ==>
               pol.encryptAll || pol.encrypted.Contains(k)
    requires forall k :: k in data && ignore.Contains(k) && (pol.encryptAll || pol.encrypted.Contains(k)) ==>
               data[k].VObjectId?
    ensures var stored := EncryptedRecord(p, pol, key, nonces, ignore, data);
      Decodes(p, pol, key, stored) && DecryptedRecord(p, pol, key, stored) == data
  {
    var stored := EncryptedRecord(p, pol, key, nonces, ignore, data);
    var stripped := Stripped(pol, stored);
    assert stripped.Keys == data.Keys;
    forall k | k in data ensures Inbound(p, pol, key, k, stored[k]) == Ok(data[k]) {
      FieldRoundTrip(p, pol, key, nonces, ignore, data, k);
    }
    DecodedFromFields(p, pol, key, stored, data);
  }

  lemma FieldRoundTrip(p: Primitives, pol: Policy, key: seq<byte>, nonces: string -> Nonce,
                       ignore: FieldSet, data: Dict, k: string)
    requires Lawful(p) && ValidKey(key)
    requires Encodes(p, pol, key, nonces, ignore, data)
    requires k in data
    requires !ignore.Contains(k) && pol.hashed.Contains(k) ==> pol.encryptAll || pol.encrypted.Contains(k)
    requires ignore.Contains(k) && (pol.encryptAll || pol.encrypted.Contains(k)) ==> data[k].VObjectId?
    ensures Inbound(p, pol, key, k, EncryptedRecord(p, pol, key, nonces, ignore, data)[k]) == Ok(data[k])
  {
    var v := data[k];
    StoredNotShadowed(p, pol, key, nonces, ignore, data, k);
    var o := FieldOutcome(p, pol, key, nonces, ignore, data, k);
    assert o.Ok?;
    if !ignore.Contains(k) && (pol.encryptAll || pol.encrypted.Contains(k)) && !v.VObjectId? {
      var e := EncryptField(p, key, nonces(k), v);
      assert e.Ok? && o.value.1 == e.value;
      DecryptEncrypt(p, key, nonces(k), v);
    }
  }

  // ----- Another key -----

  /** An encrypted field read back under another valid key than the one it
      was stored with raises the invalid-key error. */
  lemma FieldOtherKey(p: Primitives, pol: Policy, key: seq<byte>, other: seq<byte>, nonces: string -> Nonce,
                      ignore: FieldSet, data: Dict, k: string)
    requires Lawful(p) && ValidKey(key) && ValidKey(other) && key != other
    requires Encodes(p, pol, key, nonces, ignore, data)
    requires k in data && !ignore.Contains(k) && (pol.encryptAll || pol.encrypted.Contains(k)) && !data[k].VObjectId?
    ensures Inbound(p, pol, other, k, EncryptedRecord(p, pol, key, nonces, ignore, data)[k]) == Err(InvalidKeyError())
  {
    StoredNotShadowed(p, pol, key, nonces, ignore, data, k);
    assert FieldOutcome(p, pol, key, nonces, ignore, data, k).Ok?;
    assert EncryptField(p, key, nonces(k), data[k]).Ok?;
    DecryptOtherKey(p, key, other, nonces(k), data[k]);
  }

  /** `_decrypt_data` under another valid key than `_encrypt_data` used: every
      field either passes through or raises the invalid-key error, so the only
      exception it can raise is that one; and it does raise it as soon as one
      field it decrypts was encrypted (an ignored field that decryption will
      look at being an ObjectId, as in the round trip). */
  lemma DecryptUnderOtherKey(p: Primitives, pol: Policy, key: seq<byte>, other: seq<byte>, nonces: string -> Nonce,
                             ignore: FieldSet, data: Dict)
    requires Lawful(p) && ValidKey(key) && ValidKey(other) && key != other
    requires Encodes(p, pol, key, nonces, ignore, data)
    requires forall k :: k in data && ignore.Contains(k) && (pol.encryptAll || pol.encrypted.Contains(k)) ==>
               data[k].VObjectId?
    ensures var stored := EncryptedRecord(p, pol, key, nonces, ignore, data);
      forall k :: k in Stripped(pol, stored) ==>
        Inbound(p, pol, other, k, stored[k]).Ok? || Inbound(p, pol, other, k, stored[k]) == Err(InvalidKeyError())
    ensures var stored := EncryptedRecord(p, pol, key, nonces, ignore, data);
      (exists k :: k in data && k !in ShadowNames(pol) && !ignore.Contains(k)
                   && (pol.encryptAll || pol.encrypted.Contains(k)) && !data[k].VObjectId?)
      ==> !Decodes(p, pol, other, stored)
  {
    var stored := EncryptedRecord(p, pol, key, nonces, ignore, data);
    forall k | k in Stripped(pol, stored)
      ensures Inbound(p, pol, other, k, stored[k]).Ok? || Inbound(p, pol, other, k, stored[k]) == Err(InvalidKeyError())
    {
      assert k in data;
      StoredNotShadowed(p, pol, key, nonces, ignore, data, k);
      assert FieldOutcome(p, pol, key, nonces, ignore, data, k).Ok?;
      if !ignore.Contains(k) && (pol.encryptAll || pol.encrypted.Contains(k)) && !data[k].VObjectId? {
        FieldOtherKey(p, pol, key, other, nonces, ignore, data, k);
      }
    }
    if exists k :: k in data && k !in ShadowNames(pol) && !ignore.Contains(k)
                   && (pol.encryptAll || pol.encrypted.Contains(k)) && !data[k].VObjectId? {
      var k :| k in data && k !in ShadowNames(pol) && !ignore.Contains(k)
               && (pol.encryptAll || pol.encrypted.Contains(k)) && !data[k].VObjectId?;
      FieldOtherKey(p, pol, key, other, nonces, ignore, data, k);
      assert k in Stripped(pol, stored);
    }
  }
}
