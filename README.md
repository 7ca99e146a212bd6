# Alaric core in Dafny

A model of the core of Alaric, a Python library that puts field-level
encryption and hashing, a read-through/write-through Redis cache, a cursor
builder and a small filter/projection language in front of MongoDB.

What is modelled:

- **Field codec** (`alaric/encrypted_document.py`).
  - `_aes_encrypt_field` renders a value behind a 9-character type tag.
    It seals the value with AES-GCM and stores `nonce(16) ++ tag(16) ++ ciphertext` as lower-case hex.
  - `_aes_decrypt_field` slices that back at 16 and 32, opens it, and dispatches on the tag.
  - Hex (`bytes.hex`/`bytes.fromhex`), `str(int)`/`int(str)`, `str.strip`, `str.split` and `str.ljust` are written out and proved concretely.
- **Hashing** (`alaric/util.py`). `hash_field` renders numbers and bools with `str()`, then takes a SHA-512 hex digest.
- **Policy sets** (`alaric/encryption/base.py`). The `Base` set of field names.
- **Record transform.**
  - `_encrypt_data` applies the Encrypted/Hashed/AutomaticallyHashed sets, the ignore set and the encrypt-all flag.
    It adds `<field>_hashed` shadow columns and rejects collisions.
  - `_decrypt_data` pops the shadow columns from the caller's dict in place, then decrypts.
  - Both are proved against a specification of the whole record, and the round trip between them is proved.
- **Encrypted document facade.**
  - insert, update, upsert, increment, change_field_to, find and bulk_insert, over an in-memory collection.
  - The collection offers the `find_one`, `insert_one` and `update_one` (`$set` and `$inc`) that `alaric/document.py` calls.
- **Filter and projection language.**
  - The comparisons (`EQ`, `IN`, `GT`, `LT`, `EXISTS`, `Regex`), the logicals (`AND`, `OR`, `NOT`), `NEGATE`, `HQF`, `AQ` and `All`.
  - Each is a variant of one datatype with a recursive `build`.
  - `PROJECTION` of `SHOW`/`HIDE` merges its items in a loop and adds the `_id: 0` default.
- **Cursor** (`alaric/cursor.py`). A class whose setters validate and normalise.
  Building it records the Motor cursor chain and freezes the configuration.
- **Cached document** (`alaric/cached_document.py`).
  - A class holding the Redis map and the lookup groups.
  - Cache keys are `field:value|` segments in ascending key order.
  - Secondary keys point at the primary `_id:<id>|` key.
  - `get` reads through the cache, `set` writes through, and the TTL is recorded with every entry.

Foreign code is passed in as a `Primitives` value of functions: SHA-512,
AES-GCM seal/open, UTF-8, orjson dumps/loads and Python `repr` of composite
values. A failing `orjson.dumps` gives back the message of its `JSONEncodeError`
(a `TypeError`), so the model passes on orjson's own, cause-specific text. The laws the library relies on are the ghost predicate `Lawful`:

- decode inverts encode;
- the GCM tag is 16 bytes and `open` inverts `seal` under the same key and nonce;
- what one valid key sealed, a different valid key does not open (an ideal cipher: the 2^-128 chance of a forged tag is left out);
- `loads` inverts a successful `dumps`;
- a digest is 64 bytes.

Lemmas that need these laws take `Lawful(p)` as a precondition. `Foreign.LawsSatisfiable` shows that the laws can all hold at once.

Python exceptions are the `Error` datatype, which carries the exception class and its message.
Randomness (the GCM nonce, `secrets.token_bytes`) becomes a parameter.

Behaviour of the code worth knowing:

- A `bool` hashes as `"True"`/`"False"`, the text `str()` gives it (`Hashing.HashBoolAsText`).
- `increment` on an Encrypted field does not decrypt and re-encrypt.
  It reads the raw record, so `+=` runs on the hex ciphertext and raises `TypeError` (`EncryptedDocuments.IncrementOnCiphertext`).
  The error for a missing record is "Item to increment didn't exist with this filter.".
- `_decrypt_data` gives hex-parse failures and authentication failures the one message "Invalid encryption_key in use for this data.".
  A wrong key is not told apart from data that was never encrypted.
  Under another valid key, every encrypted field raises that error (`RecordTransform.DecryptUnderOtherKey`).
- `+=` on a list-valued field (an ignored Encrypted field is stored as given) is `list.extend` and raises "'int' object is not iterable" (`EncryptedDocuments.IncrementOnStoredList`).
- `CachedDocument.set` does not always write to the store.
  A lookup group naming a field the record lacks raises `KeyError` in `_update_redis_cache`, before the upsert.
  Cache errors are not swallowed either.
- `EncryptedDocument.upsert` ends in `EncryptedDocument.update`.
  That transforms the record a second time and drops `upsert=True`.

## Model

| member | source | states |
|---|---|---|
| PyText.LStrip | alaric/encrypted_document.py:228 | `lstrip` removes exactly the leading whitespace: the result is a suffix, everything removed is whitespace, and the result does not start with whitespace |
| PyText.RStrip | alaric/encrypted_document.py:228 | `rstrip` removes exactly the trailing whitespace: the result is a prefix, everything removed is whitespace, and the result does not end with whitespace |
| PyText.StripUnspaced | alaric/encrypted_document.py:228 | a string that neither starts nor ends with whitespace is unchanged by `strip` |
| PyText.RStripPadded | alaric/encrypted_document.py:168-181 | `rstrip` removes exactly the padding that `ljust` added |
| PyText.StripPadded | alaric/encrypted_document.py:228 | a type name padded by `ljust` strips back to the name |
| PyText.SplitFirst | alaric/encrypted_document.py:228 | `split(sep)[0]` is the longest prefix without `sep`, and is followed by `sep` when shorter than the input |
| PyText.SplitFirstAt | alaric/encrypted_document.py:228 | `(s + sep + rest).split(sep)[0] == s` when `s` has no `sep`, whatever `rest` holds |
| PyText.Strip | alaric/encrypted_document.py:228 | `strip` never lengthens its input, and what it returns neither starts nor ends with whitespace |
| PyText.Join | alaric/encryption/base.py:12 | `sep.join(parts)`, the separator between consecutive parts and nowhere else; a specification function, used by `FieldSets.FieldSet.Repr` and `Query.Repr` |
| StringOrder.Sort | alaric/cached_document.py:220 | `sorted` of string keys is ascending in code-point order and a permutation of its input |
| StringOrder.SortedUnique | alaric/cached_document.py:220 | two ascending sequences with the same elements are equal, so the sorted key order does not depend on the dict's order |
| StringOrder.SortedElements | alaric/cached_document.py:220 | the sorted listing of a set of keys is ascending, duplicate-free and lists exactly the set |
| StringOrder.SortListing | alaric/cached_document.py:220 | sorting any duplicate-free listing of a key set gives that set's sorted listing |
| Decimal.NatDigits | alaric/encrypted_document.py:172 | `str(n)` of a natural number is a non-empty run of ASCII digits |
| Decimal.NatDigitsValue | alaric/encrypted_document.py:172 | the digits of `str(n)` denote `n` |
| Decimal.IntToString | alaric/encrypted_document.py:172 | `str(i)` is non-empty, starts with `-` exactly when `i` is negative, and is otherwise all digits |
| Decimal.ParseInt | alaric/encrypted_document.py:215 | `int(s)`, `None` where Python raises `ValueError`; a specification function whose properties are stated by `ParseIntToString` and `ParseIntNeedsDigit` |
| Decimal.DropUnderscores | alaric/encrypted_document.py:215 | removing `int()`'s digit-group underscores leaves only digits |
| Decimal.DropNoUnderscores | alaric/encrypted_document.py:215 | removing underscores from a plain digit string changes nothing |
| Decimal.ParseIntToString | alaric/encrypted_document.py:215 | `int(str(i)) == i` for every integer, negatives included |
| Decimal.StripIntToString | alaric/encrypted_document.py:215 | `str(i)` has no surrounding whitespace for `int()` to strip |
| Decimal.SignedIntToString | alaric/encrypted_document.py:215 | the optional sign and the numeral of `str(i)` parse back to `i` |
| Decimal.ParseIntNeedsDigit | alaric/encrypted_document.py:215 | `int()` refuses every string without a digit |
| Hex.ToHex | alaric/encrypted_document.py:197 | `bytes.hex()` gives two lower-case hex digits per byte |
| Hex.FirstNonAscii | alaric/encrypted_document.py:156 | `bytes.fromhex` reports the first non-ASCII character: everything before it is ASCII |
| Hex.FromHex | alaric/encrypted_document.py:156 | `bytes.fromhex(s)` decodes at most half as many bytes as `s` has characters, and reports an error at a position no further than the end of `s` |
| Hex.FromHexToHex | alaric/encrypted_document.py:156 | `bytes.fromhex(b.hex()) == b` |
| Hex.PairsToHex | alaric/encrypted_document.py:156 | the digit pairs of `b.hex()` decode back to `b` |
| Hex.ToHexAppend | alaric/encrypted_document.py:194-197 | the hex of concatenated bytes is the concatenation of their hex texts |
| Hex.ToHexInjective | alaric/encrypted_document.py:197 | different byte strings never share a hex text |
| Hex.OddLengthRejected | alaric/encrypted_document.py:156 | an odd number of hex digits never decodes |
| Hashing.Digest | alaric/util.py:25 | a SHA-512 hex digest is 128 lower-case hex characters |
| Hashing.HashField | alaric/util.py:4-30 | `hash_field` succeeds exactly for `str`, `int` and `bool` values, digests their text, and otherwise raises `AttributeError` naming the type |
| Hashing.HashIntAsText | alaric/util.py:19-22 | an `int` hashes like its decimal text, under any field name |
| Hashing.HashOneAsText | alaric/util.py:19-22 | `hash_field(f, 1) == hash_field(g, "1")` |
| Hashing.HashBoolAsText | alaric/util.py:19-22 | a `bool` hashes like `"True"` or `"False"` |
| Hashing.HashIgnoresField | alaric/util.py:25 | the field name never changes a digest |
| FieldSets.Base | alaric/encryption/base.py:5-9 | `item in Base(*names)` holds exactly when `item` is one of the names |
| FieldSets.FieldSet.Contains | alaric/encryption/base.py:8-9 | `item in fields`, exact string membership; `FieldSets.Base` states it for a constructed set |
| FieldSets.CollapseCount | alaric/encryption/base.py:6 | duplicates collapse: a `Base` has at most as many fields as names given, and exactly as many iff the names are distinct |
| FieldSets.EmptyContainsNothing | alaric/encryption/base.py:8-9 | an empty `Base` contains no field |
| FieldSets.FieldSet.Iterate | alaric/encryption/base.py:14-15 | iteration yields every field exactly once and nothing else |
| FieldSets.FieldSet.Repr | alaric/encryption/base.py:11-12 | `repr` is the class name around the fields joined by `,` in some iteration order |
| FieldCodec.Tag | alaric/encrypted_document.py:167-181 | a tag is the type name left-justified to 8 characters, then `|` |
| FieldCodec.Plaintext | alaric/encrypted_document.py:167-188 | rendering fails only for a list or dict whose JSON cannot be produced, with orjson's `TypeError` message, or with `ValueError` for an unsupported type |
| FieldCodec.Dumps | alaric/encrypted_document.py:178-181 | a failing `orjson.dumps` raises `TypeError` carrying orjson's message, and succeeds otherwise |
| FieldCodec.EncryptField | alaric/encrypted_document.py:164-197 | encryption succeeds exactly for a valid key and a supported value or ObjectId, and yields a hex string or the ObjectId itself |
| FieldCodec.FromHexChecked | alaric/encrypted_document.py:156 | a failing `bytes.fromhex` raises `ValueError` |
| FieldCodec.Loads | alaric/encrypted_document.py:203 | a failing `orjson.loads` raises `ValueError` |
| FieldCodec.DecodeTagged | alaric/encrypted_document.py:213-230 | an unknown tag raises `KeyError` with that tag; `str` returns the body, and `bool` is true exactly for the body `"1"` |
| FieldCodec.DecryptField | alaric/encrypted_document.py:222-226 | an invalid key or an empty value raises `ValueError` |
| FieldCodec.TagRoundTrip | alaric/encrypted_document.py:228-229 | the type is read back from the first nine characters and the body from index 9, whatever the body holds (a `|` included) |
| FieldCodec.EnvelopeSlices | alaric/encrypted_document.py:222-224 | the stored bytes survive hex, and slicing at 16 and 32 recovers nonce, tag and ciphertext |
| FieldCodec.Envelope | alaric/encrypted_document.py:193-197 | the stored bytes: nonce, then tag, then ciphertext; a specification function, split back by `FieldCodec.EnvelopeSlices` |
| FieldCodec.EnvelopeLayout | alaric/encrypted_document.py:193-197 | a sealed value is lower-case hex that starts with the nonce's hex, and its parts open to the UTF-8 of the rendered plaintext |
| FieldCodec.NoncesDistinguish | alaric/encrypted_document.py:166 | two different nonces give two different stored texts for the same value |
| FieldCodec.ObjectIdUnchanged | alaric/encrypted_document.py:182-184 | an ObjectId is returned, not encrypted |
| FieldCodec.UnsupportedRejected | alaric/encrypted_document.py:185-188 | `None` and `bytes` raise `ValueError` naming their type |
| FieldCodec.DecodeInt | alaric/encrypted_document.py:215 | an `int` body decodes to the integer, negatives included |
| FieldCodec.DecodeList | alaric/encrypted_document.py:202-204 | a list body decodes to the list it wrapped as `{"list": ...}` |
| FieldCodec.DecodeDict | alaric/encrypted_document.py:206-207 | a dict body decodes to the dict |
| FieldCodec.DecodeRendered | alaric/encrypted_document.py:213-230 | every rendered plaintext decodes back to its value |
| FieldCodec.DecryptEncrypt | alaric/encrypted_document.py:164-230 | decrypting what was encrypted under the same key returns the value: str, int, bool, and a list or dict with JSON |
| FieldCodec.DecryptOtherKey | alaric/encrypted_document.py:222-226 | what one key encrypted still parses as hex, and under a different valid key fails the GCM check with `ValueError` |
| RecordTransform.ShadowName | alaric/encrypted_document.py:125 | the shadow column is the field name followed by `_hashed` |
| RecordTransform.ShadowNameInjective | alaric/encrypted_document.py:125 | different fields have different shadow columns |
| RecordTransform.EncryptedRecord | alaric/encrypted_document.py:117-143 | the output's fields are the input's plus the shadow columns |
| RecordTransform.RecordFromFields | alaric/encrypted_document.py:117-143 | a record holding each field's stored value and each shadow digest, and nothing else, is the one `_encrypt_data` returns |
| RecordTransform.DescribesStep | alaric/encrypted_document.py:119-142 | adding one field's shadow and value keeps the built record in step with the fields done |
| RecordTransform.OutcomeShadow | alaric/encrypted_document.py:124-131 | a field gets a shadow exactly when it is automatically hashed and not ignored, and the shadow name is never an input field |
| RecordTransform.OutcomesFresh | alaric/encrypted_document.py:126-129 | no shadow column lands on an input field |
| RecordTransform.DescribedShadowFresh | alaric/encrypted_document.py:126 | a shadow name already in the partial output is an input field name |
| RecordTransform.DescribedComplete | alaric/encrypted_document.py:117-143 | once every field is done, the built record is the one `_encrypt_data` returns |
| RecordTransform.Stripped | alaric/encrypted_document.py:148-150 | popping the shadow columns removes exactly those names and keeps every other entry |
| RecordTransform.WrongKey | alaric/encrypted_document.py:154-158 | inside the `try`, success is unchanged, every `ValueError` becomes "Invalid encryption_key in use for this data." and other exceptions pass through |
| RecordTransform.Outbound | alaric/encrypted_document.py:133-142 | a field that is not ignored is stored either unchanged or as a string (hex ciphertext or digest); `RecordTransform.Precedence` states which |
| RecordTransform.FieldOutcome | alaric/encrypted_document.py:119-142 | one field's shadow entry and stored value; a specification function whose properties are stated by `RecordTransform.OutcomeShadow` and `RecordTransform.Precedence` |
| RecordTransform.Inbound | alaric/encrypted_document.py:152-160 | the only `ValueError` decrypting one field can raise is "Invalid encryption_key in use for this data." |
| RecordTransform.DecryptedRecord | alaric/encrypted_document.py:145-162 | the output's fields are the input's minus the shadow columns |
| RecordTransform.DecodedFromFields | alaric/encrypted_document.py:145-162 | a record of each remaining field's decrypted value is the one `_decrypt_data` returns |
| RecordTransform.IgnoredVerbatim | alaric/encrypted_document.py:120-122 | an ignored field is copied verbatim and adds no shadow column of its own |
| RecordTransform.Precedence | alaric/encrypted_document.py:133-142 | encrypt-all beats Encrypted, which beats Hashed; a field in no set is kept |
| RecordTransform.StoredNotShadowed | alaric/encrypted_document.py:142 | no shadow column overwrites a data field |
| RecordTransform.ShadowDigest | alaric/encrypted_document.py:124-131 | each automatically hashed, non-ignored field gains `<field>_hashed` = digest of its original value |
| RecordTransform.OutputFields | alaric/encrypted_document.py:117-143 | the output has one field per input field plus one per shadowed field |
| RecordTransform.ShadowsFresh | alaric/encrypted_document.py:126-129 | no added shadow column is already a field of the record |
| RecordTransform.ShadowCount | alaric/encrypted_document.py:125 | distinct fields have as many distinct shadow names |
| RecordTransform.CollisionRejected | alaric/encrypted_document.py:126-129 | an existing `<k>_hashed` column makes `k` fail with the collision `ValueError`, and the record cannot be transformed |
| RecordTransform.UpsertTransformsTwice | alaric/encrypted_document.py:381-383 | transforming an already transformed record again always fails when a field was automatically hashed and not ignored |
| RecordTransform.DecryptEncryptedRecord | alaric/encrypted_document.py:117-162 | `_decrypt_data(_encrypt_data(r)) == r` when no field is named like a shadow column, hashed fields are also encrypted, and ignored encrypted fields are ObjectIds |
| RecordTransform.FieldOtherKey | alaric/encrypted_document.py:152-158 | an encrypted field read under a different valid key raises "Invalid encryption_key in use for this data." |
| RecordTransform.DecryptUnderOtherKey | alaric/encrypted_document.py:145-160 | under a different valid key every field passes through or raises the invalid-key error, and decryption fails once a decrypted field was encrypted |
| RecordTransform.FieldRoundTrip | alaric/encrypted_document.py:152-160 | under the same conditions, one stored field decrypts back to its original value |
| Projections.ProjItem.Build | alaric/projections/show.py:13-14 | `SHOW` maps exactly the given fields, duplicates collapsed, to 1; `HIDE` (alaric/projections/hide.py, same lines) maps them to 0 |
| Projections.ProjItem.Repr | alaric/projections/show.py:10-11 | `repr` of `SHOW` starts with `SHOW(`, of `HIDE` (alaric/projections/hide.py:10-11) with `HIDE(`, and ends with `)` |
| Projections.Merged | alaric/projections/projections.py:19-22 | the merged fields are exactly those some item mentions |
| Projections.BuildProjection | alaric/projections/projections.py:18-28 | the merge loop and the `_id` default build the specified projection |
| Projections.LastMentionWins | alaric/projections/projections.py:20-22 | a field takes the flag of the last item that mentions it |
| Projections.ProjectionFields | alaric/projections/projections.py:24-28 | the keys are the mentioned fields plus `_id`; `_id` is 0 unless mentioned and keeps its flag otherwise |
| Projections.EmptyProjection | alaric/projections/projections.py:19-28 | `PROJECTION()` builds `{"_id": 0}` |
| Projections.ShowExamples | tests/test_cursors.py:44-48 | `PROJECTION(SHOW("data"))` and `PROJECTION(SHOW("data"), SHOW("_id"))` build the dicts the tests expect |
| HashedQuery.HashedEntry | alaric/encryption/hashed_query_field.py:35-38 | hashing one field's operators keeps exactly its operator keys |
| HashedQuery.HashedFilter | alaric/encryption/hashed_query_field.py:32-40 | the hashed filter keeps exactly the field keys |
| HashedQuery.HashEntry | alaric/encryption/hashed_query_field.py:35-38 | the inner loop succeeds iff every operator value hashes, and then gives the hashed entry; otherwise the error of one operator |
| HashedQuery.HashQuery | alaric/encryption/hashed_query_field.py:28-40 | the nested loops succeed iff every value hashes and give the specified filter; otherwise an error of some entry |
| Query.MakeEQ | alaric/comparison/comparison_eq.py:31-34 | the constructor accepts exactly the non-list values and keeps field and value |
| Query.MakeGT | alaric/comparison/comparison_greater_than.py:16-19 | the constructor accepts exactly the non-list values and keeps field and value |
| Query.MakeLT | alaric/comparison/comparison_less_than.py:29-32 | the constructor accepts exactly the non-list values and keeps field and value |
| Query.MakeIN | alaric/comparison/comparison_in.py:18-23 | the constructor accepts exactly lists, keeps them, and starts with `$in` |
| Query.MakeEXISTS | alaric/comparison/comparison_exists.py:14-16 | a new `EXISTS` asks for the field to be present |
| Query.MakeRegex | alaric/comparison/comparison_regex.py:22-35 | the options are the other options with one `i` appended iff case-insensitive; the regex is kept |
| Query.BuildComparison | alaric/comparison/comparison_eq.py:39-41 | each comparison builds one field holding one operator: `EQ` `$eq` with the value; likewise `IN` its current operator with the values in order, `GT` `$gt`, `LT` `$lt`, `EXISTS` `$exists` with its current flag, and `Regex` `$regex` with `$options` (the `build` methods of comparison_in.py, comparison_greater_than.py, comparison_less_than.py, comparison_exists.py and comparison_regex.py) |
| Query.HashedComparison | alaric/encryption/hashed_query_field.py:28-40 | `HQF(c).build()`; a specification function whose properties are stated by `Query.HashedComparisonSpec` and `Query.HashedComparisonShape` |
| Query.HashedComparisonShape | alaric/encryption/hashed_query_field.py:28-40 | the hashed filter keeps the plain filter's field and operators; it raises only for an operand `hash_field` cannot encode, never for a `Regex` |
| Query.Build | alaric/logical/logical_and.py:24-27 | a plain comparison and `ALL` (alaric/meta/all.py:25-26) always build; `AND`, `OR` (logical_or.py:38-41), `NOT` (logical_not.py:27-30), `NEGATE` (meta/negate.py:37-53), `HQF` and `AQ` (advanced_query.py:34-36) are stated by the lemmas on the rows below |
| Query.BuildOneKey | alaric/logical/logical_and.py:24-27 | every filter `build` returns has at most one top-level key, and only `ALL` (wrapped in `AQ` or not) builds `{}` |
| Query.BuildAll | alaric/logical/logical_and.py:26 | the list comprehension yields exactly one filter per child |
| Query.Negated | alaric/meta/negate.py:37-53 | `NEGATE` accepts exactly `EXISTS` and `IN`, and rewrites them to absence and `$nin`; `GT`, `LT` and the rest raise their `RuntimeError` |
| Query.NegateBuilds | alaric/meta/negate.py:39-45 | `NEGATE(EXISTS(f))` builds `{f: {"$exists": False}}` and `NEGATE(IN(f, vs))` builds `{f: {"$nin": vs}}` |
| Query.NegateIdempotent | alaric/meta/negate.py:39-45 | negating an already negated comparison changes nothing, so repeated builds agree |
| Query.BuildAllChildren | alaric/logical/logical_and.py:26 | the children are built in order, one filter each, or the first failing child's error is raised |
| Query.LogicalBuild | alaric/logical/logical_and.py:24-27 | `AND` puts its children's filters, in order and number, under `$and`; `OR` (logical_or.py) under `$or`; `NOT` (logical_not.py) under `$not` |
| Query.EmptyLogical | alaric/logical/logical_and.py:19-27 | `AND()`, `OR()` and `NOT()` build an empty list under their operator |
| Query.ContainerTransparent | alaric/advanced_query.py:34-36 | `AQ` adds no wrapping however deeply nested |
| Query.HashedComparisonSpec | alaric/encryption/hashed_query_field.py:28-40 | `HQF(c)` succeeds iff every operator value of `c`'s filter hashes, and gives the hashed filter; otherwise that entry's error |
| Query.HashedRegexSpec | alaric/encryption/hashed_query_field.py:28-40 | `HQF` over a `Regex` hashes its pattern and options |
| Query.HashedSingleSpec | alaric/encryption/hashed_query_field.py:28-40 | `HQF` over a single-operator comparison agrees with the hashing loop |
| Query.HashedComparisonError | alaric/encryption/hashed_query_field.py:34-38 | any error the loop can raise on `c`'s filter is the one `HQF(c)` raises |
| Query.BuildHashed | alaric/encryption/hashed_query_field.py:28-40 | building the comparison and running the nested loops gives `HQF(c).build()` |
| Query.HashedEquality | alaric/encryption/hashed_query_field.py:32-38 | `HQF(EQ(f, v))` builds `{f: {"$eq": digest of v}}` |
| Query.HashedInFails | alaric/encryption/hashed_query_field.py:37 | `HQF` over `IN` always raises, since a list has no `encode` |
| Query.CursorFilterExamples | tests/test_cursors.py:17-26 | `AQ(IN(...))` and `AQ(AND(IN(...), EQ(...)))` build the filters the tests expect |
| Query.ComparisonRepr | alaric/comparison/comparison_eq.py:36-37 | a comparison's `repr` starts with its class name and `(` and ends with `)` |
| Query.ReprAll | alaric/logical/logical_and.py:21-22 | the children's reprs are one per child |
| Query.Repr | alaric/logical/logical_and.py:21-22 | `HQF` and `AQ` have no `repr` of their own; comparisons, `NEGATE` (meta/negate.py:34-35) and `ALL` (meta/all.py:22-23) always have one; every `repr` there is ends with `)`, as do `OR`'s (logical_or.py:35-36) and `NOT`'s (logical_not.py:24-25) |
| Query.ExistsReprHidesValue | alaric/comparison/comparison_exists.py:18-19 | `EXISTS` shows only its field, so a negated one shows like the original |
| Query.LogicalReprExample | alaric/logical/logical_and.py:21-22 | `AND` shows its children as a Python list |
| Store.FirstMatch | alaric/document.py:93-95 | `find_one` takes the least-index matching document, and finds none only when nothing matches |
| Store.Project | alaric/document.py:92-95 | a projection returns a sub-document with unchanged values, and drops a hidden `_id` |
| Store.Seed | alaric/document.py:349-351 | an upsert seeds a new document with the filter's fields |
| Store.SetResult | alaric/document.py:311-313 | `$set` keeps the number of documents, except that an upsert without a match adds one |
| Store.IncResult | alaric/document.py:413 | `$inc` keeps the number of documents, and its only error is the non-numeric write error |
| Store.Collection.FindOne | alaric/document.py:88-99 | a document is found iff one matches, and it is a matching document projected |
| Store.Collection.InsertOne | alaric/document.py:276 | `insert_one` appends the document and keeps the others |
| Store.Collection.SetOne | alaric/document.py:311-313 | `update_one` with `$set` leaves the collection as the `$set` specification says |
| Store.Collection.IncOne | alaric/document.py:413 | `update_one` with `$inc` applies the increment, or reports its error and changes nothing |
| Store.SetTouchesFirstMatch | alaric/document.py:311-313 | `$set` changes only the first match, overriding the set fields and keeping the others; without a match only an upsert appends |
| Store.SeedMatches | alaric/document.py:349-351 | the document an upsert creates matches its filter when the set fields agree with it |
| Store.FindAfterSet | alaric/document.py:311-313 | after a matching `$set` the same filter finds the same document |
| Store.FirstMatchAt | alaric/document.py:93 | the first match is the least matching index |
| Store.IncAdds | alaric/document.py:413 | `$inc` adds to an integer field or creates a missing one, and fails on any other field |
| Store.ShowOneField | alaric/encrypted_document.py:436-437 | a one-field `SHOW` projection returns at most that field |
| Store.EmptyProjectionKeepsAll | alaric/document.py:89-95 | no projection returns the whole document |
| EncryptedDocuments.GenerateAesKey | alaric/encrypted_document.py:98-115 | the generated key is 32 random bytes, a valid AES-256 key |
| EncryptedDocuments.PyAdd | alaric/encrypted_document.py:442 | `+=` of an int succeeds only on an int or bool, and raises CPython's `TypeError` for each other type: str concatenation, "'int' object is not iterable" for a list (its `extend`), bytes concatenation, and the unsupported-operand message naming the type |
| EncryptedDocuments.ShowProjectionIs | alaric/encrypted_document.py:436-437 | `Projection(Show(field))` builds `{field: 1, "_id": 0}` (or `{"_id": 1}`) |
| EncryptedDocuments.IncrementedRecord | alaric/encrypted_document.py:439-442 | a missing or empty record raises "Item to increment didn't exist with this filter.", a missing field raises `KeyError`, and otherwise the record with the field replaced by its `+=` sum, or that `+=`'s `TypeError` |
| EncryptedDocuments.EncryptedDocument.constructor | alaric/encrypted_document.py:31-93 | missing policy sets default to empty ones; the key is kept unchecked |
| EncryptedDocuments.EncryptedDocument.TransformField | alaric/encrypted_document.py:119-142 | one loop iteration adds the field's shadow and stored value, or fails with its error |
| EncryptedDocuments.EncryptedDocument.EncryptData | alaric/encrypted_document.py:117-143 | `_encrypt_data` succeeds iff every field transforms, returns the specified record, and otherwise the error of some field |
| EncryptedDocuments.EncryptedDocument.PopShadows | alaric/encrypted_document.py:148-150 | the caller's dict loses exactly the shadow columns |
| EncryptedDocuments.EncryptedDocument.DecryptData | alaric/encrypted_document.py:145-162 | `_decrypt_data` mutates the caller's dict, succeeds iff every remaining field decrypts, returns the specified record, and otherwise some field's error |
| EncryptedDocuments.EncryptedDocument.Find | alaric/encrypted_document.py:250-263 | `find` returns the raw record, or the decrypted one when converting a non-empty record |
| EncryptedDocuments.EncryptedDocument.Insert | alaric/encrypted_document.py:274-301 | the transformed record is appended, or the first field error is raised and nothing is written |
| EncryptedDocuments.EncryptedDocument.Update | alaric/encrypted_document.py:303-341 | the transformed record is `$set` on the first match, or nothing is written |
| EncryptedDocuments.EncryptedDocument.Upsert | alaric/encrypted_document.py:343-383 | the record is transformed twice, and the result goes to `update` with no ignored fields and without upsert |
| EncryptedDocuments.EncryptedDocument.Increment | alaric/encrypted_document.py:428-443 | an unencrypted field uses `$inc`; a dotted encrypted field is refused before any read; otherwise the raw record is read, and `IncrementedRecord` (its errors included) decides what is written with `update` |
| EncryptedDocuments.EncryptedDocument.ChangeFieldTo | alaric/encrypted_document.py:474-477 | the new value is encrypted only for Encrypted fields (not under encrypt-all), then `$set` |
| EncryptedDocuments.EncryptedDocument.BulkInsert | alaric/encrypted_document.py:512-513 | `bulk_insert` always raises `AttributeError` for the missing helper before writing |
| EncryptedDocuments.ShadowLookupMatches | tests/test_encrypted_document.py:47-55 | `HQF(EQ("<k>_hashed", v))` matches the record stored for an automatically hashed `k = v` |
| EncryptedDocuments.HashedLookupMatches | tests/test_encrypted_document.py:27-35 | `HQF(EQ(k, v))` matches the record stored for a hashed `k = v` |
| EncryptedDocuments.IncrementOnCiphertext | alaric/encrypted_document.py:436-442 | incrementing an encrypted field read back raw raises `TypeError` on the ciphertext |
| EncryptedDocuments.IncrementOnStoredList | alaric/encrypted_document.py:436-442 | an ignored Encrypted list field is read back as a list, and `+=` raises "'int' object is not iterable" |
| EncryptedDocuments.IncorrectKeyRaises | tests/test_encrypted_document.py:38-44 | with `data` encrypted and the key replaced, `id` passes through and `data` raises the invalid-key `ValueError`, so decrypting the record fails |
| EncryptedDocuments.UpsertNeverInserts | alaric/encrypted_document.py:381-383 | without a matching record the encrypted `upsert` writes nothing |
| Cursors.PlanOf | alaric/cursor.py:94-106 | the built chain carries the filter, and the projections, sort and limit only when they are truthy |
| Cursors.ResolveFilter | alaric/cursor.py:63-71 | `as_filter` wins, then `build`, else the dict as given |
| Cursors.LimitValue | alaric/cursor.py:176-178 | a limit is accepted iff it is a non-negative int (or a bool), and otherwise `ValueError("Positive numbers only")` |
| Cursors.NormalisedSort | alaric/cursor.py:218-222 | a tuple becomes a one-element list, a list or `None` is kept, and anything else raises `ValueError` |
| Cursors.Cursor.constructor | alaric/cursor.py:30-56 | a new cursor has filter `{}`, no projections, limit 0, no sort and no built cursor |
| Cursors.Cursor.EnsureModifiable | alaric/cursor.py:73-77 | only an unbuilt cursor passes; a built one raises the in-use `ValueError` |
| Cursors.Cursor.Copy | alaric/cursor.py:79-92 | the copy is fresh and unbuilt, with the same collection, filter, projections, limit and sort, and no converter |
| Cursors.Cursor.BuildCursor | alaric/cursor.py:94-106 | building records the specified chain and freezes the cursor; a built cursor refuses and keeps its chain |
| Cursors.Cursor.SetFilter | alaric/cursor.py:108-131 | the filter becomes the resolved one and the cursor is returned; a built cursor or a failing build changes nothing |
| Cursors.Cursor.SetProjections | alaric/cursor.py:133-151 | `None` clears, a dict is kept, a `PROJECTION` is built; a built cursor changes nothing |
| Cursors.Cursor.SetLimit | alaric/cursor.py:153-181 | a valid limit is stored and the cursor returned; otherwise it raises and the limit is unchanged |
| Cursors.Cursor.SetSort | alaric/cursor.py:183-225 | the normalised order is stored and the cursor returned; otherwise it raises and the order is unchanged |
| Cursors.FalsyPartsIgnored | alaric/cursor.py:96-104 | empty projections, an empty sort and limit 0 are not applied |
| Cursors.FilterResolution | alaric/meta/all.py:25-26 | `set_filter()`'s default `All()` resets the filter to `{}`, and `as_filter` beats `build` |
| Cursors.CursorSetterExamples | tests/test_cursors.py:11-77 | the filters, limits and sort orders the cursor tests set resolve to what they expect |
| Cache.KeyOver | alaric/cached_document.py:207-209 | the concatenated segments are empty only for no fields, and otherwise end in `|` |
| Cache.Segment | alaric/cached_document.py:209 | one `f"{field}:{value}|"` segment; a specification function, recovered from a key by `Cache.SegmentSplit` |
| Cache.LookupKey | alaric/cached_document.py:214-223 | the segments of the filter's keys in ascending order; a specification function whose properties are stated by `Cache.LookupKeyEnds` and `Cache.LookupKeyInjective` |
| Cache.PrimaryKey | alaric/cached_document.py:202 | the primary key is the `_id` segment of the record's id, so it starts with `_id:` |
| Cache.KeyOverSnoc | alaric/cached_document.py:219-221 | writing one more segment appends it to the key |
| Cache.FirstMissing | alaric/cached_document.py:209 | the first field the record lacks is found, with every earlier field present |
| Cache.GroupKey | alaric/cached_document.py:207-209 | a group's key is built iff the record has all its fields, and otherwise `KeyError` of a missing field |
| Cache.GroupWrites | alaric/cached_document.py:206-211 | the link writes never remove an entry; each written entry points at the target with the TTL; an error occurs iff a group is incomplete, and it is a `KeyError` |
| Cache.CacheUpdate | alaric/cached_document.py:198-211 | `_update_redis_cache` never removes an entry; every entry it writes has the TTL; no `_id` raises `AssertionError` with nothing written; it succeeds iff there is an `_id`, the JSON can be produced and every group is complete |
| Cache.ResolvedKey | alaric/cached_document.py:146-151 | an `_id:` key is used directly, and a key with no link is used unchanged |
| Cache.CachedDocument.constructor | alaric/cached_document.py:61-109 | each extra lookup group is stored sorted, in order, and no groups are stored when none are given |
| Cache.CachedDocument.BuildLookupKey | alaric/cached_document.py:213-223 | the key is the sorted-segment key of the filter, whatever the dict's order |
| Cache.CachedDocument.JoinSegments | alaric/cached_document.py:219-221 | the loop writes the segments of the given keys in order |
| Cache.CachedDocument.SortedKeys | alaric/cached_document.py:220 | `sorted(filter.keys())` is the sorted listing of the filter's keys |
| Cache.CachedDocument.BuildGroupKey | alaric/cached_document.py:207-209 | the inner loop builds the group's key or raises the first missing field's `KeyError` |
| Cache.CachedDocument.UpdateRedisCache | alaric/cached_document.py:198-211 | the `setex` loop leaves Redis and the error as specified |
| Cache.CachedDocument.Get | alaric/cached_document.py:111-167 | on a document whose lookup groups are sorted, `get` returns and caches as specified: a hit is loaded from its JSON, and a miss reads the collection and caches a found record |
| Cache.GetOutcome | alaric/cached_document.py:111-167 | what `get` returns and leaves in Redis; a specification function, stated by `Cache.ReadThroughPrimary` and `Cache.ReadThroughSecondary` and met by `Cache.CachedDocument.Get` |
| Cache.CachedDocument.Set | alaric/cached_document.py:169-196 | without `_id` only the store is written; otherwise the cache is refreshed first, and the upsert happens only if that succeeded |
| Cache.CachedDocument.Expire | alaric/cached_document.py:56-58 | an expiring entry is removed and nothing else changes |
| Cache.SortedFieldsComplete | alaric/cached_document.py:220-221 | every sorted key is a key of the filter |
| Cache.LookupKeyEnds | alaric/cached_document.py:214-223 | the key is empty only for the empty filter, and otherwise ends in `|` |
| Cache.SingleLookupKey | alaric/cached_document.py:219-221 | a one-field filter's key is that field's segment |
| Cache.PrimaryKeyIsLookupKey | alaric/cached_document.py:202 | an `_id` filter's key is the primary key a record is cached under, which starts with `_id:` |
| Cache.GroupKeyIsLookupKey | alaric/cached_document.py:104-109 | a sorted, duplicate-free group's key is the lookup key of the record cut down to the group |
| Cache.SegmentSplit | alaric/cached_document.py:221 | a clean segment is recovered from the front of a key |
| Cache.KeyOverInjective | alaric/cached_document.py:219-221 | clean segment lists with equal keys have equal fields and equal rendered values |
| Cache.LookupKeyInjective | alaric/cached_document.py:214-223 | filters without `:` or `|` in keys and `|` in values share a key only with the same keys and equally rendered values |
| Cache.KeyCollisions | alaric/cached_document.py:221 | `{"_id": 1}` and `{"_id": "1"}` share a key, and a `:` in a field name can make two filters collide |
| Cache.GroupWritesComplete | alaric/cached_document.py:206-211 | complete groups point exactly their keys at the target and keep every other entry |
| Cache.CacheUpdateEntries | alaric/cached_document.py:198-211 | a successful update writes the JSON under the primary key, points every group key at it with the one TTL, and keeps all else |
| Cache.ReadThroughPrimary | tests/test_cached_document.py:4-15 | a miss by `_id` returns the record and caches it, and the next `get` hits whatever the collection holds |
| Cache.ReadThroughSecondary | tests/test_cached_document.py:18-29 | with sorted lookup groups, after caching, `get` by a lookup group follows the link and returns the record |
| Cache.ValueGroupUpdate | tests/test_cached_document.py:32-43 | `set` with the lookup group `["value"]` writes the primary entry and the `value:` link |
| Cache.StaleSecondaryKey | tests/test_cached_document.py:46-66 | after `value` changes, both the old and the new `value:` keys point at the primary key, which holds the new record |

## Left out

- Float and datetime values: their tags, `str(float)`, `float()` and ISO-8601 formatting are not modelled, so those values are not in `Value`.
- Tuple and set values are not in `Value`; `IN` takes a list and a sort tuple is the `SortKey` datatype.
- Dict insertion order is not modelled: records are maps.
  The order a loop visits keys in is an arbitrary listing, or is left to a set-based loop.
- MongoDB query matching is modelled only for literal equality and `$eq`, which is what the cache and the hashed lookups need.
  The other operators build filters but are not evaluated against documents.
  MongoDB's generation of a missing `_id` is not modelled.
- Store.IncError: the text of the write error for `$inc` on a non-numeric field is the MongoDB server's, so the model's message is a stand-in; only which case fails and which field it names are modelled.
- Async/await and concurrency: every operation runs to completion, one at a time.
- Logging (`log.debug`, `log.warning`) has no effect in the model.
- The converter classes, `_attempt_convert` with a converter, `Cursor.execute`, `__aiter__`/`__anext__`, `_try_convert` and `Cursor.from_document` call user classes or Motor I/O; they are not modelled.
- `CachedDocument.get` and `set` take already-resolved dicts.
  `alaric/document.py` defines `_ensure_built` and `_ensure_insertable` only as name-mangled private methods.
  `get` is modelled with `try_convert=False`.
- Redis TTL timing: an entry records its TTL, and expiry is the explicit `Expire` method rather than a clock.
- Randomness: the GCM nonce and `secrets.token_bytes` are parameters.
  Nonce freshness is an assumption of the caller.
- Cryptography, UTF-8, JSON and `repr` of composite values are foreign functions with the laws listed above.
  The model's UTF-8 stand-in satisfies them (`Foreign.UntriplesTriples`).
- `NEGATE` mutates the wrapped comparison in place.
  The model returns the rewritten comparison instead, so aliasing of that object is not captured.
- `assert` statements run as written; running Python with `-O`, which removes them, is not modelled.
- `int()` accepting non-ASCII Unicode digits, and CPython's limit of 4300 digits for integer/string conversion, are not modelled.
- The text of orjson's `JSONEncodeError` is orjson's own choice, so it is a result of the foreign `jsonDumps`.
- Cursors.LimitValue: a `bool` limit is stored as 1 or 0, where Python stores the `bool` itself.
- FieldCodec.DecryptField: only an invalid key or an empty value is stated to fail with `ValueError`.
  Its round trip is stated by `FieldCodec.DecryptEncrypt`.
- Query.ComparisonRepr: only the class-name prefix and the closing `)` are stated, because the value is rendered by Python `str()`/`repr()` of arbitrary values.
- `EncryptedDocument.find_many`, `get_all`, `delete`, `count` and `unset` only hand their arguments to the store, so they are not modelled.
