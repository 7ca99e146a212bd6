/** The field codec of `EncryptedDocument`: `_aes_encrypt_field` renders a
    value as a 9-character type tag followed by a body, seals it with AES-GCM
    and packs nonce, tag and ciphertext as lower-case hex;
    `_aes_decrypt_field` undoes each step. */
module FieldCodec {
  import opened Wrappers
  import opened Values
  import opened Hex
  import opened Foreign
  import opened PyText
  import Decimal

  /** The 16-byte nonce a fresh GCM cipher draws at random. */
  type Nonce = n: seq<byte> | |n| == 16 witness [0, 0, 0, 0, 0, 0, 0, 0, 0, 0, 0, 0, 0, 0, 0, 0]

  /** The type names `_aes_decrypt_field` dispatches on. */
  predicate IsTypeName(name: string) {
    name in {"str", "int", "float", "bool", "dict", "list", "datetime"}
  }

  /** The type name left-justified to eight characters, then "|". */
  function Tag(name: string): (t: string)
    requires |name| <= 8
    ensures |t| == 9 && t[8] == '|' && t[..|name|] == name
  {
    name + Spaces(8 - |name|) + "|"
  }

  /** `ValueError` as pycryptodome raises it for a key of the wrong length. */
  function KeyLengthError(key: seq<byte>): Error {
    ValueError("Incorrect AES key length (" + Decimal.IntToString(|key|) + " bytes)")
  }

  /** `orjson.dumps(v)`; `JSONEncodeError` is a `TypeError` and carries
      orjson's message. */
  function Dumps(p: Primitives, v: Value): (r: Result<seq<byte>, Error>)
    ensures r.Err? <==> p.jsonDumps(v).Err?
    ensures r.Err? ==> r.error == TypeError(p.jsonDumps(v).error)
  {
    match p.jsonDumps(v)
    case Ok(b) => Ok(b)
    case Err(msg) => Err(TypeError(msg))
  }

  /** The text `_aes_encrypt_field` seals for a value other than an ObjectId.
      `bool` is tested before `int`; a list is wrapped as `{"list": value}`
      before it is serialised. */
  function Plaintext(p: Primitives, v: Value): (r: Result<string, Error>)
    ensures r.Err? ==> (v.VList? || v.VDict? || (r.error.ValueError? && !v.VStr? && !v.VInt? && !v.VBool?))
    ensures v.VList? && r.Err? ==>
      p.jsonDumps(VDict(map["list" := v])).Err? && r.error == TypeError(p.jsonDumps(VDict(map["list" := v])).error)
    ensures v.VDict? && r.Err? ==> p.jsonDumps(v).Err? && r.error == TypeError(p.jsonDumps(v).error)
  {
    match v
    case VStr(s) => Ok(Tag("str") + s)
    case VBool(b) => Ok(Tag("bool") + (if b then "1" else "0"))
    case VInt(i) => Ok(Tag("int") + Decimal.IntToString(i))
    case VList(_) =>
      var b :- Dumps(p, VDict(map["list" := v]));
      Ok(Tag("list") + ToHex(b))
    case VDict(_) =>
      var b :- Dumps(p, v);
      Ok(Tag("dict") + ToHex(b))
    case _ => Err(ValueError(TypeName(v) + " is not yet supported for encryption"))
  }

  /** The bytes stored for a sealed field: nonce, then tag, then ciphertext. */
  function Envelope(nonce: seq<byte>, tag: seq<byte>, ciphertext: seq<byte>): seq<byte> {
    nonce + tag + ciphertext
  }

  /** `_aes_encrypt_field(v)` with the cipher's nonce made explicit. The key is
      checked when the cipher is created, before the value is looked at; an
      ObjectId comes back unchanged. */
  function EncryptField(p: Primitives, key: seq<byte>, nonce: Nonce, v: Value): (r: Result<Value, Error>)
    ensures r.Ok? <==> ValidKey(key) && (v.VObjectId? || Plaintext(p, v).Ok?)
    ensures r.Ok? ==> r.value.VStr? || r.value == v
  {
    if !ValidKey(key) then Err(KeyLengthError(key))
    else if v.VObjectId? then Ok(v)
    else
      match Plaintext(p, v)
      case Err(e) => Err(e)
      case Ok(text) =>
        var sealed := p.seal(key, nonce, p.utf8Encode(text));
        Ok(VStr(ToHex(Envelope(nonce, sealed.1, sealed.0))))
  }

  /** `text[:9].split("|")[0].strip()`: the type name, read from the first
      nine characters only. */
  function TypeOf(text: string): string {
    Strip(SplitFirst(text[..if |text| < 9 then |text| else 9], '|'))
  }

  /** `text[9:]`: the body, whatever characters it holds. */
  function Body(text: string): string {
    text[if |text| < 9 then |text| else 9..]
  }

  /** `bytes.fromhex(s)`, failing with Python's `ValueError`. */
  function FromHexChecked(s: string): (r: Result<seq<byte>, Error>)
    ensures r.Err? ==> r.error.ValueError?
  {
    match FromHex(s)
    case Ok(b) => Ok(b)
    case Err(k) => Err(ValueError("non-hexadecimal number found in fromhex() arg at position " + Decimal.IntToString(k)))
  }

  /** `orjson.loads(b)`; `JSONDecodeError` is a `ValueError`. */
  function Loads(p: Primitives, b: seq<byte>): (r: Result<Value, Error>)
    ensures r.Err? ==> r.error.ValueError?
  {
    match p.jsonLoads(b)
    case Some(v) => Ok(v)
    case None => Err(ValueError("JSONDecodeError"))
  }

  /** `extract_dict`: whatever JSON the body holds. */
  function ExtractDict(p: Primitives, content: string): Result<Value, Error> {
    var b :- FromHexChecked(content);
    Loads(p, b)
  }

  /** `extract_list`: the "list" entry of the JSON the body holds. */
  function ExtractList(p: Primitives, content: string): Result<Value, Error> {
    var b :- FromHexChecked(content);
    var inner :- Loads(p, b);
    match inner
    case VDict(d) => if "list" in d then Ok(d["list"]) else Err(KeyError("list"))
    case VList(_) => Err(TypeError("list indices must be integers or slices, not str"))
    case VStr(_) => Err(TypeError("string indices must be integers, not 'str'"))
    case _ => Err(TypeError("'" + TypeName(inner) + "' object is not subscriptable"))
  }

  /** `mappings[_type](content)`. An unknown type name raises `KeyError`; the
      float and datetime conversions are not part of this model. */
  function DecodeTagged(p: Primitives, text: string): (r: Result<Value, Error>)
    ensures !IsTypeName(TypeOf(text)) ==> r == Err(KeyError(TypeOf(text)))
    ensures TypeOf(text) == "str" ==> r == Ok(VStr(Body(text)))
    ensures TypeOf(text) == "bool" ==> r == Ok(VBool(Body(text) == "1"))
  {
    var name := TypeOf(text);
    var content := Body(text);
    if name == "str" then Ok(VStr(content))
    else if name == "int" then
      match Decimal.ParseInt(content)
      case Some(i) => Ok(VInt(i))
      case None => Err(ValueError("invalid literal for int() with base 10: '" + content + "'"))
    else if name == "bool" then Ok(VBool(content == "1"))
    else if name == "dict" then ExtractDict(p, content)
    else if name == "list" then ExtractList(p, content)
    else if name == "float" || name == "datetime" then Err(NotModelled(name))
    else Err(KeyError(name))
  }

  /** `_aes_decrypt_field(value)`: slice at 16 and 32, verify and decrypt,
      decode UTF-8, then dispatch on the tag. */
  function DecryptField(p: Primitives, key: seq<byte>, value: seq<byte>): (r: Result<Value, Error>)
    ensures !ValidKey(key) || |value| == 0 ==> r.Err? && r.error.ValueError?
  {
    var n := if |value| < 16 then |value| else 16;
    var t := if |value| < 32 then |value| else 32;
    var nonce, tag, ciphertext := value[..n], value[n..t], value[t..];
    if nonce == [] then Err(ValueError("Nonce cannot be empty"))
    else if !ValidKey(key) then Err(KeyLengthError(key))
    else
      match p.open(key, nonce, ciphertext, tag)
      case None => Err(ValueError("MAC check failed"))
      case Some(plain) =>
        match p.utf8Decode(plain)
        case None => Err(ValueError("'utf-8' codec can't decode bytes"))
        case Some(text) => DecodeTagged(p, text)
  }

  // ----- The tag -----

  /** Every rendered type name is read back from the first nine characters,
      and the body from index 9, whatever the body contains (a "|" included). */
  lemma TagRoundTrip(name: string, body: string)
    requires name in {"str", "int", "bool", "list", "dict"}
    ensures TypeOf(Tag(name) + body) == name
    ensures Body(Tag(name) + body) == body
  {
    assert name == "str" || name == "int" || name == "bool" || name == "list" || name == "dict";
    assert 0 < |name| <= 8 && '|' !in name && !IsSpace(name[0]) && !IsSpace(name[|name| - 1]);
    PaddedTag(name, body);
  }

  /** The tag of any short, unspaced name without "|" reads back. */
  lemma PaddedTag(name: string, body: string)
    requires 0 < |name| <= 8 && '|' !in name && !IsSpace(name[0]) && !IsSpace(name[|name| - 1])
    ensures TypeOf(Tag(name) + body) == name
    ensures Body(Tag(name) + body) == body
  {
    var padded := name + Spaces(8 - |name|);
    var text := Tag(name) + body;
    assert text[..9] == padded + ['|'] + [];
    assert '|' !in padded;
    SplitFirstAt(padded, '|', []);
    StripPadded(name, 8 - |name|);
  }

  // ----- The envelope -----

  /** The stored bytes hex-encode and decode back, and slicing them at 16 and
      32 recovers nonce, tag and ciphertext. */
  lemma EnvelopeSlices(nonce: Nonce, tag: seq<byte>, ciphertext: seq<byte>)
    requires |tag| == 16
    ensures var b := Envelope(nonce, tag, ciphertext);
      && FromHex(ToHex(b)) == Ok(b)
      && ToHex(b)[..32] == ToHex(nonce)
      && b[..16] == nonce && b[16..32] == tag && b[32..] == ciphertext
  {
    var b := Envelope(nonce, tag, ciphertext);
    FromHexToHex(b);
    ToHexAppend(nonce, tag + ciphertext);
    assert b == nonce + (tag + ciphertext);
  }

  /** A sealed value is the hex of nonce ++ tag ++ ciphertext: 16 bytes of
      nonce and 16 of tag, so slicing at 16 and 32 recovers the three parts,
      and the parts open to the encoded plaintext. */
  lemma EnvelopeLayout(p: Primitives, key: seq<byte>, nonce: Nonce, v: Value)
    requires Lawful(p) && ValidKey(key) && !v.VObjectId? && Plaintext(p, v).Ok?
    ensures EncryptField(p, key, nonce, v).Ok? && EncryptField(p, key, nonce, v).value.VStr?
    ensures var s := EncryptField(p, key, nonce, v).value.s;
      && |s| >= 64
      && (forall k :: 0 <= k < |s| ==> IsLowerHexDigit(s[k]))
      && s[..32] == ToHex(nonce)
      && FromHex(s).Ok?
      && var b := FromHex(s).value;
         |b| >= 32 && b[..16] == nonce
         && p.open(key, b[..16], b[32..], b[16..32]) == Some(p.utf8Encode(Plaintext(p, v).value))
  {
    var m := p.utf8Encode(Plaintext(p, v).value);
    var sealed := p.seal(key, nonce, m);
    assert |sealed.1| == 16 && p.open(key, nonce, sealed.0, sealed.1) == Some(m);
    EnvelopeSlices(nonce, sealed.1, sealed.0);
  }

  /** Two fresh nonces give two different stored texts for the same value. */
  lemma NoncesDistinguish(p: Primitives, key: seq<byte>, n1: Nonce, n2: Nonce, v: Value)
    requires Lawful(p) && ValidKey(key) && !v.VObjectId? && Plaintext(p, v).Ok?
    requires n1 != n2
    ensures EncryptField(p, key, n1, v) != EncryptField(p, key, n2, v)
  {
    EnvelopeLayout(p, key, n1, v);
    EnvelopeLayout(p, key, n2, v);
    if EncryptField(p, key, n1, v) == EncryptField(p, key, n2, v) {
      ToHexInjective(n1, n2);
    }
  }

  /** An ObjectId is handed back, not encrypted. */
  lemma ObjectIdUnchanged(p: Primitives, key: seq<byte>, nonce: Nonce, id: string)
    requires ValidKey(key)
    ensures EncryptField(p, key, nonce, VObjectId(id)) == Ok(VObjectId(id))
  {
  }

  /** `None` and `bytes` raise `ValueError` naming their type. */
  lemma UnsupportedRejected(p: Primitives, key: seq<byte>, nonce: Nonce, v: Value)
    requires ValidKey(key) && (v.VNone? || v.VBytes?)
    ensures EncryptField(p, key, nonce, v) == Err(ValueError(TypeName(v) + " is not yet supported for encryption"))
  {
  }

  // ----- The round trip -----

  lemma DecodeStr(p: Primitives, s: string)
    ensures DecodeTagged(p, Tag("str") + s) == Ok(VStr(s))
  {
    TagRoundTrip("str", s);
  }

  lemma DecodeBool(p: Primitives, b: bool)
    ensures DecodeTagged(p, Tag("bool") + (if b then "1" else "0")) == Ok(VBool(b))
  {
    TagRoundTrip("bool", if b then "1" else "0");
  }

  lemma DecodeInt(p: Primitives, i: int)
    ensures DecodeTagged(p, Tag("int") + Decimal.IntToString(i)) == Ok(VInt(i))
  {
    TagRoundTrip("int", Decimal.IntToString(i));
    Decimal.ParseIntToString(i);
  }

  lemma DecodeList(p: Primitives, v: Value, b: seq<byte>)
    requires Lawful(p) && p.jsonDumps(VDict(map["list" := v])) == Ok(b)
    ensures DecodeTagged(p, Tag("list") + ToHex(b)) == Ok(v)
  {
    TagRoundTrip("list", ToHex(b));
    FromHexToHex(b);
    assert p.jsonLoads(b) == Some(VDict(map["list" := v]));
  }

  lemma DecodeDict(p: Primitives, v: Value, b: seq<byte>)
    requires Lawful(p) && p.jsonDumps(v) == Ok(b)
    ensures DecodeTagged(p, Tag("dict") + ToHex(b)) == Ok(v)
  {
    TagRoundTrip("dict", ToHex(b));
    FromHexToHex(b);
    assert p.jsonLoads(b) == Some(v);
  }

  /** Every rendered value decodes back to itself. */
  lemma DecodeRendered(p: Primitives, v: Value)
    requires Lawful(p) && Plaintext(p, v).Ok?
    ensures DecodeTagged(p, Plaintext(p, v).value) == Ok(v)
  {
    match v
    case VStr(s) => DecodeStr(p, s);
    case VBool(b) => DecodeBool(p, b);
    case VInt(i) => DecodeInt(p, i);
    case VList(_) => DecodeList(p, v, p.jsonDumps(VDict(map["list" := v])).value);
    case VDict(_) => DecodeDict(p, v, p.jsonDumps(v).value);
  }

  /** Decrypting what was encrypted under the same key gives the value back:
      str, int (negative included), bool (from the bodies "1" and "0"), and a
      list or dict whose JSON serialisation succeeds. */
  lemma DecryptEncrypt(p: Primitives, key: seq<byte>, nonce: Nonce, v: Value)
    requires Lawful(p) && ValidKey(key) && !v.VObjectId?
    requires EncryptField(p, key, nonce, v).Ok?
    ensures var s := EncryptField(p, key, nonce, v).value.s;
      FromHex(s).Ok? && DecryptField(p, key, FromHex(s).value) == Ok(v)
  {
    EnvelopeLayout(p, key, nonce, v);
    DecodeRendered(p, v);
  }

  /** What one key encrypted, another valid key cannot decrypt: the stored
      text still parses as hex, and the GCM check fails. */
  lemma DecryptOtherKey(p: Primitives, key: seq<byte>, other: seq<byte>, nonce: Nonce, v: Value)
    requires Lawful(p) && ValidKey(key) && ValidKey(other) && key != other && !v.VObjectId?
    requires EncryptField(p, key, nonce, v).Ok?
    ensures var s := EncryptField(p, key, nonce, v).value.s;
      FromHex(s).Ok? && DecryptField(p, other, FromHex(s).value) == Err(ValueError("MAC check failed"))
  {
    var m := p.utf8Encode(Plaintext(p, v).value);
    var sealed := p.seal(key, nonce, m);
    assert |sealed.1| == 16;
    assert p.open(other, nonce, sealed.0, sealed.1).None?;
    EnvelopeSlices(nonce, sealed.1, sealed.0);
  }
}
