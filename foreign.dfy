/** The library's foreign dependencies, taken as parameters: SHA-512
    (hashlib), UTF-8 encoding and decoding, AES in GCM mode (pycryptodome),
    JSON bytes (orjson) and Python's `repr` of values. Their
    laws are stated as a predicate that the lemmas take as a precondition. */
module Foreign {
  import opened Wrappers
  import opened Values
  import opened Hex
  import Decimal

  datatype Primitives = Primitives(
    /** `hashlib.sha512(m).digest()`. */
    sha512: seq<byte> -> seq<byte>,
    /** `s.encode("utf-8")`. */
    utf8Encode: string -> seq<byte>,
    /** `b.decode("utf-8")`, `None` where Python raises `UnicodeDecodeError`. */
    utf8Decode: seq<byte> -> Option<string>,
    /** `encrypt_and_digest` of a GCM cipher with this key and nonce:
        (ciphertext, tag). */
    seal: (seq<byte>, seq<byte>, seq<byte>) -> (seq<byte>, seq<byte>),
    /** `decrypt_and_verify(ciphertext, tag)` of a GCM cipher with this key and
        nonce, `None` where the tag does not verify. */
    open: (seq<byte>, seq<byte>, seq<byte>, seq<byte>) -> Option<seq<byte>>,
    /** `orjson.dumps(v)`, or the message of the `JSONEncodeError` orjson
        raises (such as "Type is not JSON serializable: bytes" or "Integer
        exceeds 64-bit range"; which one is orjson's own choice). */
    jsonDumps: Value -> Result<seq<byte>, string>,
    /** `orjson.loads(b)`, `None` where orjson raises `JSONDecodeError`. */
    jsonLoads: seq<byte> -> Option<Value>,
    /** `repr(v)`. */
    repr: Value -> string)

  /** AES accepts 128-, 192- and 256-bit keys. */
  predicate ValidKey(key: seq<byte>) {
    |key| == 16 || |key| == 24 || |key| == 32
  }

  /** What the library relies on its dependencies for. The GCM laws are
      those of an ideal cipher: what one key sealed, another key never opens
      (a forged tag's 2^-128 chance is not modelled). */
  ghost predicate Lawful(p: Primitives) {
    && (forall m :: |p.sha512(m)| == 64)
    && (forall s :: p.utf8Decode(p.utf8Encode(s)) == Some(s))
    && (forall key, nonce, m :: ValidKey(key) && |nonce| > 0 ==>
          |p.seal(key, nonce, m).1| == 16
          && p.open(key, nonce, p.seal(key, nonce, m).0, p.seal(key, nonce, m).1) == Some(m))
    && (forall k1, k2, nonce, m :: ValidKey(k1) && ValidKey(k2) && k1 != k2 && |nonce| > 0 ==>
          p.open(k2, nonce, p.seal(k1, nonce, m).0, p.seal(k1, nonce, m).1).None?)
    && (forall v, b :: p.jsonDumps(v) == Ok(b) ==> p.jsonLoads(b) == Some(v))
  }

  /** `str(v)`, as an f-string renders a value. */
  function PyStr(p: Primitives, v: Value): string {
    match v
    case VStr(s) => s
    case VInt(i) => Decimal.IntToString(i)
    case VBool(b) => if b then "True" else "False"
    case VNone => "None"
    case VObjectId(hex) => hex
    case _ => p.repr(v)
  }

  /** Three bytes per character: an injective stand-in for UTF-8. */
  function Triples(s: string): seq<byte> {
    if s == [] then []
    else
      var c := s[0] as int;
      [c / 65536, (c / 256) % 256, c % 256] + Triples(s[1..])
  }

  function Untriples(b: seq<byte>): Option<string>
    decreases |b|
  {
    if b == [] then Some([])
    else if |b| < 3 then None
    else
      var c: int := b[0] as int * 65536 + b[1] as int * 256 + b[2] as int;
      if (0 <= c < 0xD800 || 0xE000 <= c < 0x11_0000) then
        match Untriples(b[3..])
        case Some(rest) => Some([c as char] + rest)
        case None => None
      else None
  }

  lemma {:induction false} UntriplesTriples(s: string)
    ensures Untriples(Triples(s)) == Some(s)
  {
    if s != [] {
      var t := Triples(s);
      assert t[3..] == Triples(s[1..]);
      UntriplesTriples(s[1..]);
      assert s == [s[0]] + s[1..];
    }
  }

  /** A stand-in cipher that keeps the key's length and the key in front of
      the message, so that only that key opens it. */
  function KeyedSeal(key: seq<byte>, m: seq<byte>): seq<byte>
    requires ValidKey(key)
  {
    [|key|] + key + m
  }

  function KeyedOpen(key: seq<byte>, c: seq<byte>): Option<seq<byte>> {
    if 1 + |key| <= |c| && c[0] == |key| && c[1..1 + |key|] == key then Some(c[1 + |key|..]) else None
  }

  lemma KeyedOpenSeal(k1: seq<byte>, k2: seq<byte>, m: seq<byte>)
    requires ValidKey(k1) && ValidKey(k2)
    ensures KeyedOpen(k2, KeyedSeal(k1, m)) == if k1 == k2 then Some(m) else None
  {
    var c := KeyedSeal(k1, m);
    assert c[1..1 + |k1|] == k1 && c[1 + |k1|..] == m;
    if k1 != k2 && 1 + |k2| <= |c| && c[0] == |k2| {
      assert c[1..1 + |k2|] == k1;
    }
  }

  /** Primitives that meet every law. */
  function Ideal(): Primitives {
    var zeros: seq<byte> := seq(64, _ => 0);
    Primitives(
      m => zeros,
      s => Triples(s),
      b => Untriples(b),
      (key, nonce, m) => (if ValidKey(key) then KeyedSeal(key, m) else m, zeros[..16]),
      (key, nonce, c, tag) => KeyedOpen(key, c),
      v => Err("Type is not JSON serializable: " + TypeName(v)),
      b => None,
      v => "")
  }

  /** The laws can all hold at once, so assuming them excludes nothing. */
  lemma LawsSatisfiable()
    ensures exists p :: Lawful(p)
  {
    var p := Ideal();
    forall s ensures p.utf8Decode(p.utf8Encode(s)) == Some(s) {
      UntriplesTriples(s);
    }
    forall key, nonce, m | ValidKey(key) && |nonce| > 0
      ensures |p.seal(key, nonce, m).1| == 16 && p.open(key, nonce, p.seal(key, nonce, m).0, p.seal(key, nonce, m).1) == Some(m)
    {
      KeyedOpenSeal(key, key, m);
    }
    forall k1, k2, nonce, m | ValidKey(k1) && ValidKey(k2) && k1 != k2 && |nonce| > 0
      ensures p.open(k2, nonce, p.seal(k1, nonce, m).0, p.seal(k1, nonce, m).1).None?
    {
      KeyedOpenSeal(k1, k2, m);
    }
    assert Lawful(p);
  }
}
