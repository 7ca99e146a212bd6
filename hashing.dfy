/** `alaric.util.hash_field`: the SHA-512 digest used for hashed and
    automatically hashed fields and for hashed queries. */
module Hashing {
  import opened Wrappers
  import opened Values
  import opened Hex
  import opened Foreign
  import Decimal

  /** The text that is digested: a `str` as it is, an `int` or `bool` through
      `str()`; `None` for a value that has no `.encode`. */
  function HashInput(v: Value): Option<string> {
    match v
    case VStr(s) => Some(s)
    case VInt(i) => Some(Decimal.IntToString(i))
    case VBool(b) => Some(if b then "True" else "False")
    case _ => None
  }

  /** `hashlib.sha512(text.encode("utf-8")).hexdigest()`. */
  function Digest(p: Primitives, text: string): (r: string)
    ensures Lawful(p) ==> |r| == 128
    ensures forall k :: 0 <= k < |r| ==> IsLowerHexDigit(r[k])
  {
    ToHex(p.sha512(p.utf8Encode(text)))
  }

  /** The `AttributeError` Python raises when `hash_field` calls `encode` on
      a value of the named type. */
  function NoEncode(typeName: string): Error {
    AttributeError("'" + typeName + "' object has no attribute 'encode'")
  }

  /** `hash_field(field, value)`. A value without `.encode` raises
      `AttributeError`; the `ValueError` branch is only reached by a `TypeError`
      from encoding, which no `Value` produces. */
  function HashField(p: Primitives, field: string, v: Value): (r: Result<string, Error>)
    ensures r.Ok? <==> (v.VStr? || v.VInt? || v.VBool?)
    ensures r.Ok? ==> r.value == Digest(p, HashInput(v).value)
    ensures r.Ok? && Lawful(p) ==> |r.value| == 128
    ensures r.Err? ==> r.error == NoEncode(TypeName(v))
  {
    match HashInput(v)
    case Some(text) => Ok(Digest(p, text))
    case None => Err(NoEncode(TypeName(v)))
  }

  /** An `int` hashes like its decimal text: `hash_field(f, 1) == hash_field(g, "1")`. */
  lemma HashIntAsText(p: Primitives, f: string, g: string, i: int)
    ensures HashField(p, f, VInt(i)) == HashField(p, g, VStr(Decimal.IntToString(i)))
  {
  }

  lemma HashOneAsText(p: Primitives, f: string, g: string)
    ensures HashField(p, f, VInt(1)) == HashField(p, g, VStr("1"))
  {
    assert Decimal.IntToString(1) == "1";
  }

  /** A `bool` hashes like "True" or "False", not like 1 or 0. */
  lemma HashBoolAsText(p: Primitives, f: string, g: string, b: bool)
    ensures HashField(p, f, VBool(b)) == HashField(p, g, VStr(if b then "True" else "False"))
  {
  }

  /** The field name never changes a digest. */
  lemma HashIgnoresField(p: Primitives, f: string, g: string, v: Value)
    ensures HashField(p, f, v).Ok? ==> HashField(p, f, v) == HashField(p, g, v)
  {
  }
}
