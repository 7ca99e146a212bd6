/** The Python values a record holds, and the exceptions the library raises. */
module Values {
  import opened Hex

  /** A BSON-storable Python value: `str`, `int`, `bool`, `None`, `bytes`,
      `list`, `dict` with string keys, and `bson.ObjectId` (kept opaque as
      its 24-digit hex text). */
  datatype Value =
    | VStr(s: string)
    | VInt(i: int)
    | VBool(b: bool)
    | VNone
    | VBytes(bytes: seq<byte>)
    | VList(items: seq<Value>)
    | VDict(entries: map<string, Value>)
    | VObjectId(hex: string)

  /** A record, a filter or a projection: a `dict` keyed by field name. */
  type Dict = map<string, Value>

  /** A raised Python exception: its class and its message (for `KeyError`,
      the missing key). */
  datatype Error =
    | ValueError(msg: string)
    | TypeError(msg: string)
    | KeyError(key: string)
    | AttributeError(msg: string)
    | RuntimeError(msg: string)
    | AssertionError
    | WriteError(msg: string)
    | NotModelled(what: string)

  /** `value.__class__.__name__`. */
  function TypeName(v: Value): string {
    match v
    case VStr(_) => "str"
    case VInt(_) => "int"
    case VBool(_) => "bool"
    case VNone => "NoneType"
    case VBytes(_) => "bytes"
    case VList(_) => "list"
    case VDict(_) => "dict"
    case VObjectId(_) => "ObjectId"
  }

  /** A `dict` object that callers share and that can be changed in place. */
  class DictRef {
    var items: Dict

    constructor (d: Dict)
      ensures items == d
    {
      items := d;
    }
  }
}
