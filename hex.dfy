/** Bytes and their hexadecimal text: Python's `bytes.hex()` and
    `bytes.fromhex()`. */
module Hex {
  import opened Wrappers

  type byte = x: int | 0 <= x < 256

  predicate IsLowerHexDigit(c: char) {
    '0' <= c <= '9' || 'a' <= c <= 'f'
  }

  predicate IsHexDigit(c: char) {
    '0' <= c <= '9' || 'a' <= c <= 'f' || 'A' <= c <= 'F'
  }

  /** The whitespace `bytes.fromhex` skips: ASCII space, tab, newline,
      vertical tab, form feed and carriage return. */
  predicate IsAsciiSpace(c: char) {
    c == ' ' || ('\t' <= c <= '\r')
  }

  function Nibble(d: nat): (c: char)
    requires d < 16
    ensures IsLowerHexDigit(c)
  {
    if d < 10 then (48 + d) as char else (87 + d) as char
  }

  function NibbleValue(c: char): (d: nat)
    requires IsHexDigit(c)
    ensures d < 16
  {
    if c <= '9' then c as int - 48 else if c <= 'F' then c as int - 55 else c as int - 87
  }

  /** `b.hex()`: two lower-case digits per byte, high nibble first. */
  function ToHex(b: seq<byte>): (r: string)
    ensures |r| == 2 * |b|
    ensures forall k :: 0 <= k < |r| ==> IsLowerHexDigit(r[k])
  {
    if b == [] then [] else [Nibble(b[0] / 16), Nibble(b[0] % 16)] + ToHex(b[1..])
  }

  /** `bytes.fromhex(s)` on an all-ASCII string: pairs of hex digits, with
      whitespace allowed before each pair. `Err(k)` when Python reports a
      non-hexadecimal number at position `k`. */
  function PairsFrom(s: string): (r: Result<seq<byte>, nat>)
    ensures r.Ok? ==> 2 * |r.value| <= |s|
    ensures r.Err? ==> r.error <= |s|
  {
    if s == [] then Ok([])
    else if IsAsciiSpace(s[0]) then
      match PairsFrom(s[1..])
      case Ok(b) => Ok(b)
      case Err(k) => Err(k + 1)
    else if !IsHexDigit(s[0]) then Err(0)
    else if |s| == 1 || !IsHexDigit(s[1]) then Err(1)
    else
      match PairsFrom(s[2..])
      case Ok(b) => Ok([NibbleValue(s[0]) * 16 + NibbleValue(s[1])] + b)
      case Err(k) => Err(k + 2)
  }

  /** The position of the first non-ASCII character (|s| when none). */
  function FirstNonAscii(s: string): (k: nat)
    ensures k <= |s| && (k < |s| ==> s[k] as int >= 128)
    ensures forall j :: 0 <= j < k ==> s[j] as int < 128
  {
    if s == [] then 0 else if s[0] as int >= 128 then 0 else 1 + FirstNonAscii(s[1..])
  }

  /** `bytes.fromhex(s)`; a non-ASCII character is reported at its position
      before anything else is looked at. */
  function FromHex(s: string): (r: Result<seq<byte>, nat>)
    ensures r.Ok? ==> 2 * |r.value| <= |s|
    ensures r.Err? ==> r.error <= |s|
  {
    var k := FirstNonAscii(s);
    if k < |s| then Err(k) else PairsFrom(s)
  }

  /** `bytes.fromhex(b.hex()) == b`. */
  lemma {:induction false} FromHexToHex(b: seq<byte>)
    ensures FromHex(ToHex(b)) == Ok(b)
  {
    var s := ToHex(b);
    assert FirstNonAscii(s) == |s|;
    PairsToHex(b);
  }

  lemma {:induction false} PairsToHex(b: seq<byte>)
    ensures PairsFrom(ToHex(b)) == Ok(b)
  {
    if b != [] {
      var s := ToHex(b);
      assert s[2..] == ToHex(b[1..]);
      PairsToHex(b[1..]);
      assert b == [b[0]] + b[1..];
    }
  }

  lemma {:induction false} ToHexAppend(a: seq<byte>, b: seq<byte>)
    ensures ToHex(a + b) == ToHex(a) + ToHex(b)
  {
    if a != [] {
      assert (a + b)[1..] == a[1..] + b;
      assert (a + b)[0] == a[0];
      ToHexAppend(a[1..], b);
      calc {
        ToHex(a + b);
        [Nibble(a[0] / 16), Nibble(a[0] % 16)] + ToHex(a[1..] + b);
        [Nibble(a[0] / 16), Nibble(a[0] % 16)] + ToHex(a[1..]) + ToHex(b);
        ToHex(a) + ToHex(b);
      }
    } else {
      assert a + b == b;
    }
  }

  /** Different bytes never share a hex text. */
  lemma ToHexInjective(a: seq<byte>, b: seq<byte>)
    requires ToHex(a) == ToHex(b)
    ensures a == b
  {
    FromHexToHex(a);
    FromHexToHex(b);
  }

  /** Hex text with an odd number of digits and no whitespace never decodes. */
  lemma {:induction false} OddLengthRejected(s: string)
    requires |s| % 2 == 1
    requires forall k :: 0 <= k < |s| ==> IsHexDigit(s[k])
    ensures PairsFrom(s).Err?
  {
    if |s| > 1 {
      OddLengthRejected(s[2..]);
    }
  }
}
