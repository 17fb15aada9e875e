/** BSON ObjectIds: 12-byte identifiers the store assigns, and their
    canonical 24-digit hexadecimal string form. */
module ObjectIds {
  import opened Wrappers

  /** Number of hexadecimal digits in the string form of an ObjectId. */
  const OID_HEX_DIGITS: nat := 24

  function Pow16(k: nat): (r: nat)
    ensures r > 0
  {
    if k == 0 then 1 else 16 * Pow16(k - 1)
  }

  /** An ObjectId is a 96-bit number. */
  type Oid = n: nat | n < Pow16(OID_HEX_DIGITS) witness 0

  /** The lower-case hexadecimal digit of a value below 16. */
  function HexDigit(d: nat): (c: char)
    requires d < 16
  {
    if d < 10 then ('0' as int + d) as char else ('a' as int + d - 10) as char
  }

  predicate IsLowerHexDigit(c: char) {
    '0' <= c <= '9' || 'a' <= c <= 'f'
  }

  /** The value of a hexadecimal digit in either case, as `bytes.fromhex` reads it. */
  function HexValue(c: char): (r: Option<nat>)
    ensures r.Some? <==> IsLowerHexDigit(c) || 'A' <= c <= 'F'
    ensures r.Some? ==> r.value < 16
  {
    if '0' <= c <= '9' then Some(c as int - '0' as int)
    else if 'a' <= c <= 'f' then Some(c as int - 'a' as int + 10)
    else if 'A' <= c <= 'F' then Some(c as int - 'A' as int + 10)
    else None
  }

  /** `width` big-endian hexadecimal digits of `n` (of `n` modulo 16^width). */
  function ToHex(n: nat, width: nat): (s: string)
    ensures |s| == width
    ensures forall i :: 0 <= i < |s| ==> IsLowerHexDigit(s[i])
  {
    if width == 0 then "" else ToHex(n / 16, width - 1) + [HexDigit(n % 16)]
  }

  /** The number a string of hexadecimal digits denotes, big-endian. */
  function FromHex(s: string): (r: Option<nat>)
    ensures r.Some? <==> forall i :: 0 <= i < |s| ==> HexValue(s[i]).Some?
    ensures r.Some? ==> r.value < Pow16(|s|)
  {
    if s == [] then Some(0)
    else
      match (FromHex(s[..|s| - 1]), HexValue(s[|s| - 1]))
      case (Some(hi), Some(lo)) => Some(hi * 16 + lo)
      case _ => None
  }

  /** `str(ObjectId)`: 24 lower-case hexadecimal digits. */
  function OidString(o: Oid): (s: string)
    ensures |s| == OID_HEX_DIGITS
    ensures forall i :: 0 <= i < |s| ==> IsLowerHexDigit(s[i])
  {
    ToHex(o, OID_HEX_DIGITS)
  }

  /** `ObjectId(s)` for a string `s`: exactly 24 hexadecimal digits of
      either case, or `None` where bson raises `InvalidId`. */
  function ParseOid(s: string): (r: Option<Oid>)
    ensures r.Some? <==> |s| == OID_HEX_DIGITS && forall i :: 0 <= i < |s| ==> HexValue(s[i]).Some?
  {
    if |s| != OID_HEX_DIGITS then None
    else
      match FromHex(s)
      case Some(v) => Some(v)
      case None => None
  }

  lemma HexValueOfDigit(d: nat)
    requires d < 16
    ensures HexValue(HexDigit(d)) == Some(d)
  {
  }

  lemma {:induction false} FromHexToHex(n: nat, width: nat)
    requires n < Pow16(width)
    ensures FromHex(ToHex(n, width)) == Some(n)
  {
    if width > 0 {
      var s := ToHex(n, width);
      assert s[..|s| - 1] == ToHex(n / 16, width - 1);
      FromHexToHex(n / 16, width - 1);
      HexValueOfDigit(n % 16);
    }
  }

  lemma {:induction false} ToHexFromHex(s: string, v: nat)
    requires forall i :: 0 <= i < |s| ==> IsLowerHexDigit(s[i])
    requires FromHex(s) == Some(v)
    ensures ToHex(v, |s|) == s
  {
    if s != [] {
      var hi := FromHex(s[..|s| - 1]).value;
      var lo := HexValue(s[|s| - 1]).value;
      assert v == hi * 16 + lo;
      assert v / 16 == hi && v % 16 == lo;
      ToHexFromHex(s[..|s| - 1], hi);
      assert HexDigit(lo) == s[|s| - 1];
      assert s == s[..|s| - 1] + [s[|s| - 1]];
    }
  }

  /** The string form is lossless: parsing it gives back the same ObjectId. */
  lemma ParseOidString(o: Oid)
    ensures ParseOid(OidString(o)) == Some(o)
  {
    FromHexToHex(o, OID_HEX_DIGITS);
  }

  /** Conversely, the only string of lower-case digits that parses to an
      ObjectId is that ObjectId's string form. */
  lemma OidStringOfParse(s: string, o: Oid)
    requires forall i :: 0 <= i < |s| ==> IsLowerHexDigit(s[i])
    requires ParseOid(s) == Some(o)
    ensures OidString(o) == s
  {
    ToHexFromHex(s, o);
  }

  /** Two ObjectIds with the same string form are the same. */
  lemma OidStringInjective(o1: Oid, o2: Oid)
    requires OidString(o1) == OidString(o2)
    ensures o1 == o2
  {
    ParseOidString(o1);
    ParseOidString(o2);
  }
}
