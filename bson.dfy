/** BSON object ids and their 24-digit hexadecimal text form: `str(oid)`
    writes lower-case hex, `ObjectId(s)` reads either case and rejects
    anything that is not exactly 24 hex digits. */
module Bson {
  import opened Wrappers
  import opened Text

  newtype byte = b: int | 0 <= b < 256

  type IdBytes = bs: seq<byte> | |bs| == 12 witness [0, 0, 0, 0, 0, 0, 0, 0, 0, 0, 0, 0]

  datatype ObjectId = ObjectId(bytes: IdBytes)

  predicate IsHexChar(c: char)
  {
    '0' <= c <= '9' || 'a' <= c <= 'f' || 'A' <= c <= 'F'
  }

  function HexValue(c: char): (d: int)
    requires IsHexChar(c)
    ensures 0 <= d < 16
  {
    if '0' <= c <= '9' then c as int - '0' as int
    else if 'a' <= c <= 'f' then c as int - 'a' as int + 10
    else c as int - 'A' as int + 10
  }

  /** The lower-case hex digit of `d`. */
  function HexDigit(d: int): (c: char)
    requires 0 <= d < 16
    ensures IsHexChar(c) && HexValue(c) == d
    ensures LowerChar(c) == c
  {
    if d < 10 then ('0' as int + d) as char else ('a' as int + d - 10) as char
  }

  /** Every hex digit, read and written back, comes out lower-cased. */
  lemma HexDigitOfValue(c: char)
    requires IsHexChar(c)
    ensures HexDigit(HexValue(c)) == LowerChar(c)
  {
  }

  /** Two hex digits per byte, high nibble first. */
  function Hex(bs: seq<byte>): (r: string)
    ensures |r| == 2 * |bs|
    ensures forall i :: 0 <= i < |r| ==> IsHexChar(r[i]) && LowerChar(r[i]) == r[i]
  {
    seq(2 * |bs|, i requires 0 <= i < 2 * |bs| =>
      if i % 2 == 0 then HexDigit(bs[i / 2] as int / 16) else HexDigit(bs[i / 2] as int % 16))
  }

  function Unhex(s: string): (bs: seq<byte>)
    requires |s| % 2 == 0
    requires forall i :: 0 <= i < |s| ==> IsHexChar(s[i])
    ensures |bs| == |s| / 2
  {
    seq(|s| / 2, k requires 0 <= k < |s| / 2 => (16 * HexValue(s[2 * k]) + HexValue(s[2 * k + 1])) as byte)
  }

  /** `str(oid)`. */
  function IdString(id: ObjectId): (r: string)
    ensures |r| == 24
  {
    Hex(id.bytes)
  }

  /** `ObjectId(s)` for a text argument; `None` is the `InvalidId` error. */
  function ParseObjectId(s: string): (r: Option<ObjectId>)
    ensures r.Some? <==> |s| == 24 && forall i :: 0 <= i < |s| ==> IsHexChar(s[i])
  {
    if |s| == 24 && forall i :: 0 <= i < |s| ==> IsHexChar(s[i]) then Some(ObjectId(Unhex(s))) else None
  }

  /** Writing an id and reading it back gives the same id. */
  lemma ParseIdString(id: ObjectId)
    ensures ParseObjectId(IdString(id)) == Some(id)
  {
    var s := IdString(id);
    assert forall i :: 0 <= i < |s| ==> IsHexChar(s[i]);
    var bs := Unhex(s);
    forall k | 0 <= k < 12
      ensures bs[k] == id.bytes[k]
    {
      UnhexHexByte(id.bytes, k);
    }
    assert bs == id.bytes;
  }

  lemma UnhexHexByte(bs: seq<byte>, k: nat)
    requires k < |bs|
    ensures Unhex(Hex(bs))[k] == bs[k]
  {
    var s := Hex(bs);
    var b := bs[k] as int;
    assert s[2 * k] == HexDigit(b / 16);
    assert s[2 * k + 1] == HexDigit(b % 16);
    assert 16 * (b / 16) + b % 16 == b;
  }

  /** Reading an id and writing it back gives the text lower-cased, so two
      spellings that differ only in case name the same id. */
  lemma IdStringOfParse(s: string)
    requires ParseObjectId(s).Some?
    ensures IdString(ParseObjectId(s).value) == Lower(s)
  {
    var bs := Unhex(s);
    var r := Hex(bs);
    forall i | 0 <= i < 24
      ensures r[i] == LowerChar(s[i])
    {
      var k := i / 2;
      var hi := HexValue(s[2 * k]);
      var lo := HexValue(s[2 * k + 1]);
      assert bs[k] as int == 16 * hi + lo;
      assert (16 * hi + lo) / 16 == hi && (16 * hi + lo) % 16 == lo;
      HexDigitOfValue(s[i]);
    }
  }
}
