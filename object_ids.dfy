/** bson ObjectIds as the services use them: `str(fid)` renders the 12-byte id as
    24 lower-case hex digits, and `ObjectId(s)` parses such a string back,
    accepting either case and raising InvalidId on anything else. */
module ObjectIds {
  import opened PyRuntime

  newtype byte = x: int | 0 <= x < 256

  type ObjectId = s: seq<byte> | |s| == 12 witness [0, 0, 0, 0, 0, 0, 0, 0, 0, 0, 0, 0]

  /** The lower-case hex digit for `k`. */
  function DigitChar(k: int): (c: char)
    requires 0 <= k < 16
  {
    if k < 10 then ('0' as int + k) as char else ('a' as int + k - 10) as char
  }

  /** The value of a hex digit of either case; None for any other character. */
  function HexValue(c: char): (r: Option<int>)
    ensures r.Some? ==> 0 <= r.value < 16
    ensures r.Some? <==> ('0' <= c <= '9' || 'a' <= c <= 'f' || 'A' <= c <= 'F')
  {
    if '0' <= c <= '9' then Some(c as int - '0' as int)
    else if 'a' <= c <= 'f' then Some(c as int - 'a' as int + 10)
    else if 'A' <= c <= 'F' then Some(c as int - 'A' as int + 10)
    else None
  }

  predicate IsHexDigit(c: char) {
    HexValue(c).Some?
  }

  lemma HexValueOfDigit(k: int)
    requires 0 <= k < 16
    ensures HexValue(DigitChar(k)) == Some(k)
  {
  }

  /** Two lower-case hex digits per byte, high nibble first. */
  function HexOfBytes(bs: seq<byte>): (r: string)
    ensures |r| == 2 * |bs|
    ensures forall i | 0 <= i < |r| :: IsHexDigit(r[i])
  {
    if bs == [] then []
    else [DigitChar(bs[0] as int / 16), DigitChar(bs[0] as int % 16)] + HexOfBytes(bs[1..])
  }

  /** `bytes.fromhex` on a string of even length: None as soon as a
      character is not a hex digit. */
  function BytesOfHex(s: string): (r: Option<seq<byte>>)
    requires |s| % 2 == 0
    ensures r.Some? <==> forall i | 0 <= i < |s| :: IsHexDigit(s[i])
    ensures r.Some? ==> 2 * |r.value| == |s|
    decreases |s|
  {
    if s == [] then Some([])
    else
      var rest := BytesOfHex(s[2..]);
      assert forall i | 2 <= i < |s| :: s[i] == s[2..][i - 2];
      match (HexValue(s[0]), HexValue(s[1]), rest)
      case (Some(hi), Some(lo), Some(tail)) => Some([(hi * 16 + lo) as byte] + tail)
      case _ => None
  }

  /** `str(fid)`: the 24-character rendering of an ObjectId. */
  function Str(id: ObjectId): (r: string)
    ensures |r| == 24
    ensures forall i | 0 <= i < |r| :: IsHexDigit(r[i])
  {
    HexOfBytes(id)
  }

  /** `ObjectId(s)`: succeeds exactly on strings of 24 hex digits. */
  function Parse(s: string): (r: Option<ObjectId>)
    ensures r.Some? <==> |s| == 24 && forall i | 0 <= i < |s| :: IsHexDigit(s[i])
  {
    if |s| != 24 then None
    else
      match BytesOfHex(s)
      case Some(bs) => Some(bs)
      case None => None
  }

  lemma {:induction false} BytesOfHexOfBytes(bs: seq<byte>)
    ensures BytesOfHex(HexOfBytes(bs)) == Some(bs)
  {
    if bs != [] {
      var hi, lo := bs[0] as int / 16, bs[0] as int % 16;
      var h := HexOfBytes(bs);
      assert h[2..] == HexOfBytes(bs[1..]);
      BytesOfHexOfBytes(bs[1..]);
      HexValueOfDigit(hi);
      HexValueOfDigit(lo);
      assert (hi * 16 + lo) as byte == bs[0];
      assert [bs[0]] + bs[1..] == bs;
    }
  }

  /** Parsing what `str` printed gives back the same id: the gateway's
      `str(fid)` in a job is found again by the converter's `ObjectId(...)`. */
  lemma ParseStr(id: ObjectId)
    ensures Parse(Str(id)) == Some(id)
  {
    BytesOfHexOfBytes(id);
  }

  /** Distinct ids never share a rendering, so a job names exactly one blob. */
  lemma StrInjective(a: ObjectId, b: ObjectId)
    ensures Str(a) == Str(b) ==> a == b
  {
    ParseStr(a);
    ParseStr(b);
  }
}
