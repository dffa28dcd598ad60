/**
 * The textual form of a MongoDB ObjectId, as used by app/utils.py.
 *
 * An ObjectId is 12 bytes. `ObjectId(s)` for a `str` accepts exactly the
 * strings of length 24 that decode as hexadecimal, and `str(oid)` writes the
 * 12 bytes back as 24 lower-case hex digits.
 */
module ObjectIds {
  import opened Wrappers

  type Byte = b: int | 0 <= b < 256

  /** The 12 bytes of an ObjectId. */
  type Oid = s: seq<Byte> | |s| == 12 witness [0, 0, 0, 0, 0, 0, 0, 0, 0, 0, 0, 0]

  predicate IsHexDigit(c: char) {
    ('0' <= c <= '9') || ('a' <= c <= 'f') || ('A' <= c <= 'F')
  }

  predicate AllHex(s: string) {
    forall i :: 0 <= i < |s| ==> IsHexDigit(s[i])
  }

  function HexValue(c: char): (n: nat)
    requires IsHexDigit(c)
    ensures n < 16
  {
    if '0' <= c <= '9' then c as int - '0' as int
    else if 'a' <= c <= 'f' then c as int - 'a' as int + 10
    else c as int - 'A' as int + 10
  }

  /** The lower-case digit `str(ObjectId)` writes for a nibble. */
  function HexChar(n: nat): (c: char)
    requires n < 16
    ensures IsHexDigit(c) && HexValue(c) == n
    ensures !('A' <= c <= 'F')
  {
    if n < 10 then (n + '0' as int) as char else (n - 10 + 'a' as int) as char
  }

  /** The canonical (lower-case) spelling of a hex digit. */
  function LowerHexDigit(c: char): (d: char)
    requires IsHexDigit(c)
    ensures IsHexDigit(d) && HexValue(d) == HexValue(c)
  {
    if 'A' <= c <= 'F' then (c as int - 'A' as int + 'a' as int) as char else c
  }

  function LowerHex(s: string): (r: string)
    requires AllHex(s)
    ensures |r| == |s|
    ensures forall i :: 0 <= i < |s| ==> r[i] == LowerHexDigit(s[i])
  {
    seq(|s|, i requires 0 <= i < |s| => LowerHexDigit(s[i]))
  }

  /** `bytes.fromhex` on a string of hex-digit pairs: None when it raises. */
  function FromHex(s: string): (r: Option<seq<Byte>>)
    ensures r.Some? <==> |s| % 2 == 0 && AllHex(s)
    ensures r.Some? ==> 2 * |r.value| == |s|
    decreases |s|
  {
    if |s| == 0 then Some([])
    else if |s| == 1 || !IsHexDigit(s[0]) || !IsHexDigit(s[1]) then None
    else
      match FromHex(s[2..])
      case None => None
      case Some(rest) => Some([16 * HexValue(s[0]) + HexValue(s[1])] + rest)
  }

  /** `str(oid)`: two lower-case hex digits per byte, most significant nibble first. */
  function ToHex(b: seq<Byte>): (s: string)
    ensures |s| == 2 * |b|
    ensures AllHex(s)
    ensures forall i :: 0 <= i < |s| ==> !('A' <= s[i] <= 'F')
  {
    if b == [] then [] else [HexChar(b[0] / 16), HexChar(b[0] % 16)] + ToHex(b[1..])
  }

  /** `ObjectId(s)` for a str: None exactly when it raises InvalidId. */
  function Parse(s: string): (r: Option<Oid>)
  {
    if |s| != 24 then None
    else
      match FromHex(s)
      case None => None
      case Some(b) => Some(b)
  }

  /** `str(oid)` for a stored id. */
  function OidString(id: Oid): (s: string)
    ensures |s| == 24
  {
    ToHex(id)
  }

  /**
   * `is_valid_object_id` (app/utils.py): true when `ObjectId(s)` returns,
   * false when it raises. It is total: no input makes it raise.
   */
  function IsValidObjectId(s: string): (ok: bool)
    ensures ok <==> |s| == 24 && AllHex(s)
  {
    Parse(s).Some?
  }

  lemma WrongLengthRejected(s: string)
    requires |s| != 24
    ensures !IsValidObjectId(s) && Parse(s) == None
  {
  }

  lemma NonHexRejected(s: string, i: int)
    requires |s| == 24 && 0 <= i < 24 && !IsHexDigit(s[i])
    ensures !IsValidObjectId(s) && Parse(s) == None
  {
  }

  lemma {:induction false} FromHexOfToHex(b: seq<Byte>)
    ensures FromHex(ToHex(b)) == Some(b)
  {
    if b != [] {
      var s := ToHex(b);
      assert s[2..] == ToHex(b[1..]);
      FromHexOfToHex(b[1..]);
      assert 16 * HexValue(s[0]) + HexValue(s[1]) == b[0];
      assert FromHex(s) == Some([b[0]] + b[1..]);
      assert [b[0]] + b[1..] == b;
    }
  }

  lemma LowerHexSplit(s: string)
    requires |s| >= 2 && AllHex(s)
    ensures LowerHex(s) == [LowerHexDigit(s[0]), LowerHexDigit(s[1])] + LowerHex(s[2..])
  {
  }

  lemma {:induction false} ToHexOfFromHex(s: string)
    requires FromHex(s).Some?
    ensures ToHex(FromHex(s).value) == LowerHex(s)
    decreases |s|
  {
    if |s| > 0 {
      var b := FromHex(s).value;
      var hi, lo := HexValue(s[0]), HexValue(s[1]);
      assert b == [16 * hi + lo] + FromHex(s[2..]).value;
      ToHexOfFromHex(s[2..]);
      assert b[0] / 16 == hi && b[0] % 16 == lo;
      assert HexChar(hi) == LowerHexDigit(s[0]);
      assert HexChar(lo) == LowerHexDigit(s[1]);
      assert b[1..] == FromHex(s[2..]).value;
      assert ToHex(b) == [HexChar(hi), HexChar(lo)] + ToHex(b[1..]);
      LowerHexSplit(s);
    }
  }

  /** The string form of a store-assigned id is accepted and names that same id. */
  lemma StringFormAccepted(id: Oid)
    ensures IsValidObjectId(OidString(id))
    ensures Parse(OidString(id)) == Some(id)
  {
    FromHexOfToHex(id);
  }

  /** Every accepted string names the id whose string form is its lower-case spelling. */
  lemma AcceptedIsStringForm(s: string)
    requires IsValidObjectId(s)
    ensures OidString(Parse(s).value) == LowerHex(s)
  {
    ToHexOfFromHex(s);
  }
}
