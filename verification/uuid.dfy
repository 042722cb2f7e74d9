/** java.util.UUID as far as the correlation filter uses it: the text of a random UUID. */
module Uuid {
  import opened JavaText

  /** The bit pattern of a 64-bit Java long, read as an unsigned number. */
  type Long64 = x: nat | x < 0x1_0000_0000_0000_0000

  /** A UUID is two longs; for UUID.randomUUID they come from a secure random source. */
  datatype Uuid = Uuid(mostSigBits: Long64, leastSigBits: Long64)

  const HEX_DIGITS: string := "0123456789abcdef"

  /** The lowest `width` hexadecimal digits of x, most significant first, in lower case. */
  function Hex(x: nat, width: nat): (s: string)
    ensures |s| == width
    ensures forall i :: 0 <= i < |s| ==> s[i] in HEX_DIGITS
    decreases width
  {
    if width == 0 then "" else Hex(x / 16, width - 1) + [HEX_DIGITS[x % 16]]
  }

  /** Five hexadecimal groups joined by hyphens have the canonical UUID shape. */
  lemma {:induction false} GroupsShape(a: string, b: string, c: string, d: string, e: string)
    requires |a| == 8 && |b| == 4 && |c| == 4 && |d| == 4 && |e| == 12
    requires forall i :: 0 <= i < |a| ==> a[i] in HEX_DIGITS
    requires forall i :: 0 <= i < |b| ==> b[i] in HEX_DIGITS
    requires forall i :: 0 <= i < |c| ==> c[i] in HEX_DIGITS
    requires forall i :: 0 <= i < |d| ==> d[i] in HEX_DIGITS
    requires forall i :: 0 <= i < |e| ==> e[i] in HEX_DIGITS
    ensures var s := a + "-" + b + "-" + c + "-" + d + "-" + e;
      && |s| == 36
      && s[8] == '-' && s[13] == '-' && s[18] == '-' && s[23] == '-'
      && forall i :: 0 <= i < 36 && i != 8 && i != 13 && i != 18 && i != 23 ==> s[i] in HEX_DIGITS
  {
    var s := a + "-" + b + "-" + c + "-" + d + "-" + e;
    forall i | 0 <= i < 36 && i != 8 && i != 13 && i != 18 && i != 23
      ensures s[i] in HEX_DIGITS
    {
      if i < 8 { assert s[i] == a[i]; }
      else if i < 13 { assert s[i] == b[i - 9]; }
      else if i < 18 { assert s[i] == c[i - 14]; }
      else if i < 23 { assert s[i] == d[i - 19]; }
      else { assert s[i] == e[i - 24]; }
    }
  }

  /**
   * UUID.toString: the canonical 8-4-4-4-12 form. Each group is the low digits
   * of a right shift of one of the two longs, as java.util.UUID writes them.
   */
  function UuidToString(u: Uuid): (s: string)
    ensures |s| == 36
    ensures s[8] == '-' && s[13] == '-' && s[18] == '-' && s[23] == '-'
    ensures forall i :: 0 <= i < 36 && i != 8 && i != 13 && i != 18 && i != 23 ==> s[i] in HEX_DIGITS
    ensures !IsBlank(s)
  {
    var a := Hex(u.mostSigBits / 0x1_0000_0000, 8);
    var b := Hex(u.mostSigBits / 0x1_0000, 4);
    var c := Hex(u.mostSigBits, 4);
    var d := Hex(u.leastSigBits / 0x1_0000_0000_0000, 4);
    var e := Hex(u.leastSigBits, 12);
    GroupsShape(a, b, c, d, e);
    var s := a + "-" + b + "-" + c + "-" + d + "-" + e;
    assert !IsWhitespace(s[8]);
    s
  }
}
