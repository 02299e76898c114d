/** UUID-shaped identifiers: minting them, and the server's two ways of recognising them. */
module Uuid {
  import opened Text

  type Byte = bv8

  // ----- the two recognisers -----

  predicate IsHexOrDash(c: char) {
    IsHexDigit(c) || c == '-'
  }

  /** The registration API: five groups of 8-4-4-4-12 between dashes, hex everywhere else. */
  predicate IsUuidBySplit(s: string) {
    var parts := Split(s, '-');
    |parts| == 5
    && |parts[0]| == 8 && |parts[1]| == 4 && |parts[2]| == 4 && |parts[3]| == 4 && |parts[4]| == 12
    && All(s, IsHexOrDash)
  }

  predicate IsDashPosition(i: int) {
    i == 8 || i == 13 || i == 18 || i == 23
  }

  /** The discovery API: 36 bytes, dashes at four fixed positions, hex at the others. */
  predicate IsUuidByPosition(s: string) {
    |s| == 36 && forall i :: 0 <= i < 36 ==> if IsDashPosition(i) then s[i] == '-' else IsHexDigit(s[i])
  }

  lemma JoinOfFive(p: seq<string>)
    requires |p| == 5
    ensures Join(p, '-') == p[0] + ['-'] + (p[1] + ['-'] + (p[2] + ['-'] + (p[3] + ['-'] + p[4])))
  {
    assert p[1..][1..] == p[2..] && p[2..][1..] == p[3..] && p[3..][1..] == p[4..];
    assert Join(p[4..], '-') == p[4];
    assert Join(p[3..], '-') == p[3] + ['-'] + p[4];
    assert Join(p[2..], '-') == p[2] + ['-'] + (p[3] + ['-'] + p[4]);
  }

  lemma SplitImpliesPosition(s: string)
    requires IsUuidBySplit(s)
    ensures IsUuidByPosition(s)
  {
    var p := Split(s, '-');
    SplitThenJoin(s, '-');
    JoinOfFive(p);
    hide Split;
    var t3 := p[3] + ['-'] + p[4];
    var t2 := p[2] + ['-'] + t3;
    var t1 := p[1] + ['-'] + t2;
    assert s == p[0] + ['-'] + t1;
    forall i | 0 <= i < 36 ensures if IsDashPosition(i) then s[i] == '-' else IsHexDigit(s[i]) {
      if i < 9 {
        assert i < 8 ==> s[i] == p[0][i] && p[0][i] in p[0];
      } else if i < 14 {
        assert s[i] == t1[i - 9];
        assert i < 13 ==> s[i] == p[1][i - 9] && p[1][i - 9] in p[1];
      } else if i < 19 {
        assert s[i] == t2[i - 14];
        assert i < 18 ==> s[i] == p[2][i - 14] && p[2][i - 14] in p[2];
      } else {
        assert s[i] == t3[i - 19];
        assert i < 23 ==> s[i] == p[3][i - 19] && p[3][i - 19] in p[3];
        assert i > 23 ==> s[i] == p[4][i - 24] && p[4][i - 24] in p[4];
      }
    }
  }

  lemma PositionImpliesSplit(s: string)
    requires IsUuidByPosition(s)
    ensures IsUuidBySplit(s)
  {
    var p := [s[..8], s[9..13], s[14..18], s[19..23], s[24..]];
    JoinOfFive(p);
    assert Join(p, '-') == s;
    JoinThenSplit(p, '-');
  }

  /** The two recognisers accept exactly the same strings. */
  lemma RecognisersAgree(s: string)
    ensures IsUuidBySplit(s) <==> IsUuidByPosition(s)
  {
    if IsUuidBySplit(s) {
      SplitImpliesPosition(s);
    }
    if IsUuidByPosition(s) {
      PositionImpliesSplit(s);
    }
  }

  // ----- minting -----

  function HexChar(nibble: Byte): (c: char)
    requires nibble < 16
    ensures IsHexDigit(c) && c != '-'
  {
    if nibble < 10 then (nibble as int + '0' as int) as char else (nibble as int - 10 + 'a' as int) as char
  }

  /** `{:02x}`. */
  function HexByte(b: Byte): (s: string)
    ensures |s| == 2 && IsHexDigit(s[0]) && IsHexDigit(s[1])
  {
    [HexChar(b >> 4), HexChar(b & 0x0f)]
  }

  function Hex(bytes: seq<Byte>): (s: string)
    ensures |s| == 2 * |bytes| && forall i :: 0 <= i < |s| ==> IsHexDigit(s[i])
  {
    if bytes == [] then [] else HexByte(bytes[0]) + Hex(bytes[1..])
  }

  function Groups(b: seq<Byte>): seq<string>
    requires |b| == 16
  {
    [Hex(b[0..4]), Hex(b[4..6]), Hex(b[6..8]), Hex(b[8..10]), Hex(b[10..16])]
  }

  function Render(b: seq<Byte>): string
    requires |b| == 16
  {
    Join(Groups(b), '-')
  }

  /** The version nibble set to 4 and the variant bits to 10 (section 4.4 of RFC 4122). */
  function Stamp(b: seq<Byte>): seq<Byte>
    requires |b| == 16
  {
    b[6 := (b[6] & 0x0f) | 0x40][8 := (b[8] & 0x3f) | 0x80]
  }

  lemma HexCharInjective(x: Byte, y: Byte)
    requires x < 16 && y < 16
    ensures HexChar(x) == HexChar(y) <==> x == y
  {
  }

  lemma NibblesDetermineByte(x: Byte, y: Byte)
    requires x >> 4 == y >> 4 && x & 0x0f == y & 0x0f
    ensures x == y
  {
  }

  lemma HexByteInjective(x: Byte, y: Byte)
    requires HexByte(x) == HexByte(y)
    ensures x == y
  {
    assert HexByte(x)[0] == HexByte(y)[0] && HexByte(x)[1] == HexByte(y)[1];
    HexCharInjective(x >> 4, y >> 4);
    HexCharInjective(x & 0x0f, y & 0x0f);
    NibblesDetermineByte(x, y);
  }

  lemma {:induction false} HexInjective(a: seq<Byte>, b: seq<Byte>)
    requires Hex(a) == Hex(b)
    ensures a == b
  {
    hide HexByte;
    assert |a| == |b|;
    if a != [] {
      assert Hex(a)[..2] == HexByte(a[0]) && Hex(b)[..2] == HexByte(b[0]);
      assert Hex(a)[2..] == Hex(a[1..]) && Hex(b)[2..] == Hex(b[1..]);
      HexByteInjective(a[0], b[0]);
      HexInjective(a[1..], b[1..]);
      assert a == [a[0]] + a[1..] && b == [b[0]] + b[1..];
    }
  }

  /** Different sixteen bytes render as different identifiers. */
  lemma RenderInjective(a: seq<Byte>, b: seq<Byte>)
    requires |a| == 16 && |b| == 16 && Render(a) == Render(b)
    ensures a == b
  {
    hide Hex, Join, Split;
    var p, q := Groups(a), Groups(b);
    JoinThenSplit(p, '-');
    JoinThenSplit(q, '-');
    assert p[0] == q[0] && p[1] == q[1] && p[2] == q[2] && p[3] == q[3] && p[4] == q[4];
    HexInjective(a[0..4], b[0..4]);
    HexInjective(a[4..6], b[4..6]);
    HexInjective(a[6..8], b[6..8]);
    HexInjective(a[8..10], b[8..10]);
    HexInjective(a[10..16], b[10..16]);
    assert a == a[0..4] + a[4..6] + a[6..8] + a[8..10] + a[10..16];
    assert b == b[0..4] + b[4..6] + b[6..8] + b[8..10] + b[10..16];
  }

  lemma RenderedIsAccepted(b: seq<Byte>)
    requires |b| == 16
    ensures IsUuidBySplit(Render(b)) && IsUuidByPosition(Render(b))
  {
    hide HexByte, Hex, Split, Join;
    var p := Groups(b);
    var s := Render(b);
    JoinThenSplit(p, '-');
    JoinOfFive(p);
    var t3 := p[3] + ['-'] + p[4];
    var t2 := p[2] + ['-'] + t3;
    var t1 := p[1] + ['-'] + t2;
    HexOrDashJoin(p[3], p[4]);
    HexOrDashJoin(p[2], t3);
    HexOrDashJoin(p[1], t2);
    HexOrDashJoin(p[0], t1);
    assert s == p[0] + ['-'] + t1;
    RecognisersAgree(s);
  }

  lemma HexOrDashJoin(a: string, b: string)
    requires All(a, IsHexOrDash) && All(b, IsHexOrDash)
    ensures All(a + ['-'] + b, IsHexOrDash)
  {
  }

  lemma NibblesOf(x: Byte)
    ensures x as int == 16 * ((x >> 4) as int) + (x & 0x0f) as int
  {
  }

  lemma HexCharIsNibble(n: Byte)
    requires n < 16
    ensures IsLowerHex(HexChar(n)) && Nibble(HexChar(n)) == n as int
  {
  }

  lemma {:induction false} HexAt(bytes: seq<Byte>, i: nat)
    requires i < |bytes|
    ensures Hex(bytes)[2 * i] == HexChar(bytes[i] >> 4) && Hex(bytes)[2 * i + 1] == HexChar(bytes[i] & 0x0f)
  {
    if i > 0 {
      HexAt(bytes[1..], i - 1);
      assert Hex(bytes)[2 * i] == Hex(bytes[1..])[2 * (i - 1)];
      assert Hex(bytes)[2 * i + 1] == Hex(bytes[1..])[2 * (i - 1) + 1];
    }
  }

  /** Byte `i` stands after the bytes before it and the dashes after bytes 3, 5, 7 and 9. */
  function Place(i: int): int {
    2 * i + (if i < 4 then 0 else if i < 6 then 1 else if i < 8 then 2 else if i < 10 then 3 else 4)
  }

  lemma GroupsInPlace(p: seq<string>)
    requires |p| == 5 && |p[0]| == 8 && |p[1]| == |p[2]| == |p[3]| == 4 && |p[4]| == 12
    ensures var r := Join(p, '-');
      |r| == 36 && r[0..8] == p[0] && r[9..13] == p[1] && r[14..18] == p[2] && r[19..23] == p[3] && r[24..36] == p[4]
  {
    JoinOfFive(p);
    hide Join;
    var t3 := p[3] + ['-'] + p[4];
    var t2 := p[2] + ['-'] + t3;
    var t1 := p[1] + ['-'] + t2;
    var r := p[0] + ['-'] + t1;
    assert r[9..] == t1 && t1[5..] == t2 && t2[5..] == t3;
    assert r[14..] == t2 && r[19..] == t3;
    assert r[9..13] == t1[0..4] && r[14..18] == t2[0..4] && r[19..23] == t3[0..4] && r[24..36] == t3[5..17];
  }

  lemma GroupDigits(r: string, b: seq<Byte>, i: nat, from: nat, to: nat, start: nat)
    requires |b| == 16 && from <= i < to <= 16 && start + 2 * (to - from) <= |r|
    requires r[start..start + 2 * (to - from)] == Hex(b[from..to])
    ensures r[start + 2 * (i - from)] == HexChar(b[i] >> 4) && r[start + 2 * (i - from) + 1] == HexChar(b[i] & 0x0f)
  {
    HexAt(b[from..to], i - from);
    var part := r[start..start + 2 * (to - from)];
    assert part[2 * (i - from)] == r[start + 2 * (i - from)];
    assert part[2 * (i - from) + 1] == r[start + 2 * (i - from) + 1];
    hide Hex, HexChar;
  }

  lemma RenderedDigits(b: seq<Byte>, i: nat)
    requires |b| == 16 && i < 16
    ensures |Render(b)| == 36 && 0 <= Place(i) < 35
    ensures Render(b)[Place(i)] == HexChar(b[i] >> 4) && Render(b)[Place(i) + 1] == HexChar(b[i] & 0x0f)
  {
    var r := Render(b);
    GroupsInPlace(Groups(b));
    hide Join, Hex, Render, HexChar;
    if i < 4 {
      GroupDigits(r, b, i, 0, 4, 0);
    } else if i < 6 {
      GroupDigits(r, b, i, 4, 6, 9);
    } else if i < 8 {
      GroupDigits(r, b, i, 6, 8, 14);
    } else if i < 10 {
      GroupDigits(r, b, i, 8, 10, 19);
    } else {
      GroupDigits(r, b, i, 10, 16, 24);
    }
  }

  /** Every byte can be read off the identifier: two lower-case hex digits at its own place. */
  lemma RenderedByte(b: seq<Byte>, i: nat)
    requires |b| == 16 && i < 16
    ensures var (r, p) := (Render(b), Place(i));
      |r| == 36 && 0 <= p < 35 && IsLowerHex(r[p]) && IsLowerHex(r[p + 1])
      && 16 * Nibble(r[p]) + Nibble(r[p + 1]) == b[i] as int
  {
    RenderedDigits(b, i);
    hide Render, HexChar, Nibble, IsLowerHex;
    HexCharIsNibble(b[i] >> 4);
    HexCharIsNibble(b[i] & 0x0f);
    NibblesOf(b[i]);
  }

  lemma StampNibbles(x: Byte)
    ensures ((x & 0x0f) | 0x40) >> 4 == 4
    ensures 8 <= ((x & 0x3f) | 0x80) >> 4 <= 11
  {
  }

  lemma VariantChar(n: Byte)
    requires 8 <= n <= 11
    ensures HexChar(4) == '4' && HexChar(n) in "89ab"
  {
    if n == 8 {
      assert HexChar(n) == "89ab"[0];
    } else if n == 9 {
      assert HexChar(n) == "89ab"[1];
    } else if n == 10 {
      assert HexChar(n) == "89ab"[2];
    } else {
      assert HexChar(n) == "89ab"[3];
    }
  }

  lemma StampedBits(x: Byte)
    ensures ((x & 0x0f) | 0x40) & 0x0f == x & 0x0f
    ensures ((x & 0x3f) | 0x80) & 0x3f == x & 0x3f
  {
  }

  /** Stamping overwrites the version nibble and the two variant bits and leaves the other 122 bits alone. */
  lemma StampKeepsTheRest(b: seq<Byte>)
    requires |b| == 16
    ensures |Stamp(b)| == 16 && forall i :: 0 <= i < 16 && i != 6 && i != 8 ==> Stamp(b)[i] == b[i]
    ensures Stamp(b)[6] & 0x0f == b[6] & 0x0f && Stamp(b)[8] & 0x3f == b[8] & 0x3f
  {
    StampedBits(b[6]);
    StampedBits(b[8]);
  }

  /** Whatever the bytes, the stamped identifier is accepted and carries version 4 and variant 10. */
  lemma StampedIsVersion4(b: seq<Byte>)
    requires |b| == 16
    ensures IsUuidBySplit(Render(Stamp(b))) && IsUuidByPosition(Render(Stamp(b)))
    ensures Render(Stamp(b))[14] == '4' && Render(Stamp(b))[19] in "89ab"
  {
    hide Render, IsUuidBySplit, HexChar;
    StampNibbles(b[6]);
    StampNibbles(b[8]);
    VariantChar(Stamp(b)[8] >> 4);
    RenderedIsAccepted(Stamp(b));
    RenderedDigits(Stamp(b), 6);
    RenderedDigits(Stamp(b), 8);
  }

  /** `digest` is the SHA-256 of the mint counter and the clock. */
  method MintUuid(digest: seq<Byte>) returns (id: string)
    requires |digest| == 32
    ensures id == Render(Stamp(digest[..16]))
    ensures IsUuidBySplit(id) && IsUuidByPosition(id)
    ensures id[14] == '4' && id[19] in "89ab"
  {
    hide Render, IsUuidBySplit;
    var b := new Byte[16](i requires 0 <= i < 16 => digest[i]);
    b[6] := (b[6] & 0x0f) | 0x40;
    b[8] := (b[8] & 0x3f) | 0x80;
    assert b[..] == Stamp(digest[..16]);
    StampedIsVersion4(digest[..16]);
    id := Render(b[..]);
  }

  /** The comment on the registration API's recogniser says lowercase, yet either case is accepted anywhere. */
  lemma CaseDoesNotMatter(s: string, i: nat, c: char)
    requires IsUuidBySplit(s) && |s| == 36 && i < 36 && !IsDashPosition(i) && IsHexDigit(c)
    ensures IsUuidBySplit(s[i := c])
  {
    hide IsUuidBySplit;
    RecognisersAgree(s);
    RecognisersAgree(s[i := c]);
  }
}
