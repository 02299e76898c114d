/**
 The 64-bit FNV-1a fold over a query's `overlayExtends` list, and the three-bit capability bitmap
 published from it.
 */
module HashSeed {
  type Byte = bv8

  const OFFSET_BASIS: bv64 := 0xcbf2_9ce4_8422_2325
  const NEWLINE: Byte := 0x0a

  function WrappingMulPrime(x: bv64): bv64 {
    x * 0x0000_0100_0000_01b3
  }

  /** One byte folded in: xor, then a wrapping multiplication by the FNV prime. */
  function Step(h: bv64, b: Byte): bv64 {
    WrappingMulPrime(h ^ (b as bv64))
  }

  function FoldBytes(h: bv64, bytes: seq<Byte>): bv64
    decreases |bytes|
  {
    if bytes == [] then h else FoldBytes(Step(h, bytes[0]), bytes[1..])
  }

  /** Every overlay's bytes, each followed by a newline. */
  function Stream(overlays: seq<seq<Byte>>): seq<Byte> {
    if overlays == [] then [] else overlays[0] + [NEWLINE] + Stream(overlays[1..])
  }

  lemma {:induction false} FoldAppend(h: bv64, a: seq<Byte>, b: seq<Byte>)
    ensures FoldBytes(h, a + b) == FoldBytes(FoldBytes(h, a), b)
    decreases |a|
  {
    if a == [] {
      assert a + b == b;
    } else {
      assert (a + b)[1..] == a[1..] + b;
      FoldAppend(Step(h, a[0]), a[1..], b);
    }
  }

  lemma {:induction false} StreamAppend(a: seq<seq<Byte>>, b: seq<seq<Byte>>)
    ensures Stream(a + b) == Stream(a) + Stream(b)
  {
    if a == [] {
      assert a + b == b;
    } else {
      assert (a + b)[1..] == a[1..] + b;
      StreamAppend(a[1..], b);
    }
  }

  /** The nested loop of the server folds exactly the newline-terminated stream. */
  method HashSeed(overlays: seq<seq<Byte>>) returns (h: bv64)
    ensures h == FoldBytes(OFFSET_BASIS, Stream(overlays))
  {
    h := OFFSET_BASIS;
    for i := 0 to |overlays|
      invariant h == FoldBytes(OFFSET_BASIS, Stream(overlays[..i]))
    {
      var overlay := overlays[i];
      ghost var done := Stream(overlays[..i]);
      assert done + overlay[..0] == done;
      for j := 0 to |overlay|
        invariant h == FoldBytes(OFFSET_BASIS, done + overlay[..j])
      {
        FoldAppend(OFFSET_BASIS, done + overlay[..j], [overlay[j]]);
        assert done + overlay[..j + 1] == done + overlay[..j] + [overlay[j]];
        h := Step(h, overlay[j]);
      }
      assert overlay[..|overlay|] == overlay;
      FoldAppend(OFFSET_BASIS, done + overlay, [NEWLINE]);
      h := Step(h, NEWLINE);
      StreamAppend(overlays[..i], [overlay]);
      assert overlays[..i + 1] == overlays[..i] + [overlay];
      assert done + overlay + [NEWLINE] == done + Stream([overlay]);
    }
    assert overlays[..|overlays|] == overlays;
  }

  // ----- each step is a bijection -----

  /** Multiplication by the inverse of the FNV prime modulo 2^64. */
  function WrappingDivPrime(x: bv64): bv64 {
    x * 0xce96_5057_aff6_957b
  }

  function Unstep(h: bv64, b: Byte): bv64 {
    WrappingDivPrime(h) ^ (b as bv64)
  }

  lemma DivUndoesMul(x: bv64)
    ensures WrappingDivPrime(x * 0x0000_0100_0000_01b3) == x
  {
  }

  lemma MulUndoesDiv(x: bv64)
    ensures WrappingMulPrime(x * 0xce96_5057_aff6_957b) == x
  {
  }

  lemma DivOfMul(x: bv64)
    ensures WrappingDivPrime(WrappingMulPrime(x)) == x
  {
    hide WrappingDivPrime;
    DivUndoesMul(x);
  }

  lemma MulOfDiv(x: bv64)
    ensures WrappingMulPrime(WrappingDivPrime(x)) == x
  {
    hide WrappingMulPrime;
    MulUndoesDiv(x);
  }

  lemma XorTwice(x: bv64, b: bv64)
    ensures (x ^ b) ^ b == x
  {
  }

  lemma StepIsBijection(h: bv64, b: Byte)
    ensures Unstep(Step(h, b), b) == h
    ensures Step(Unstep(h, b), b) == h
  {
    hide WrappingMulPrime, WrappingDivPrime;
    DivOfMul(h ^ (b as bv64));
    MulOfDiv(h);
    XorTwice(h, b as bv64);
    XorTwice(WrappingDivPrime(h), b as bv64);
  }

  lemma StepSeparatesBytes(h: bv64, b: Byte, b': Byte)
    requires b != b'
    ensures Step(h, b) != Step(h, b')
  {
    hide WrappingMulPrime, WrappingDivPrime;
    DivOfMul(h ^ (b as bv64));
    DivOfMul(h ^ (b' as bv64));
    XorSeparates(h, b, b');
  }

  lemma XorSeparates(h: bv64, b: Byte, b': Byte)
    requires b != b'
    ensures h ^ (b as bv64) != h ^ (b' as bv64)
  {
  }

  lemma {:induction false} FoldSeparatesStates(h: bv64, h': bv64, bytes: seq<Byte>)
    requires h != h'
    ensures FoldBytes(h, bytes) != FoldBytes(h', bytes)
    decreases |bytes|
  {
    if bytes != [] {
      hide Step, Unstep;
      StepIsBijection(h, bytes[0]);
      StepIsBijection(h', bytes[0]);
      FoldSeparatesStates(Step(h, bytes[0]), Step(h', bytes[0]), bytes[1..]);
    }
  }

  /** Replacing any single byte of any single overlay always changes the hash. */
  lemma OneByteChangesTheHash(overlays: seq<seq<Byte>>, i: nat, j: nat, b: Byte)
    requires i < |overlays| && j < |overlays[i]| && b != overlays[i][j]
    ensures FoldBytes(OFFSET_BASIS, Stream(overlays))
         != FoldBytes(OFFSET_BASIS, Stream(overlays[i := overlays[i][j := b]]))
  {
    hide Step;
    var changed := overlays[i][j := b];
    var before := Stream(overlays[..i]) + overlays[i][..j];
    var after := overlays[i][j + 1..] + [NEWLINE] + Stream(overlays[i + 1..]);
    StreamAt(overlays, i);
    StreamAt(overlays[i := changed], i);
    assert overlays[i := changed][..i] == overlays[..i];
    assert overlays[i := changed][i + 1..] == overlays[i + 1..];
    assert Stream(overlays) == before + ([overlays[i][j]] + after);
    assert Stream(overlays[i := changed]) == before + ([b] + after);
    var h := FoldBytes(OFFSET_BASIS, before);
    FoldAppend(OFFSET_BASIS, before, [overlays[i][j]] + after);
    FoldAppend(OFFSET_BASIS, before, [b] + after);
    FoldAppend(h, [overlays[i][j]], after);
    FoldAppend(h, [b], after);
    StepSeparatesBytes(h, overlays[i][j], b);
    FoldSeparatesStates(Step(h, overlays[i][j]), Step(h, b), after);
  }

  lemma StreamAt(overlays: seq<seq<Byte>>, i: nat)
    requires i < |overlays|
    ensures Stream(overlays) == Stream(overlays[..i]) + overlays[i] + [NEWLINE] + Stream(overlays[i + 1..])
  {
    assert overlays == overlays[..i] + overlays[i..];
    StreamAppend(overlays[..i], overlays[i..]);
    assert overlays[i..][1..] == overlays[i + 1..];
    assert Stream(overlays[i..]) == overlays[i] + [NEWLINE] + Stream(overlays[i + 1..]);
  }

  // ----- the published bitmap -----

  /** The seed modulo 2^3, one bit for each of the three catalogue entries. */
  function Bitmap(seed: bv64): bv64 {
    seed % 8
  }

  function Step3(h: bv3, b: Byte): bv3 {
    (h ^ ((b & 7) as bv3)) * 3
  }

  function Fold3(h: bv3, bytes: seq<Byte>): bv3
    decreases |bytes|
  {
    if bytes == [] then h else Fold3(Step3(h, bytes[0]), bytes[1..])
  }

  lemma LowBits(h: bv64, l: bv3, b: Byte)
    requires h % 8 == l as bv64
    ensures ((h ^ (b as bv64)) * 0x0000_0100_0000_01b3) % 8 == ((l ^ ((b & 7) as bv3)) * 3) as bv64
  {
  }

  /** The low three bits after a byte depend only on the low three bits before it. */
  lemma StepKeepsLowBits(h: bv64, l: bv3, b: Byte)
    requires Bitmap(h) == l as bv64
    ensures Bitmap(Step(h, b)) == Step3(l, b) as bv64
  {
    LowBits(h, l, b);
  }

  lemma {:induction false} FoldKeepsLowBits(h: bv64, l: bv3, bytes: seq<Byte>)
    requires Bitmap(h) == l as bv64
    ensures Bitmap(FoldBytes(h, bytes)) == Fold3(l, bytes) as bv64
    decreases |bytes|
  {
    hide Step, Step3, Bitmap;
    if bytes != [] {
      StepKeepsLowBits(h, l, bytes[0]);
      FoldKeepsLowBits(Step(h, bytes[0]), Step3(l, bytes[0]), bytes[1..]);
    }
  }

  /** The bitmap never needs the upper 61 bits: the whole fold can run in three-bit arithmetic. */
  lemma BitmapInThreeBits(overlays: seq<seq<Byte>>)
    ensures Bitmap(FoldBytes(OFFSET_BASIS, Stream(overlays))) == Fold3(5, Stream(overlays)) as bv64
  {
    assert Bitmap(OFFSET_BASIS) == 5;
    hide Step, Step3, Bitmap;
    FoldKeepsLowBits(OFFSET_BASIS, 5, Stream(overlays));
  }

  // ----- named values -----

  lemma FirstKnownStep()
    ensures Step(0xcbf29ce484222325, 0x61) == 0xaf63dc4c8601ec8c
  {
  }

  lemma SecondKnownStep()
    ensures Step(0xaf63dc4c8601ec8c, 0x0a) == 0x89bdc07b544e7b2
  {
  }

  /** No overlay hashes to the FNV-1a offset basis; the one overlay `a` hashes its letter and a newline. */
  lemma KnownHashes()
    ensures FoldBytes(OFFSET_BASIS, Stream([])) == 0xcbf29ce484222325
    ensures Stream([[0x61]]) == [0x61, 0x0a] && FoldBytes(OFFSET_BASIS, Stream([[0x61]])) == 0x89bdc07b544e7b2
    ensures Bitmap(FoldBytes(OFFSET_BASIS, Stream([[0x61]]))) == 2
  {
    FirstKnownStep();
    SecondKnownStep();
    var stream: seq<Byte> := [0x61, 0x0a];
    assert Stream([[0x61]]) == [0x61] + [NEWLINE] + Stream([[0x61]][1..]);
    assert stream[1..] == [0x0a] && stream[1..][1..] == [];
    hide Step;
    assert FoldBytes(OFFSET_BASIS, stream) == FoldBytes(Step(OFFSET_BASIS, 0x61), stream[1..]);
  }
}
