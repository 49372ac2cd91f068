/**
 * The integer helpers of the path tracer's shader utility header: Jenkins's
 * hash, the xorshift generator and its seeding, the bounce heat-map colours
 * and the geometry/material attribute flags. HLSL `uint` is `bv32`, so every
 * `+` and `<<` below wraps modulo 2^32 exactly as on the GPU.
 */
module PathtracerUtils {
  import opened Numerics

  // The five statements of Jenkins's "one at a time" finaliser, in order.

  function Mix10(x: bv32): bv32 { x + (x << 10) }
  function Fold6(x: bv32): bv32 { x ^ (x >> 6) }
  function Mix3(x: bv32): bv32 { x + (x << 3) }
  function Fold11(x: bv32): bv32 { x ^ (x >> 11) }
  function Mix15(x: bv32): bv32 { x + (x << 15) }

  /** The hash: the five steps in order, all wrapping modulo 2^32. */
  function JenkinsHash(x: bv32): bv32
  {
    Mix15(Fold11(Mix3(Fold6(Mix10(x)))))
  }

  // Every step is a bijection of the 32-bit words. `x += x << k` multiplies
  // by the odd number 2^k + 1, which has an inverse modulo 2^32; `x ^= x >> k`
  // is undone by the xor of the shifts by every multiple of k.

  function UnMix10(y: bv32): bv32 { y * 0xC00F_FC01 }

  lemma Mix10Multiplies(x: bv32)
    ensures Mix10(x) == x * 1025
  {
  }

  lemma UnMix10Divides(x: bv32)
    ensures UnMix10(x * 1025) == x
  {
  }

  lemma UnMix10Inverts(x: bv32)
    ensures UnMix10(Mix10(x)) == x
  {
    Mix10Multiplies(x);
    UnMix10Divides(x);
  }

  function UnMix3(y: bv32): bv32 { y * 0x38E3_8E39 }

  lemma Mix3Multiplies(x: bv32)
    ensures Mix3(x) == x * 9
  {
  }

  lemma UnMix3Divides(x: bv32)
    ensures UnMix3(x * 9) == x
  {
  }

  lemma UnMix3Inverts(x: bv32)
    ensures UnMix3(Mix3(x)) == x
  {
    Mix3Multiplies(x);
    UnMix3Divides(x);
  }

  function UnMix15(y: bv32): bv32 { y * 0x3FFF_8001 }

  lemma Mix15Multiplies(x: bv32)
    ensures Mix15(x) == x * 32769
  {
  }

  lemma UnMix15Divides(x: bv32)
    ensures UnMix15(x * 32769) == x
  {
  }

  lemma UnMix15Inverts(x: bv32)
    ensures UnMix15(Mix15(x)) == x
  {
    Mix15Multiplies(x);
    UnMix15Divides(x);
  }

  function UnFold6(y: bv32): bv32 { y ^ (y >> 6) ^ (y >> 12) ^ (y >> 18) ^ (y >> 24) ^ (y >> 30) }

  lemma UnFold6Inverts(x: bv32)
    ensures UnFold6(Fold6(x)) == x
  {
    var y := x ^ (x >> 6);
    assert UnFold6(y) == x;
  }

  function UnFold11(y: bv32): bv32 { y ^ (y >> 11) ^ (y >> 22) }

  lemma UnFold11Inverts(x: bv32)
    ensures UnFold11(Fold11(x)) == x
  {
    var y := x ^ (x >> 11);
    assert UnFold11(y) == x;
  }

  /** Undoes the hash, last step first. */
  function JenkinsHashInverse(h: bv32): bv32
  {
    UnMix10(UnFold6(UnMix3(UnFold11(UnMix15(h)))))
  }

  /** The hash loses nothing: its inverse gives every input back. */
  lemma JenkinsHashInverts(x: bv32)
    ensures JenkinsHashInverse(JenkinsHash(x)) == x
  {
    var x1 := Mix10(x);
    var x2 := Fold6(x1);
    var x3 := Mix3(x2);
    var x4 := Fold11(x3);
    UnMix15Inverts(x4);
    UnFold11Inverts(x3);
    UnMix3Inverts(x2);
    UnFold6Inverts(x1);
    UnMix10Inverts(x);
  }

  /** Distinct words hash to distinct words. */
  lemma JenkinsHashInjective(a: bv32, b: bv32)
    ensures JenkinsHash(a) == JenkinsHash(b) <==> a == b
  {
    JenkinsHashInverts(a);
    JenkinsHashInverts(b);
  }

  /**
   * Reference values of the hash, computed independently with 32-bit
   * wrap-around. They pin every shift amount and both kinds of step: zero is
   * a fixed point, and the carries of the `+=` steps are dropped at 2^32.
   */
  lemma JenkinsHashReferenceValues()
    ensures JenkinsHash(0) == 0
    ensures JenkinsHash(1) == 0x124E_A49D
    ensures JenkinsHash(2) == 0x249D_C93B
    ensures JenkinsHash(12345) == 0x2BC3_C9E3
    ensures JenkinsHash(0xFFFF_FFFF) == 0xAE65_A494
  {
  }

  /** `dot(pixel, uint2(1, resolution.x))`: the pixel's row-major index, wrapping. */
  function PixelIndex(pixelX: bv32, pixelY: bv32, resolutionX: bv32): bv32
  {
    pixelX + pixelY * resolutionX
  }

  /** A generator seed: the hashed xor of a pixel index with a frame hash. */
  function Seed(index: bv32, frameHash: bv32): bv32
  {
    JenkinsHash(index ^ frameHash)
  }

  /** The seed of a pixel's generator in a given frame. */
  function InitRNG(pixelX: bv32, pixelY: bv32, resolutionX: bv32, resolutionY: bv32, frame: bv32): bv32
  {
    Seed(PixelIndex(pixelX, pixelY, resolutionX), JenkinsHash(frame))
  }

  /** Recovers the pixel index from a seed, given the frame hash. */
  function IndexOfSeed(seed: bv32, frameHash: bv32): bv32
  {
    JenkinsHashInverse(seed) ^ frameHash
  }

  lemma XorCancels(a: bv32, b: bv32, f: bv32)
    ensures a ^ f == b ^ f <==> a == b
  {
  }

  /** The frame hash and the seed together give back the pixel index. */
  lemma SeedRecoversIndex(index: bv32, frameHash: bv32)
    ensures IndexOfSeed(Seed(index, frameHash), frameHash) == index
  {
    var word := index ^ frameHash;
    JenkinsHashInverts(word);
    assert JenkinsHashInverse(Seed(index, frameHash)) == word;
  }

  /** Within one frame, two indices share a seed only when they are equal. */
  lemma SeedsSeparate(index1: bv32, index2: bv32, frameHash: bv32)
    ensures Seed(index1, frameHash) == Seed(index2, frameHash) <==> index1 == index2
  {
    JenkinsHashInjective(index1 ^ frameHash, index2 ^ frameHash);
    XorCancels(index1, index2, frameHash);
  }

  /**
   * Within one frame two pixels share a seed exactly when their wrapped
   * row-major indices coincide; the target's height plays no part.
   */
  lemma InitRNGSeparatesPixels(x1: bv32, y1: bv32, x2: bv32, y2: bv32, resolutionX: bv32,
                               resolutionY1: bv32, resolutionY2: bv32, frame: bv32)
    ensures InitRNG(x1, y1, resolutionX, resolutionY1, frame) == InitRNG(x2, y2, resolutionX, resolutionY2, frame)
        <==> PixelIndex(x1, y1, resolutionX) == PixelIndex(x2, y2, resolutionX)
  {
    SeedsSeparate(PixelIndex(x1, y1, resolutionX), PixelIndex(x2, y2, resolutionX), JenkinsHash(frame));
  }

  /** A pixel's seed and its frame number give back the pixel's wrapped index. */
  lemma InitRNGRecoversIndex(pixelX: bv32, pixelY: bv32, resolutionX: bv32, resolutionY: bv32, frame: bv32)
    ensures IndexOfSeed(InitRNG(pixelX, pixelY, resolutionX, resolutionY, frame), JenkinsHash(frame))
         == PixelIndex(pixelX, pixelY, resolutionX)
  {
    SeedRecoversIndex(PixelIndex(pixelX, pixelY, resolutionX), JenkinsHash(frame));
  }

  /**
   * Reference seeds. The row-major index is computed modulo 2^32, so on a
   * 65536-wide target the pixel (0, 65536) wraps to index 0 and shares the
   * seed of the origin.
   */
  lemma InitRNGReferenceValues()
    ensures InitRNG(0, 0, 1920, 1080, 0) == 0
    ensures InitRNG(1, 0, 1920, 1080, 0) == JenkinsHash(1)
    ensures InitRNG(0, 0x1_0000, 0x1_0000, 1, 0) == InitRNG(0, 0, 0x1_0000, 1, 0)
  {
    JenkinsHashReferenceValues();
  }

  // Inverses of the three xorshift steps.

  function UnShiftLeft13(y: bv32): bv32 { y ^ (y << 13) ^ (y << 26) }
  function UnShiftRight17(y: bv32): bv32 { y ^ (y >> 17) }
  function UnShiftLeft5(y: bv32): bv32
  {
    y ^ (y << 5) ^ (y << 10) ^ (y << 15) ^ (y << 20) ^ (y << 25) ^ (y << 30)
  }

  /** Undoes one xorshift step, last shift first. */
  function XorShiftInverse(state: bv32): bv32
  {
    UnShiftLeft13(UnShiftRight17(UnShiftLeft5(state)))
  }

  /**
   * Marsaglia's xorshift32 step on the `inout` generator state: the new
   * state is written back and also returned. The step is undone by
   * `XorShiftInverse`, so no two states step to the same one, and zero
   * stays zero.
   */
  method XorShift(rngState: bv32) returns (value: bv32, rngState': bv32)
    ensures value == rngState'
    ensures XorShiftInverse(rngState') == rngState
    ensures rngState' == 0 <==> rngState == 0
    ensures rngState == 1 ==> rngState' == 0x0004_2021
  {
    rngState' := rngState;
    rngState' := rngState' ^ (rngState' << 13);
    var s1 := rngState';
    rngState' := rngState' ^ (rngState' >> 17);
    var s2 := rngState';
    rngState' := rngState' ^ (rngState' << 5);
    assert UnShiftLeft5(rngState') == s2;
    assert UnShiftRight17(s2) == s1;
    assert UnShiftLeft13(s1) == rngState;
    value := rngState';
  }

  /** A colour as three floats. */
  datatype Rgb = Rgb(r: Float32, g: Float32, b: Float32)

  const BLUE: Rgb := Rgb(ZERO_F, ZERO_F, ONE_F)
  const GREEN: Rgb := Rgb(ZERO_F, ONE_F, ZERO_F)
  const RED: Rgb := Rgb(ONE_F, ZERO_F, ZERO_F)

  /** Debug colour of a path's bounce count. */
  function BounceHeatmap(bounce: bv32): (c: Rgb)
    ensures c == BLUE <==> bounce == 0
    ensures c == GREEN <==> bounce == 1
    ensures c == RED <==> bounce >= 2
  {
    match bounce
    case 0 => BLUE
    case 1 => GREEN
    case _ => RED
  }

  const GEOM_ATTR_POSITION: bv32 := 0x01
  const GEOM_ATTR_TEXCOORD: bv32 := 0x02
  const GEOM_ATTR_NORMAL: bv32 := 0x04
  const GEOM_ATTR_TANGENTS: bv32 := 0x08
  const GEOM_ATTR_ALL: bv32 := 0x0F

  const MAT_ATTR_BASE_COLOR: bv32 := 0x01
  const MAT_ATTR_EMISSIVE: bv32 := 0x02
  const MAT_ATTR_NORMAL: bv32 := 0x04
  const MAT_ATTR_METAL_ROUGH: bv32 := 0x08
  const MAT_ATTR_TRANSMISSION: bv32 := 0x10
  const MAT_ATTR_ALL: bv32 := 0x1F

  const GEOMETRY_ATTRIBUTES: seq<bv32> :=
    [GEOM_ATTR_POSITION, GEOM_ATTR_TEXCOORD, GEOM_ATTR_NORMAL, GEOM_ATTR_TANGENTS]
  const MATERIAL_ATTRIBUTES: seq<bv32> :=
    [MAT_ATTR_BASE_COLOR, MAT_ATTR_EMISSIVE, MAT_ATTR_NORMAL, MAT_ATTR_METAL_ROUGH, MAT_ATTR_TRANSMISSION]

  predicate SingleBit(f: bv32)
  {
    f != 0 && f & (f - 1) == 0
  }

  /** Each entry is one bit, and no two entries share it. */
  predicate DistinctFlags(fs: seq<bv32>)
  {
    && (forall i :: 0 <= i < |fs| ==> SingleBit(fs[i]))
    && (forall i, j :: 0 <= i < j < |fs| ==> fs[i] & fs[j] == 0)
  }

  /** The bitwise OR of a list of flags: every flag is contained in it. */
  function UnionOf(fs: seq<bv32>): (u: bv32)
    ensures forall i :: 0 <= i < |fs| ==> fs[i] & u == fs[i]
  {
    if fs == [] then 0 else fs[0] | UnionOf(fs[1..])
  }

  /** `GeomAttr_*` are four distinct single bits and `GeomAttr_All` is exactly their OR. */
  lemma {:induction false} GeometryAttributesAreFlags()
    ensures DistinctFlags(GEOMETRY_ATTRIBUTES)
    ensures UnionOf(GEOMETRY_ATTRIBUTES) == GEOM_ATTR_ALL
  {
    var fs := GEOMETRY_ATTRIBUTES;
    assert UnionOf(fs[4..]) == 0;
    assert UnionOf(fs[3..]) == 0x08;
    assert UnionOf(fs[2..]) == 0x0C;
    assert UnionOf(fs[1..]) == 0x0E;
  }

  /** `MatAttr_*` are five distinct single bits and `MatAttr_All` is exactly their OR. */
  lemma {:induction false} MaterialAttributesAreFlags()
    ensures DistinctFlags(MATERIAL_ATTRIBUTES)
    ensures UnionOf(MATERIAL_ATTRIBUTES) == MAT_ATTR_ALL
  {
    var fs := MATERIAL_ATTRIBUTES;
    assert UnionOf(fs[5..]) == 0;
    assert UnionOf(fs[4..]) == 0x10;
    assert UnionOf(fs[3..]) == 0x18;
    assert UnionOf(fs[2..]) == 0x1C;
    assert UnionOf(fs[1..]) == 0x1E;
  }
}
