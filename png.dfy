/** The pHYs splice of src/png.go: after png.Encode has produced a PNG byte stream, a
    pHYs chunk (section 11.3.5.3 of the PNG Specification, Second Edition) carrying the
    resolution in pixels per metre is inserted right after the IHDR chunk, which is
    before any IDAT chunk as section 5.6 requires. Chunks have the layout of section 5.3
    (length, type, data, CRC) and the CRC is the CRC-32 of section 5.5. */
module Png {
  import opened Wrappers

  newtype byte = x: int | 0 <= x < 256

  /** A Go uint32. */
  type U32 = x: int | 0 <= x < 0x1_0000_0000

  /** The eight-byte PNG signature (section 5.2). */
  const Signature: seq<byte> := [137, 80, 78, 71, 13, 10, 26, 10]

  /** The chunk type codes, as ASCII bytes. */
  const IHDR: seq<byte> := [73, 72, 68, 82]
  const PHYS: seq<byte> := [112, 72, 89, 115]

  /** binary.BigEndian.PutUint32 as a value: the four bytes of v, most significant first. */
  function BE32(v: U32): (s: seq<byte>)
    ensures |s| == 4
  {
    [(v / 0x100_0000) as byte, (v / 0x1_0000 % 0x100) as byte, (v / 0x100 % 0x100) as byte,
     (v % 0x100) as byte]
  }

  /** binary.BigEndian.Uint32. */
  function DecodeBE32(s: seq<byte>): U32
    requires |s| == 4
  {
    ((s[0] as int * 0x100 + s[1] as int) * 0x100 + s[2] as int) * 0x100 + s[3] as int
  }

  lemma DecodeEncodeBE32(v: U32)
    ensures DecodeBE32(BE32(v)) == v
  {
    var q1 := v / 0x100;
    var q2 := q1 / 0x100;
    var q3 := q2 / 0x100;
    assert v == q1 * 0x100 + v % 0x100;
    assert q1 == q2 * 0x100 + q1 % 0x100;
    assert q2 == q3 * 0x100 + q2 % 0x100;
    assert q2 == v / 0x1_0000;
    assert q3 == v / 0x100_0000;
  }

  lemma EncodeDecodeBE32(s: seq<byte>)
    requires |s| == 4
    ensures BE32(DecodeBE32(s)) == s
  {
    var v := DecodeBE32(s);
    var q2 := s[0] as int * 0x100 + s[1] as int;
    var q1 := q2 * 0x100 + s[2] as int;
    assert v == q1 * 0x100 + s[3] as int;
    assert v / 0x100 == q1 && v % 0x100 == s[3] as int;
    assert q1 / 0x100 == q2 && q1 % 0x100 == s[2] as int;
    assert q2 / 0x100 == s[0] as int && q2 % 0x100 == s[1] as int;
    assert v / 0x1_0000 == q1 / 0x100;
    assert v / 0x100_0000 == q2 / 0x100;
  }

  /** uint32(v) for a non-negative Go int: the low 32 bits. */
  function ToU32(v: int): (u: U32)
    ensures 0 <= v < 0x1_0000_0000 ==> u == v
  {
    v % 0x1_0000_0000
  }

  // CRC-32 (ISO 3309 / ITU-T V.42, reflected polynomial 0xEDB88320), bit by bit.

  const CrcPoly: bv32 := 0xEDB8_8320

  /** One shift of the reflected CRC register. */
  function CrcShift(c: bv32): bv32
  {
    if c & 1 == 1 then (c >> 1) ^ CrcPoly else c >> 1
  }

  /** The register after `n` shifts. */
  function CrcShifts(c: bv32, n: nat): bv32
    decreases n
  {
    if n == 0 then c else CrcShifts(CrcShift(c), n - 1)
  }

  /** The register after one byte, taken least significant bit first. */
  function CrcByte(c: bv32, b: byte): bv32
  {
    CrcShifts(c ^ (b as bv32), 8)
  }

  /** The register after a run of bytes. */
  function CrcUpdate(c: bv32, data: seq<byte>): bv32
    decreases |data|
  {
    if data == [] then c else CrcUpdate(CrcByte(c, data[0]), data[1..])
  }

  /** crc32.ChecksumIEEE: the register starts all ones and is inverted at the end. */
  function Crc32(data: seq<byte>): U32
  {
    (CrcUpdate(0xFFFF_FFFF, data) ^ 0xFFFF_FFFF) as int
  }

  /** The CRC can be computed piecewise: the register after a + b is the register after
      b, started from the register after a. */
  lemma {:induction false} CrcUpdateAppend(c: bv32, a: seq<byte>, b: seq<byte>)
    ensures CrcUpdate(c, a + b) == CrcUpdate(CrcUpdate(c, a), b)
    decreases |a|
  {
    if a == [] {
      assert a + b == b;
    } else {
      assert (a + b)[0] == a[0];
      assert (a + b)[1..] == a[1..] + b;
      CrcUpdateAppend(CrcByte(c, a[0]), a[1..], b);
    }
  }

  /** The eight register shifts of the byte "a" from the all-ones start, halfway. */
  lemma CrcShiftsOfA()
    ensures CrcShifts(0xFFFF_FF9E, 4) == 0xAFF5_1D81
  {
    assert CrcShift(0xFFFF_FF9E) == 0x7FFF_FFCF;
    assert CrcShift(0x7FFF_FFCF) == 0xD247_7CC7;
    assert CrcShift(0xD247_7CC7) == 0x849B_3D43;
    assert CrcShift(0x849B_3D43) == 0xAFF5_1D81;
    assert CrcShifts(0x849B_3D43, 1) == CrcShifts(0xAFF5_1D81, 0);
    assert CrcShifts(0xD247_7CC7, 2) == CrcShifts(0x849B_3D43, 1);
    assert CrcShifts(0x7FFF_FFCF, 3) == CrcShifts(0xD247_7CC7, 2);
  }

  /** The check value of CRC-32 for the one-byte message "a". */
  lemma CrcCheckValue()
    ensures Crc32([97]) == 0xE8B7_BE43
  {
    CrcShiftsOfA();
    assert CrcShift(0xAFF5_1D81) == 0xBA42_0DE0;
    assert CrcShift(0xBA42_0DE0) == 0x5D21_06F0;
    assert CrcShift(0x5D21_06F0) == 0x2E90_8378;
    assert CrcShift(0x2E90_8378) == 0x1748_41BC;
    assert CrcShifts(0x2E90_8378, 1) == CrcShifts(0x1748_41BC, 0);
    assert CrcShifts(0x5D21_06F0, 2) == CrcShifts(0x2E90_8378, 1);
    assert CrcShifts(0xBA42_0DE0, 3) == CrcShifts(0x5D21_06F0, 2);
    assert CrcShifts(0xAFF5_1D81, 4) == CrcShifts(0xBA42_0DE0, 3);
    CrcShiftsSplit(0xFFFF_FF9E, 4, 4);
    assert CrcByte(0xFFFF_FFFF, 97) == 0x1748_41BC;
    assert CrcUpdate(0xFFFF_FFFF, [97]) == CrcUpdate(0x1748_41BC, []);
  }

  /** Shifting m + n times is shifting m times and then n times. */
  lemma {:induction false} CrcShiftsSplit(c: bv32, m: nat, n: nat)
    ensures CrcShifts(c, m + n) == CrcShifts(CrcShifts(c, m), n)
    decreases m
  {
    if m > 0 {
      CrcShiftsSplit(CrcShift(c), m - 1, n);
    }
  }

  /** The nine data bytes of pHYs: pixels per unit on x and on y, then unit 1 (metre). */
  function PhysPayload(ppm: int): (d: seq<byte>)
    ensures |d| == 9
  {
    BE32(ToU32(ppm)) + BE32(ToU32(ppm)) + [1]
  }

  /** The whole pHYs chunk: length 9, the type, the payload, and the CRC over type and
      payload. */
  function PhysChunk(ppm: int): (c: seq<byte>)
    ensures |c| == 21
  {
    BE32(9) + PHYS + PhysPayload(ppm) + BE32(Crc32(PHYS + PhysPayload(ppm)))
  }

  /** Where the IHDR chunk ends: signature, length and type, its data, and its CRC. */
  function IhdrEnd(data: seq<byte>): int
    requires |data| >= 16
  {
    8 + 8 + DecodeBE32(data[8..12]) + 4
  }

  /** addPhysChunk for a resolution of ppm pixels per metre: the checks on the stream,
      the pass-through for a non-positive resolution, and the splice. */
  function AddPhys(data: seq<byte>, ppm: int): (r: Result<seq<byte>, string>)
    ensures r.Failure? <==> |data| < 20 || data[..8] != Signature || data[12..16] != IHDR ||
                            IhdrEnd(data) > |data|
    ensures |data| < 20 ==> r == Failure("invalid png data")
    ensures |data| >= 20 && data[..8] != Signature ==> r == Failure("invalid png signature")
    ensures |data| >= 20 && data[..8] == Signature && data[12..16] != IHDR ==>
              r == Failure("missing IHDR chunk")
    ensures |data| >= 20 && data[..8] == Signature && data[12..16] == IHDR && IhdrEnd(data) > |data| ==>
              r == Failure("invalid IHDR length")
    // the header-length check of src/png.go:35-37 can never fire after the length check
    ensures r != Failure("invalid png header")
    ensures r.Success? && ppm <= 0 ==> r.value == data
  {
    if |data| < |Signature| + 12 then Failure("invalid png data")
    else if data[..8] != Signature then Failure("invalid png signature")
    else if |data[8..]| < 8 then Failure("invalid png header")
    else if data[12..16] != IHDR then Failure("missing IHDR chunk")
    else if IhdrEnd(data) > |data| then Failure("invalid IHDR length")
    else if ppm <= 0 then Success(data)
    else
      var ihdrEnd := IhdrEnd(data);
      Success(data[..ihdrEnd] + PhysChunk(ppm) + data[ihdrEnd..])
  }

  /** The splice keeps every original byte, in order, and adds exactly one 21-byte chunk
      at the end of IHDR; taking it out again gives the input back. */
  lemma AddPhysSplices(data: seq<byte>, ppm: int)
    requires AddPhys(data, ppm).Success? && ppm > 0
    ensures var out, e := AddPhys(data, ppm).value, IhdrEnd(data);
            && |out| == |data| + 21
            && out[..e] == data[..e]
            && out[e..e + 21] == PhysChunk(ppm)
            && out[e + 21..] == data[e..]
            && out[..e] + out[e + 21..] == data
  {
    var out, e := AddPhys(data, ppm).value, IhdrEnd(data);
    assert out == data[..e] + PhysChunk(ppm) + data[e..];
    assert data[..e] + data[e..] == data;
  }

  /** The spliced stream still has the signature and the same IHDR chunk first, so it
      passes the checks again. */
  lemma AddPhysKeepsHeader(data: seq<byte>, ppm: int)
    requires AddPhys(data, ppm).Success?
    ensures var out := AddPhys(data, ppm).value;
            |out| >= 20 && out[..8] == Signature && out[12..16] == IHDR &&
            out[..IhdrEnd(data)] == data[..IhdrEnd(data)] && IhdrEnd(out) == IhdrEnd(data) &&
            AddPhys(out, ppm).Success?
  {
    if ppm > 0 {
      AddPhysSplices(data, ppm);
      var out, e := AddPhys(data, ppm).value, IhdrEnd(data);
      assert e >= 20;
      assert out[..8] == out[..e][..8] == data[..e][..8] == data[..8];
      assert out[8..12] == out[..e][8..12] == data[..e][8..12] == data[8..12];
      assert out[12..16] == out[..e][12..16] == data[..e][12..16] == data[12..16];
    }
  }

  /** A chunk as read from a stream. */
  datatype Chunk = Chunk(length: U32, kind: seq<byte>, data: seq<byte>, crc: U32)

  /** Reads the chunk that starts at `at`, if the stream holds all of it. */
  function ChunkAt(s: seq<byte>, at: nat): (c: Option<Chunk>)
    ensures c.Some? ==> |c.value.kind| == 4 && |c.value.data| == c.value.length
  {
    if at + 8 > |s| then None
    else
      var length := DecodeBE32(s[at..at + 4]);
      if at + 8 + length + 4 > |s| then None
      else Some(Chunk(length, s[at + 4..at + 8], s[at + 8..at + 8 + length],
                      DecodeBE32(s[at + 8 + length..at + 8 + length + 4])))
  }

  /** The CRC stored in a chunk matches its type and data. */
  predicate CrcOk(c: Chunk)
  {
    c.crc == Crc32(c.kind + c.data)
  }

  /** The IHDR chunk reads the same from the spliced stream as from the input, and ends
      where the pHYs chunk starts. */
  lemma AddPhysKeepsIhdrChunk(data: seq<byte>, ppm: int)
    requires AddPhys(data, ppm).Success? && ppm > 0
    ensures var out, e := AddPhys(data, ppm).value, IhdrEnd(data);
            && ChunkAt(out, 8) == ChunkAt(data, 8)
            && ChunkAt(out, 8).Some? && ChunkAt(out, 8).value.kind == IHDR
            && 8 + 8 + ChunkAt(out, 8).value.length + 4 == e
  {
    AddPhysSplices(data, ppm);
    var out, e := AddPhys(data, ppm).value, IhdrEnd(data);
    assert out[8..12] == out[..e][8..12];
    assert data[8..12] == data[..e][8..12];
    assert out[12..16] == out[..e][12..16];
    assert data[12..16] == data[..e][12..16];
    assert out[16..e - 4] == out[..e][16..e - 4];
    assert data[16..e - 4] == data[..e][16..e - 4];
    assert out[e - 4..e] == out[..e][e - 4..e];
    assert data[e - 4..e] == data[..e][e - 4..e];
  }

  /** A chunk of nine data bytes laid out by section 5.3 reads back as its parts,
      wherever it sits in a stream. */
  lemma ChunkAtNine(s: seq<byte>, at: nat, kind: seq<byte>, d: seq<byte>, crc: U32)
    requires |kind| == 4 && |d| == 9
    requires at + 21 <= |s| && s[at..at + 21] == BE32(9) + kind + d + BE32(crc)
    ensures ChunkAt(s, at) == Some(Chunk(9, kind, d, crc))
  {
    var piece := s[at..at + 21];
    assert forall i | 0 <= i < 4 :: s[at + i] == piece[i] == BE32(9)[i];
    assert s[at..at + 4] == BE32(9);
    DecodeEncodeBE32(9);
    assert forall i | 0 <= i < 4 :: s[at + 4 + i] == piece[4 + i] == kind[i];
    assert s[at + 4..at + 8] == kind;
    assert forall i | 0 <= i < 9 :: s[at + 8 + i] == piece[8 + i] == d[i];
    assert s[at + 8..at + 17] == d;
    assert forall i | 0 <= i < 4 :: s[at + 17 + i] == piece[17 + i] == BE32(crc)[i];
    assert s[at + 17..at + 21] == BE32(crc);
    DecodeEncodeBE32(crc);
  }

  /** The payload holds the resolution on both axes, then unit 1 (metre). */
  lemma PhysPayloadFields(ppm: int)
    ensures var d := PhysPayload(ppm);
            DecodeBE32(d[0..4]) == ToU32(ppm) && DecodeBE32(d[4..8]) == ToU32(ppm) && d[8] == 1
  {
    var d := PhysPayload(ppm);
    assert d[0..4] == BE32(ToU32(ppm));
    assert d[4..8] == BE32(ToU32(ppm));
    DecodeEncodeBE32(ToU32(ppm));
  }

  /** Reading back the inserted chunk gives a pHYs chunk of nine bytes with the
      resolution on both axes, unit metre, and a matching CRC. */
  lemma AddPhysRoundTrip(data: seq<byte>, ppm: int)
    requires AddPhys(data, ppm).Success? && ppm > 0
    ensures var out, e := AddPhys(data, ppm).value, IhdrEnd(data);
            && ChunkAt(out, e).Some?
            && var c := ChunkAt(out, e).value;
               && c.length == 9 && c.kind == PHYS && CrcOk(c)
               && DecodeBE32(c.data[0..4]) == ToU32(ppm) && DecodeBE32(c.data[4..8]) == ToU32(ppm)
               && c.data[8] == 1
  {
    AddPhysSplices(data, ppm);
    ChunkAtNine(AddPhys(data, ppm).value, IhdrEnd(data), PHYS, PhysPayload(ppm),
                Crc32(PHYS + PhysPayload(ppm)));
    PhysPayloadFields(ppm);
  }

  /** Four bytes of v written big-endian into buf at i (binary.BigEndian.PutUint32). */
  method PutUint32(buf: array<byte>, i: nat, v: U32)
    requires i + 4 <= buf.Length
    modifies buf
    ensures buf[..] == old(buf[..i]) + BE32(v) + old(buf[i + 4..])
  {
    buf[i] := (v / 0x100_0000) as byte;
    buf[i + 1] := (v / 0x1_0000 % 0x100) as byte;
    buf[i + 2] := (v / 0x100 % 0x100) as byte;
    buf[i + 3] := (v % 0x100) as byte;
  }

  /** Go's math.Round: to the nearest integer, halves away from zero. */
  function Round(x: real): (n: int)
    ensures x >= 0.0 ==> n as real <= x + 0.5 < n as real + 1.0
    ensures x < 0.0 ==> n as real - 1.0 < x - 0.5 <= n as real
  {
    if x >= 0.0 then (x + 0.5).Floor else -((-x + 0.5).Floor)
  }

  /** Dots per inch to pixels per metre. */
  function Ppm(dpi: real): int
  {
    Round(dpi / 0.0254)
  }

  /** A resolution gives a positive pixels-per-metre figure exactly from 0.0127 dpi on,
      the point where rounding leaves at least one. */
  lemma PpmPositiveIff(dpi: real)
    ensures Ppm(dpi) > 0 <==> dpi >= 0.0127
  {
    var x := dpi / 0.0254;
    assert dpi >= 0.0127 <==> x >= 0.5;
  }

  /** addPhysChunk (src/png.go:26-85): checks the stream, then fills the nine-byte pHYs
      payload in place, builds the chunk, and writes the head, the chunk and the tail. */
  method AddPhysChunk(pngData: seq<byte>, dpi: real) returns (r: Result<seq<byte>, string>)
    ensures r == AddPhys(pngData, Ppm(dpi))
  {
    if |pngData| < |Signature| + 12 {
      return Failure("invalid png data");
    }
    if pngData[..|Signature|] != Signature {
      return Failure("invalid png signature");
    }
    var offset := |Signature|;
    if |pngData[offset..]| < 8 {
      return Failure("invalid png header");
    }
    var ihdrLen := DecodeBE32(pngData[offset..offset + 4]);
    var chunkType := pngData[offset + 4..offset + 8];
    if chunkType != IHDR {
      return Failure("missing IHDR chunk");
    }
    var ihdrEnd := offset + 8 + ihdrLen + 4;
    if ihdrEnd > |pngData| {
      return Failure("invalid IHDR length");
    }
    var ppm := Round(dpi / 0.0254);
    if ppm <= 0 {
      return Success(pngData);
    }
    var physData := new byte[9];
    PutUint32(physData, 0, ToU32(ppm));
    PutUint32(physData, 4, ToU32(ppm));
    physData[8] := 1;
    assert physData[..] == PhysPayload(ppm);
    var chunk := BE32(9);
    chunk := chunk + PHYS;
    chunk := chunk + physData[..];
    var crc := Crc32(PHYS + physData[..]);
    chunk := chunk + BE32(crc);
    var out := pngData[..ihdrEnd];
    out := out + chunk;
    out := out + pngData[ihdrEnd..];
    return Success(out);
  }

  /** encodePNGWithDPI after png.Encode: the encoded stream as it is for a non-positive
      resolution, otherwise with the pHYs chunk spliced in. */
  method EncodePngWithDpi(encoded: seq<byte>, dpi: real) returns (r: Result<seq<byte>, string>)
    ensures dpi <= 0.0 ==> r == Success(encoded)
    ensures dpi > 0.0 ==> r == AddPhys(encoded, Ppm(dpi))
  {
    if dpi <= 0.0 {
      return Success(encoded);
    }
    r := AddPhysChunk(encoded, dpi);
  }
}
