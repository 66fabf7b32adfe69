/** Buffered SHA-256, against the block fold over the padded message of FIPS
    180-4, sections 5.1.1 and 6.2. */
module Sha256 {
  import opened Primitives

  // ---- The standard ----

  /** The round constants, eight to a row. */
  function ConstantRow(i: nat): (r: seq<bv32>)
    requires i < 8
    ensures |r| == 8
  {
    match i
    case 0 => [0x428a2f98, 0x71374491, 0xb5c0fbcf, 0xe9b5dba5, 0x3956c25b, 0x59f111f1, 0x923f82a4, 0xab1c5ed5]
    case 1 => [0xd807aa98, 0x12835b01, 0x243185be, 0x550c7dc3, 0x72be5d74, 0x80deb1fe, 0x9bdc06a7, 0xc19bf174]
    case 2 => [0xe49b69c1, 0xefbe4786, 0x0fc19dc6, 0x240ca1cc, 0x2de92c6f, 0x4a7484aa, 0x5cb0a9dc, 0x76f988da]
    case 3 => [0x983e5152, 0xa831c66d, 0xb00327c8, 0xbf597fc7, 0xc6e00bf3, 0xd5a79147, 0x06ca6351, 0x14292967]
    case 4 => [0x27b70a85, 0x2e1b2138, 0x4d2c6dfc, 0x53380d13, 0x650a7354, 0x766a0abb, 0x81c2c92e, 0x92722c85]
    case 5 => [0xa2bfe8a1, 0xa81a664b, 0xc24b8b70, 0xc76c51a3, 0xd192e819, 0xd6990624, 0xf40e3585, 0x106aa070]
    case 6 => [0x19a4c116, 0x1e376c08, 0x2748774c, 0x34b0bcb5, 0x391c0cb3, 0x4ed8aa4a, 0x5b9cca4f, 0x682e6ff3]
    case _ => [0x748f82ee, 0x78a5636f, 0x84c87814, 0x8cc70208, 0x90befffa, 0xa4506ceb, 0xbef9a3f7, 0xc67178f2]
  }

  function Constant(t: nat): bv32
    requires t < 64
  {
    ConstantRow(t / 8)[t % 8]
  }

  type Chain = s: seq<bv32> | |s| == 8 witness [0, 0, 0, 0, 0, 0, 0, 0]

  function Initial(): Chain
  {
    [0x6a09e667, 0xbb67ae85, 0x3c6ef372, 0xa54ff53a, 0x510e527f, 0x9b05688c, 0x1f83d9ab, 0x5be0cd19]
  }

  // Words are 32-bit vectors; their addition is modulo 2^32.

  function Rotr(x: bv32, n: bv6): bv32
    requires 0 < n < 32
  {
    (x >> n) | (x << (32 - n))
  }

  function Choose(e: bv32, f: bv32, g: bv32): bv32 { (e & f) ^ (!e & g) }

  function Majority(a: bv32, b: bv32, c: bv32): bv32 { (a & b) ^ (a & c) ^ (b & c) }

  function BigSigma0(x: bv32): bv32 { Rotr(x, 2) ^ Rotr(x, 13) ^ Rotr(x, 22) }
  function BigSigma1(x: bv32): bv32 { Rotr(x, 6) ^ Rotr(x, 11) ^ Rotr(x, 25) }
  function SmallSigma0(x: bv32): bv32 { Rotr(x, 7) ^ Rotr(x, 18) ^ (x >> 3) }
  function SmallSigma1(x: bv32): bv32 { Rotr(x, 17) ^ Rotr(x, 19) ^ (x >> 10) }

  /** Four bytes as a word, most significant first. */
  function WordOf(b0: u8, b1: u8, b2: u8, b3: u8): bv32
  {
    ((b0 as bv32) << 24) | ((b1 as bv32) << 16) | ((b2 as bv32) << 8) | (b3 as bv32)
  }

  function WordAt(block: seq<u8>, t: nat): bv32
    requires |block| == 64 && t < 16
  {
    WordOf(block[t * 4], block[t * 4 + 1], block[t * 4 + 2], block[t * 4 + 3])
  }

  function Expanded(w2: bv32, w7: bv32, w15: bv32, w16: bv32): bv32
  {
    SmallSigma1(w2) + w7 + SmallSigma0(w15) + w16
  }

  /** The message schedule. */
  function Schedule(block: seq<u8>, t: nat): bv32
    requires |block| == 64 && t < 64
  {
    if t < 16 then WordAt(block, t)
    else Expanded(Schedule(block, t - 2), Schedule(block, t - 7), Schedule(block, t - 15), Schedule(block, t - 16))
  }

  datatype Working = Working(a: bv32, b: bv32, c: bv32, d: bv32, e: bv32, f: bv32, g: bv32, h: bv32)

  function Round(v: Working, k: bv32, w: bv32): Working
  {
    var t1 := v.h + BigSigma1(v.e) + Choose(v.e, v.f, v.g) + k + w;
    var t2 := BigSigma0(v.a) + Majority(v.a, v.b, v.c);
    Working(t1 + t2, v.a, v.b, v.c, v.d + t1, v.e, v.f, v.g)
  }

  function Loaded(s: Chain): Working { Working(s[0], s[1], s[2], s[3], s[4], s[5], s[6], s[7]) }

  function Rounds(s: Chain, block: seq<u8>, t: nat): Working
    requires |block| == 64 && t <= 64
  {
    if t == 0 then Loaded(s) else Round(Rounds(s, block, t - 1), Constant(t - 1), Schedule(block, t - 1))
  }

  function Chained(s: Chain, v: Working): Chain
  {
    [s[0] + v.a, s[1] + v.b, s[2] + v.c, s[3] + v.d, s[4] + v.e, s[5] + v.f, s[6] + v.g, s[7] + v.h]
  }

  function Compress(s: Chain, block: seq<u8>): Chain
    requires |block| == 64
  {
    Chained(s, Rounds(s, block, 64))
  }

  /** The chaining value after whole blocks. */
  function BlockFold(data: seq<u8>): Chain
    requires |data| % 64 == 0
  {
    if data == [] then Initial()
    else Compress(BlockFold(data[..|data|-64]), data[|data|-64..])
  }

  /** Byte `j` of a 64-bit number, counted from the least significant. */
  function ByteOf(x: u64, j: nat): u8 { (x / Pow256(j)) % 256 }

  function BigEndian(x: u64): seq<u8>
  {
    [ByteOf(x, 7), ByteOf(x, 6), ByteOf(x, 5), ByteOf(x, 4), ByteOf(x, 3), ByteOf(x, 2), ByteOf(x, 1), ByteOf(x, 0)]
  }

  function Zeros(k: nat): (r: seq<u8>)
    ensures |r| == k
  {
    seq(k, _ => 0)
  }

  /** Zero bytes between the marker byte and the length. */
  function ZeroCount(n: nat): nat { (55 - n) % 64 }

  const BYTE_LIMIT: int := 0x2000_0000_0000_0000

  /** Marker byte, zero bytes, 64-bit length. */
  function PaddedWith(message: seq<u8>, bits: u64): seq<u8>
  {
    message + [0x80] + Zeros(ZeroCount(|message|)) + BigEndian(bits)
  }

  /** The padded message; the bit length fits 64 bits below 2^61 bytes. */
  function Padded(message: seq<u8>): seq<u8>
    requires |message| < BYTE_LIMIT
  {
    PaddedWith(message, 8 * |message|)
  }

  /** `k` zero bits after the marker bring `l` bits to 448 modulo 512. */
  predicate Completes(l: nat, k: nat) { (l + 1 + k) % 512 == 448 }

  lemma {:induction false} Remainder512(q: int, r: nat)
    requires r < 512
    ensures (512 * q + r) % 512 == r
  {
  }

  lemma {:induction false} SmallestCompletion(n: nat)
    ensures Completes(8 * n, 7 + 8 * ZeroCount(n))
    ensures forall j: nat :: j < 7 + 8 * ZeroCount(n) ==> !Completes(8 * n, j)
    ensures (n + 1 + ZeroCount(n)) % 64 == 56
  {
    var z := ZeroCount(n);
    var q := (n + 1 + z) / 64;
    assert (n + 1 + z) % 64 == 56;
    assert n + 1 + z == 64 * q + 56;
    assert 8 * n + 1 + (7 + 8 * z) == 512 * q + 448;
    Remainder512(q, 448);
    forall j: nat | j < 7 + 8 * z ensures !Completes(8 * n, j) {
      var d := 7 + 8 * z - j;
      assert 8 * n + 1 + j == 512 * q + 448 - d;
      if d <= 448 { Remainder512(q, 448 - d); } else { Remainder512(q - 1, 960 - d); }
    }
  }

  /** In bits: one marker bit, then the smallest number of zero bits that brings
      the length to 448 modulo 512, then 64 bits of length. */
  lemma {:induction false} PaddingMeetsTheStandard(message: seq<u8>)
    requires |message| < BYTE_LIMIT
    ensures |Padded(message)| % 64 == 0
    ensures 8 * |Padded(message)| == 8 * |message| + 1 + (7 + 8 * ZeroCount(|message|)) + 64
    ensures Completes(8 * |message|, 7 + 8 * ZeroCount(|message|))
    ensures forall j: nat :: j < 7 + 8 * ZeroCount(|message|) ==> !Completes(8 * |message|, j)
  {
    hide ZeroCount, Completes, ByteOf;
    SmallestCompletion(|message|);
    LengthOfPadded(message, 8 * |message|);
  }

  lemma {:induction false} LengthOfPadded(message: seq<u8>, bits: u64)
    ensures |PaddedWith(message, bits)| == |message| + 1 + ZeroCount(|message|) + 8
    ensures |PaddedWith(message, bits)| % 64 == 0
  {
    hide ByteOf, ZeroCount;
    SmallestCompletion(|message|);
  }

  /** The digest when the length field holds the bit length modulo 2^64. */
  function WrappedDigest(message: seq<u8>): seq<u8>
  {
    LengthOfPadded(message, BitLength(|message|));
    Serialized(BlockFold(PaddedWith(message, BitLength(|message|))))
  }

  function BitLength(n: nat): u64 { (8 * n) % (MAX64 + 1) }

  /** The digest of the standard. */
  function Digest(message: seq<u8>): seq<u8>
    requires |message| < BYTE_LIMIT
  {
    LengthOfPadded(message, 8 * |message|);
    Serialized(BlockFold(Padded(message)))
  }

  /** The four bytes of a word, most significant first. */
  function WordBytes(w: bv32): seq<u8> { NumberBytes(w as int) }

  function NumberBytes(x: u32): seq<u8>
  {
    [x / 0x100_0000, x / 0x1_0000 % 256, x / 0x100 % 256, x % 256]
  }

  function Serialized(s: Chain): seq<u8>
  {
    WordBytes(s[0]) + WordBytes(s[1]) + WordBytes(s[2]) + WordBytes(s[3])
    + WordBytes(s[4]) + WordBytes(s[5]) + WordBytes(s[6]) + WordBytes(s[7])
  }

  // ---- The incremental implementation ----

  lemma {:induction false} FoldBlock(data: seq<u8>, block: seq<u8>)
    requires |data| % 64 == 0 && |block| == 64
    ensures BlockFold(data + block) == Compress(BlockFold(data), block)
  {
    hide Compress;
    assert (data + block)[..|data|] == data && (data + block)[|data|..] == block;
  }

  /** Whole blocks are folded into the chaining value, the rest is buffered. */
  ghost predicate Absorbed(message: seq<u8>, chain: Chain, buffered: seq<u8>, bits: u64)
  {
    && |buffered| == |message| % 64
    && buffered == message[|message| - |buffered|..]
    && chain == BlockFold(message[..|message| - |buffered|])
    && bits == BitLength(|message| - |buffered|)
  }

  lemma {:induction false} NothingAbsorbed()
    ensures Absorbed([], Initial(), [], 0)
  {
  }

  lemma {:induction false} AbsorbByte(message: seq<u8>, chain: Chain, buffered: seq<u8>, bits: u64, b: u8)
    requires |buffered| < 63 && Absorbed(message, chain, buffered, bits)
    ensures Absorbed(message + [b], chain, buffered + [b], bits)
  {
    hide BlockFold, BitLength;
    var whole := message[..|message| - |buffered|];
    assert message == whole + buffered;
    assert (message + [b])[..|whole|] == whole;
  }

  lemma {:induction false} AbsorbBlock(message: seq<u8>, chain: Chain, buffered: seq<u8>, bits: u64, b: u8, more: u64)
    requires |buffered| == 63 && more == (bits + 512) % (MAX64 + 1)
    requires Absorbed(message, chain, buffered, bits)
    ensures Absorbed(message + [b], Compress(chain, buffered + [b]), [], more)
  {
    hide BlockFold, Compress, BitLength;
    var whole := message[..|message| - |buffered|];
    assert message == whole + buffered;
    FoldBlock(whole, buffered + [b]);
    BitsGrow(|whole|);
    assert message + [b] == whole + (buffered + [b]);
    assert (message + [b])[..|message + [b]|] == message + [b];
  }

  lemma {:induction false} FinishShort(message: seq<u8>, chain: Chain, buffered: seq<u8>, bits: u64, more: u64, last: seq<u8>)
    requires |buffered| < 56 && |last| == 64 && more == (bits + |buffered| * 8) % (MAX64 + 1)
    requires last == buffered + [0x80] + Zeros(55 - |buffered|) + BigEndian(more)
    requires Absorbed(message, chain, buffered, bits)
    ensures WrappedDigest(message) == Serialized(Compress(chain, last))
  {
    hide BlockFold, Compress, BitLength, PaddedWith, ByteOf, Zeros, Serialized;
    var whole := message[..|message| - |buffered|];
    assert message == whole + buffered;
    BitsAdd(|whole|, |buffered|);
    ShortPadding(whole, buffered, more);
    FoldBlock(whole, last);
  }

  lemma {:induction false} FinishLong(
      message: seq<u8>, chain: Chain, buffered: seq<u8>, bits: u64, more: u64, first: seq<u8>, last: seq<u8>)
    requires 56 <= |buffered| < 64 && |first| == |last| == 64 && more == (bits + |buffered| * 8) % (MAX64 + 1)
    requires first == buffered + [0x80] + Zeros(63 - |buffered|) && last == Zeros(56) + BigEndian(more)
    requires Absorbed(message, chain, buffered, bits)
    ensures WrappedDigest(message) == Serialized(Compress(Compress(chain, first), last))
  {
    hide BlockFold, Compress, BitLength, PaddedWith, ByteOf, Zeros, Serialized;
    var whole := message[..|message| - |buffered|];
    assert message == whole + buffered;
    BitsAdd(|whole|, |buffered|);
    LongPadding(whole, buffered, more);
    FoldBlock(whole, first);
    FoldBlock(whole + first, last);
  }

  class Sha256 {
    const state: array<bv32>
    const buffer: array<u8>
    var bitLen: u64
    var bufLen: nat
    ghost var message: seq<u8>

    ghost predicate Valid()
      reads this, state, buffer
    {
      && state.Length == 8 && buffer.Length == 64 && bufLen < 64
      && Absorbed(message, state[..], buffer[..bufLen], bitLen)
    }

    constructor ()
      ensures Valid() && message == [] && fresh(state) && fresh(buffer)
    {
      hide Initial, Absorbed;
      state := new bv32[8];
      buffer := new u8[64];
      bitLen, bufLen := 0, 0;
      message := [];
      new;
      for i := 0 to 8
        invariant state[..i] == Initial()[..i] && bufLen == 0 && bitLen == 0 && message == []
      {
        state[i] := Initial()[i];
      }
      assert state[..] == Initial();
      assert buffer[..0] == [];
      NothingAbsorbed();
    }

    /** Compresses the buffer into the state. */
    method Transform()
      requires state.Length == 8 && buffer.Length == 64
      modifies state
      ensures state[..] == Compress(old(state[..]), buffer[..])
    {
      hide WordAt, Schedule, Round, Constant, Rounds, Expanded, Chained;
      ghost var block := buffer[..];
      ghost var s: Chain := state[..];
      var m := new bv32[64];
      for i := 0 to 16
        invariant forall k :: 0 <= k < i ==> m[k] == Schedule(block, k)
        invariant buffer[..] == block && state[..] == s
      {
        assert buffer[..] == block;
        ScheduleStart(block, i);
        m[i] := WordAt(buffer[..], i);
      }
      for i := 16 to 64
        invariant forall k :: 0 <= k < i ==> m[k] == Schedule(block, k)
        invariant buffer[..] == block && state[..] == s
      {
        ScheduleNext(block, i);
        m[i] := Expanded(m[i - 2], m[i - 7], m[i - 15], m[i - 16]);
      }
      var v := Working(state[0], state[1], state[2], state[3], state[4], state[5], state[6], state[7]);
      RoundsStart(s, block);
      for i := 0 to 64
        invariant v == Rounds(s, block, i)
        invariant forall k :: 0 <= k < 64 ==> m[k] == Schedule(block, k)
        invariant buffer[..] == block && state[..] == s
      {
        RoundsNext(s, block, i);
        v := Round(v, Constant(i), m[i]);
      }
      AddToState(v);
    }

    /** Adds the working variables to the state. */
    method AddToState(v: Working)
      requires state.Length == 8
      modifies state
      ensures state[..] == Chained(old(state[..]), v)
    {
      hide Chained;
      var next := Chained(state[..], v);
      for i := 0 to 8
        invariant state[..i] == next[..i]
      {
        state[i] := next[i];
      }
    }

    /** Absorbs bytes one at a time: the message grows by exactly the data. */
    method Update(data: seq<u8>)
      requires Valid()
      modifies this`bitLen, this`bufLen, this`message, state, buffer
      ensures Valid() && message == old(message) + data
    {
      hide Absorbed;
      for i := 0 to |data|
        invariant Valid() && message == old(message) + data[..i]
      {
        UpdateByte(data[i]);
        assert data[..i+1] == data[..i] + [data[i]];
      }
      assert data[..|data|] == data;
    }

    method UpdateByte(b: u8)
      requires Valid()
      modifies this`bitLen, this`bufLen, this`message, state, buffer
      ensures Valid() && message == old(message) + [b]
    {
      hide Absorbed, Compress;
      ghost var chain, buffered := state[..], buffer[..bufLen];
      buffer[bufLen] := b;
      bufLen := bufLen + 1;
      assert buffer[..bufLen] == buffered + [b];
      if bufLen == 64 {
        assert buffer[..] == buffered + [b];
        Transform();
        AbsorbBlock(message, chain, buffered, bitLen, b, (bitLen + 512) % (MAX64 + 1));
        bitLen := (bitLen + 512) % (MAX64 + 1);
        bufLen := 0;
        assert buffer[..0] == [];
      } else {
        AbsorbByte(message, chain, buffered, bitLen, b);
      }
      message := message + [b];
    }

    /** Zeroes buffer positions `from` to `to`. */
    method ZeroFill(from: nat, to: nat)
      requires buffer.Length == 64 && from <= to <= 64
      modifies buffer
      ensures buffer[..from] == old(buffer[..from]) && buffer[to..] == old(buffer[to..])
      ensures buffer[from..to] == Zeros(to - from)
    {
      for i := from to to
        invariant buffer[..from] == old(buffer[..from]) && buffer[i..] == old(buffer[i..])
        invariant forall k :: from <= k < i ==> buffer[k] == 0
      {
        buffer[i] := 0;
      }
    }

    method WriteLength()
      requires buffer.Length == 64
      modifies buffer
      ensures buffer[..] == old(buffer[..56]) + BigEndian(bitLen)
    {
      hide ByteOf;
      buffer[56], buffer[57], buffer[58], buffer[59] := ByteOf(bitLen, 7), ByteOf(bitLen, 6), ByteOf(bitLen, 5), ByteOf(bitLen, 4);
      buffer[60], buffer[61], buffer[62], buffer[63] := ByteOf(bitLen, 3), ByteOf(bitLen, 2), ByteOf(bitLen, 1), ByteOf(bitLen, 0);
      assert buffer[..56] == old(buffer[..56]);
      assert buffer[56..] == BigEndian(bitLen);
      assert buffer[..] == buffer[..56] + buffer[56..];
    }

    /** The marker byte after the buffered bytes, then zeros up to `to`. */
    method MarkAndFill(to: nat)
      requires buffer.Length == 64 && bufLen < to <= 64
      modifies buffer
      ensures buffer[..to] == old(buffer[..bufLen]) + [0x80] + Zeros(to - 1 - bufLen)
    {
      hide Zeros;
      buffer[bufLen] := 0x80;
      assert buffer[..bufLen + 1] == old(buffer[..bufLen]) + [0x80];
      ZeroFill(bufLen + 1, to);
      assert buffer[..to] == buffer[..bufLen + 1] + buffer[bufLen + 1..to];
    }

    /** Pads and emits the digest; the context is spent. */
    method Finalize() returns (digest: seq<u8>)
      requires Valid()
      modifies this`bitLen, state, buffer
      ensures digest == WrappedDigest(message)
    {
      hide Absorbed, Compress, BigEndian, Zeros, WrappedDigest, Serialized;
      ghost var rest, chain, bits := buffer[..bufLen], state[..], bitLen;
      bitLen := (bitLen + bufLen * 8) % (MAX64 + 1);
      if bufLen < 56 {
        MarkAndFill(56);
        WriteLength();
        FinishShort(message, chain, rest, bits, bitLen, buffer[..]);
        Transform();
      } else {
        MarkAndFill(64);
        ghost var first := buffer[..];
        assert first == buffer[..64];
        Transform();
        ZeroFill(0, 56);
        assert buffer[..56] == buffer[0..56];
        WriteLength();
        FinishLong(message, chain, rest, bits, bitLen, first, buffer[..]);
        Transform();
      }
      digest := Serialized(state[..]);
    }

    static method Hash(data: seq<u8>) returns (digest: seq<u8>)
      ensures digest == WrappedDigest(data)
    {
      hide WrappedDigest, Absorbed;
      var ctx := new Sha256();
      ctx.Update(data);
      assert [] + data == data;
      digest := ctx.Finalize();
    }

    /** Any way of splitting a message across updates. */
    static method HashPieces(pieces: seq<seq<u8>>) returns (digest: seq<u8>)
      ensures digest == WrappedDigest(Joined(pieces))
    {
      hide WrappedDigest, Absorbed;
      var ctx := new Sha256();
      for i := 0 to |pieces|
        invariant fresh(ctx) && fresh(ctx.state) && fresh(ctx.buffer)
        invariant ctx.Valid() && ctx.message == Joined(pieces[..i])
      {
        assert pieces[..i+1][..i] == pieces[..i];
        ctx.Update(pieces[i]);
      }
      assert pieces[..|pieces|] == pieces;
      digest := ctx.Finalize();
    }
  }

  function Joined(pieces: seq<seq<u8>>): seq<u8>
  {
    if pieces == [] then [] else Joined(pieces[..|pieces|-1]) + pieces[|pieces|-1]
  }

  /** Below 2^61 bytes the implementation computes the standard's digest. */
  lemma {:induction false} WrappedDigestIsStandard(message: seq<u8>)
    requires |message| < BYTE_LIMIT
    ensures WrappedDigest(message) == Digest(message)
  {
    hide BlockFold, PaddedWith, Serialized;
  }

  lemma {:induction false} BitsAdd(n: nat, k: nat)
    ensures (BitLength(n) + k * 8) % (MAX64 + 1) == BitLength(n + k)
  {
  }

  lemma {:induction false} ShortZeros(whole: nat, rest: nat)
    requires whole % 64 == 0
    ensures rest < 56 ==> ZeroCount(whole + rest) == 55 - rest
    ensures 56 <= rest < 64 ==> ZeroCount(whole + rest) == (63 - rest) + 56
  {
    var q := whole / 64;
    assert whole == 64 * q;
    if rest < 56 { assert 55 - (whole + rest) == 64 * (-q) + (55 - rest); }
    if 56 <= rest < 64 { assert 55 - (whole + rest) == 64 * (-q - 1) + (119 - rest); }
  }

  /** Up to 55 buffered bytes, the padding completes one block. */
  lemma {:induction false} ShortPadding(whole: seq<u8>, rest: seq<u8>, bits: u64)
    requires |whole| % 64 == 0 && |rest| < 56
    ensures PaddedWith(whole + rest, bits) == whole + (rest + [0x80] + Zeros(55 - |rest|) + BigEndian(bits))
  {
    hide BigEndian, Zeros, ZeroCount;
    ShortZeros(|whole|, |rest|);
  }

  /** From 56 buffered bytes, it spills into a second block. */
  lemma {:induction false} LongPadding(whole: seq<u8>, rest: seq<u8>, bits: u64)
    requires |whole| % 64 == 0 && 56 <= |rest| < 64
    ensures PaddedWith(whole + rest, bits)
         == whole + (rest + [0x80] + Zeros(63 - |rest|)) + (Zeros(56) + BigEndian(bits))
  {
    hide BigEndian, ZeroCount;
    ShortZeros(|whole|, |rest|);
    assert Zeros((63 - |rest|) + 56) == Zeros(63 - |rest|) + Zeros(56);
  }

  lemma {:induction false} BitsGrow(n: nat)
    ensures (BitLength(n) + 512) % (MAX64 + 1) == BitLength(n + 64)
  {
  }

  lemma {:induction false} ScheduleStart(block: seq<u8>, t: nat)
    requires |block| == 64 && t < 16
    ensures Schedule(block, t) == WordAt(block, t)
  {
    hide WordAt;
  }

  lemma {:induction false} ScheduleNext(block: seq<u8>, t: nat)
    requires |block| == 64 && 16 <= t < 64
    ensures Schedule(block, t)
         == Expanded(Schedule(block, t - 2), Schedule(block, t - 7), Schedule(block, t - 15), Schedule(block, t - 16))
  {
    hide WordAt, Expanded;
  }

  lemma {:induction false} RoundsStart(s: Chain, block: seq<u8>)
    requires |block| == 64
    ensures Rounds(s, block, 0) == Loaded(s)
  {
  }

  lemma {:induction false} RoundsNext(s: Chain, block: seq<u8>, t: nat)
    requires |block| == 64 && t < 64
    ensures Rounds(s, block, t + 1) == Round(Rounds(s, block, t), Constant(t), Schedule(block, t))
  {
    hide Round, Constant, Schedule, Loaded;
  }

  // ---- Distinct messages stay distinct up to compression ----

  lemma {:induction false} QuotientSplits(x: nat, p: nat)
    requires p > 0
    ensures x / (256 * p) == (x / 256) / p
  {
    var a, r := x / 256, x % 256;
    var q, s := a / p, a % p;
    assert x == 256 * a + r && a == p * q + s;
    assert x == (256 * p) * q + (256 * s + r) by { assert 256 * (p * q) == (256 * p) * q; }
    assert 0 <= 256 * s + r < 256 * p;
    QuotientIs(x, 256 * p, q, 256 * s + r);
  }

  lemma {:induction false} QuotientIs(x: nat, d: nat, q: nat, r: nat)
    requires d > 0 && x == d * q + r && r < d
    ensures x / d == q
  {
    QuotientBound(x, d, q);
    QuotientBound(x, d, q + 1);
    assert d * (q + 1) == d * q + d;
  }

  lemma {:induction false} NextByte(x: u64, j: nat)
    ensures ByteOf(x, j + 1) == ByteOf(x / 256, j)
  {
    QuotientSplits(x, Pow256(j));
  }

  /** The lowest `n` bytes of two numbers agree. */
  ghost predicate SameBytes(x: u64, y: u64, n: nat)
  {
    forall j: nat :: j < n ==> ByteOf(x, j) == ByteOf(y, j)
  }

  lemma {:induction false} BytesDetermine(x: u64, y: u64, n: nat)
    requires SameBytes(x, y, n) && x < Pow256(n) && y < Pow256(n)
    ensures x == y
  {
    if n > 0 {
      assert ByteOf(x, 0) == x % 256 && ByteOf(y, 0) == y % 256;
      forall j: nat | j < n - 1 ensures ByteOf(x / 256, j) == ByteOf(y / 256, j) {
        NextByte(x, j);
        NextByte(y, j);
        assert ByteOf(x, j + 1) == ByteOf(y, j + 1);
      }
      BytesDetermine(x / 256, y / 256, n - 1);
    }
  }

  lemma {:induction false} BigEndianInjective(x: u64, y: u64)
    requires BigEndian(x) == BigEndian(y)
    ensures x == y
  {
    hide ByteOf, Pow256;
    forall j: nat | j < 8 ensures ByteOf(x, j) == ByteOf(y, j) {
      assert BigEndian(x)[7 - j] == ByteOf(x, j) && BigEndian(y)[7 - j] == ByteOf(y, j);
    }
    WordSizes();
    BytesDetermine(x, y, 8);
  }

  /** Distinct messages have distinct padded messages. */
  lemma {:induction false} PaddingIsInjective(m: seq<u8>, n: seq<u8>)
    requires |m| < BYTE_LIMIT && |n| < BYTE_LIMIT && Padded(m) == Padded(n)
    ensures m == n
  {
    hide BigEndian, Zeros, ZeroCount;
    var x: u64, y: u64 := 8 * |m|, 8 * |n|;
    var a, b := m + [0x80] + Zeros(ZeroCount(|m|)), n + [0x80] + Zeros(ZeroCount(|n|));
    assert |BigEndian(x)| == 8 && |BigEndian(y)| == 8 by { EightLong(x); EightLong(y); }
    assert (a + BigEndian(x))[|a|..] == BigEndian(x) && (b + BigEndian(y))[|b|..] == BigEndian(y);
    BigEndianInjective(x, y);
    assert m == (a + BigEndian(x))[..|m|] && n == (b + BigEndian(y))[..|n|];
  }

  lemma {:induction false} EightLong(x: u64)
    ensures |BigEndian(x)| == 8
  {
    hide ByteOf;
  }

  // ---- The commitment scheme's three domains ----

  /** `FC_LEAF_`, `FC_NODE_` and `FC_EMPTY_NODE`. */
  const LEAF_PREFIX: seq<u8> := [70, 67, 95, 76, 69, 65, 70, 95]
  const NODE_PREFIX: seq<u8> := [70, 67, 95, 78, 79, 68, 69, 95]
  const EMPTY_PREFIX: seq<u8> := [70, 67, 95, 69, 77, 80, 84, 89, 95, 78, 79, 68, 69]

  predicate Spells(s: seq<u8>, text: string)
  {
    |s| == |text| && forall i :: 0 <= i < |s| ==> s[i] == text[i] as int
  }

  lemma {:induction false} PrefixesSpell()
    ensures Spells(LEAF_PREFIX, "FC_LEAF_") && Spells(NODE_PREFIX, "FC_NODE_") && Spells(EMPTY_PREFIX, "FC_EMPTY_NODE")
  {
  }

  method CommitRawBytes(data: seq<u8>) returns (digest: seq<u8>)
    ensures digest == WrappedDigest(LEAF_PREFIX + data)
  {
    hide WrappedDigest, Absorbed;
    var hasher := new Sha256();
    hasher.Update(LEAF_PREFIX);
    assert [] + LEAF_PREFIX == LEAF_PREFIX;
    hasher.Update(data);
    digest := hasher.Finalize();
  }

  method CombineNodes(left: seq<u8>, right: seq<u8>) returns (digest: seq<u8>)
    ensures digest == WrappedDigest(NODE_PREFIX + left + right)
  {
    hide WrappedDigest, Absorbed;
    var hasher := new Sha256();
    hasher.Update(NODE_PREFIX);
    assert [] + NODE_PREFIX == NODE_PREFIX;
    hasher.Update(left);
    hasher.Update(right);
    digest := hasher.Finalize();
  }

  method EmptyNode() returns (digest: seq<u8>)
    ensures digest == WrappedDigest(EMPTY_PREFIX)
  {
    hide WrappedDigest, Absorbed;
    var hasher := new Sha256();
    hasher.Update(EMPTY_PREFIX);
    assert [] + EMPTY_PREFIX == EMPTY_PREFIX;
    digest := hasher.Finalize();
  }

  /** No byte string is hashed in two domains, and within a domain the hashed
      bytes determine what was committed. */
  lemma {:induction false} DomainsAreSeparate(x: seq<u8>, y: seq<u8>, l: seq<u8>, r: seq<u8>, l': seq<u8>, r': seq<u8>)
    ensures LEAF_PREFIX + x != NODE_PREFIX + l + r
    ensures LEAF_PREFIX + x != EMPTY_PREFIX && NODE_PREFIX + l + r != EMPTY_PREFIX
    ensures LEAF_PREFIX + x == LEAF_PREFIX + y ==> x == y
    ensures |l| == |l'| && NODE_PREFIX + l + r == NODE_PREFIX + l' + r' ==> l == l' && r == r'
  {
    assert (LEAF_PREFIX + x)[3] == 76 && (NODE_PREFIX + l + r)[3] == 78 && EMPTY_PREFIX[3] == 69;
    assert x == (LEAF_PREFIX + x)[8..] && y == (LEAF_PREFIX + y)[8..];
    if |l| == |l'| && NODE_PREFIX + l + r == NODE_PREFIX + l' + r' {
      var w, w' := NODE_PREFIX + l + r, NODE_PREFIX + l' + r';
      assert l == w[8..8 + |l|] && l' == w'[8..8 + |l|];
      assert r == w[8 + |l|..] && r' == w'[8 + |l|..];
    }
  }
}
