/** The buffering of faucet-wasm/nickminer/miner/keccak256.c: for every way of cutting a message
    into update calls, keccak_final returns KECCAK[512] of the whole message. */
module KeccakSponge {
  import opened KeccakSpec
  import opened KeccakPermutation

  const BLOCK_SIZE: nat := 136

  function Bits(m: seq<Byte>): (r: seq<bool>)
    ensures |r| == 8 * |m|
    decreases |m|
  {
    if m == [] then [] else
      var first: seq<bool> := m[0];
      first + Bits(m[1..])
  }

  lemma {:induction false} BitsConcat(a: seq<Byte>, b: seq<Byte>)
    ensures Bits(a + b) == Bits(a) + Bits(b)
    decreases |a|
  {
    if a == [] {
      assert a + b == b;
    } else {
      assert (a + b)[1..] == a[1..] + b;
      BitsConcat(a[1..], b);
    }
  }

  lemma SliceOfSum<T>(a: seq<T>, b: seq<T>, c: seq<T>)
    ensures (a + b + c)[|a|..|a| + |b|] == b
  {}

  lemma SplitThree<T>(m: seq<T>, i: nat, j: nat)
    requires i <= j <= |m|
    ensures m == m[..i] + m[i..j] + m[j..]
  {}

  /** A run of bytes is the matching run of bits. */
  lemma BitsSlice(m: seq<Byte>, i: nat, j: nat)
    requires i <= j <= |m|
    ensures Bits(m[i..j]) == Bits(m)[8 * i..8 * j]
  {
    var a, b, c := m[..i], m[i..j], m[j..];
    SplitThree(m, i, j);
    BitsConcat(a, b);
    BitsConcat(a + b, c);
    SliceOfSum(Bits(a), Bits(b), Bits(c));
  }

  // ------------------------------------------------------------------ absorbing bytes

  function BlockStep(s: State, block: seq<Byte>): State
    requires |block| == BLOCK_SIZE
  {
    Permutation(XorBlock(s, Bits(block)))
  }

  /** The state after the whole blocks of m. */
  function Absorbed(s: State, m: seq<Byte>): State
    decreases |m|
  {
    if |m| < BLOCK_SIZE then s else Absorbed(BlockStep(s, m[..BLOCK_SIZE]), m[BLOCK_SIZE..])
  }

  /** What is left of m after its whole blocks. */
  function Rest(m: seq<Byte>): (r: seq<Byte>)
    ensures |r| < BLOCK_SIZE && |r| == |m| % BLOCK_SIZE
    decreases |m|
  {
    if |m| < BLOCK_SIZE then m else Rest(m[BLOCK_SIZE..])
  }

  /** Absorbing a message in two parts: the second starts from what the first left over. */
  lemma {:induction false} AbsorbedConcat(s: State, a: seq<Byte>, b: seq<Byte>)
    ensures Absorbed(s, a + b) == Absorbed(Absorbed(s, a), Rest(a) + b)
    ensures Rest(a + b) == Rest(Rest(a) + b)
    decreases |a|
  {
    if |a| >= BLOCK_SIZE {
      assert (a + b)[..BLOCK_SIZE] == a[..BLOCK_SIZE];
      assert (a + b)[BLOCK_SIZE..] == a[BLOCK_SIZE..] + b;
      AbsorbedConcat(BlockStep(s, a[..BLOCK_SIZE]), a[BLOCK_SIZE..], b);
    }
  }

  /** The byte form of the sponge is its bit form. */
  lemma {:induction false} AbsorbedIs(s: State, m: seq<Byte>, tail: seq<bool>)
    ensures Absorb(s, Bits(m) + tail) == Absorb(Absorbed(s, m), Bits(Rest(m)) + tail)
    decreases |m|
  {
    if |m| >= BLOCK_SIZE {
      var head, rest := m[..BLOCK_SIZE], m[BLOCK_SIZE..];
      SplitBits(m, tail);
      AbsorbFirst(s, Bits(head), Bits(rest) + tail);
      AbsorbedIs(BlockStep(s, head), rest, tail);
    }
  }

  lemma SplitBits(m: seq<Byte>, tail: seq<bool>)
    requires |m| >= BLOCK_SIZE
    ensures Bits(m) + tail == Bits(m[..BLOCK_SIZE]) + (Bits(m[BLOCK_SIZE..]) + tail)
  {
    SplitTwo(m, BLOCK_SIZE);
    BitsOfSum(m, m[..BLOCK_SIZE], m[BLOCK_SIZE..], Bits(m[BLOCK_SIZE..]));
    Associate(Bits(m[..BLOCK_SIZE]), Bits(m[BLOCK_SIZE..]), tail);
  }

  lemma SplitTwo<T>(m: seq<T>, i: nat)
    requires i <= |m|
    ensures m == m[..i] + m[i..]
  {}

  lemma Associate<T>(a: seq<T>, b: seq<T>, c: seq<T>)
    ensures (a + b) + c == a + (b + c)
  {}

  lemma BitsOfSum(m: seq<Byte>, a: seq<Byte>, b: seq<Byte>, bits: seq<bool>)
    requires m == a + b && Bits(b) == bits
    ensures Bits(m) == Bits(a) + bits
  {
    BitsConcat(a, b);
  }

  lemma AbsorbFirst(s: State, block: seq<bool>, p: seq<bool>)
    requires |block| == RATE
    ensures Absorb(s, block + p) == Absorb(Permutation(XorBlock(s, block)), p)
  {
    assert (block + p)[..RATE] == block && (block + p)[RATE..] == p;
  }

  // ------------------------------------------------------------------ padding

  function ZeroByte(): Byte { [false, false, false, false, false, false, false, false] }

  /** The last block: the rest, zeros, 0x01 ored into the first free byte, 0x80 into the last. */
  function LastBlock(rest: seq<Byte>): (r: seq<Byte>)
    requires |rest| < BLOCK_SIZE
    ensures |r| == BLOCK_SIZE
  {
    var zeroed := rest + seq(BLOCK_SIZE - |rest|, _ => ZeroByte());
    var first := zeroed[|rest| := zeroed[|rest|][0 := true]];
    first[BLOCK_SIZE - 1 := first[BLOCK_SIZE - 1][7 := true]]
  }

  lemma {:induction false} ZeroBits(n: nat)
    ensures Bits(seq(n, _ => ZeroByte())) == Zeros(8 * n)
    decreases n
  {
    if n > 0 {
      assert seq(n, _ => ZeroByte())[1..] == seq(n - 1, _ => ZeroByte());
      ZeroBits(n - 1);
    }
  }

  lemma ByteBits(b: Byte)
    ensures Bits([b]) == b
  {
    assert [b][1..] == [];
  }

  function FirstPad(): Byte { [true, false, false, false, false, false, false, false] }

  function LastPad(): Byte { [false, false, false, false, false, false, false, true] }

  function BothPad(): Byte { [true, false, false, false, false, false, false, true] }

  /** The padding of n bytes. */
  function LongPad(n: nat): seq<Byte>
    requires n >= 2
  {
    [FirstPad()] + seq(n - 2, _ => ZeroByte()) + [LastPad()]
  }

  lemma LastBlockFull(rest: seq<Byte>)
    requires |rest| == BLOCK_SIZE - 1
    ensures LastBlock(rest) == rest + [BothPad()]
  {
    assert ZeroByte()[0 := true] == FirstPad() && FirstPad()[7 := true] == BothPad();
  }

  lemma LastBlockLong(rest: seq<Byte>)
    requires |rest| < BLOCK_SIZE - 1
    ensures LastBlock(rest) == rest + LongPad(BLOCK_SIZE - |rest|)
  {
    assert ZeroByte()[0 := true] == FirstPad() && ZeroByte()[7 := true] == LastPad();
  }

  /** pad10*1 over n bytes. */
  function PadBits(n: nat): seq<bool>
    requires n >= 1
  {
    [true] + Zeros(8 * n - 2) + [true]
  }

  lemma PadOf(n: nat, m: nat)
    requires 1 <= n <= BLOCK_SIZE && m % RATE == 8 * (BLOCK_SIZE - n)
    ensures Pad(m) == PadBits(n)
  {
    assert (2 * RATE - m % RATE - 2) % RATE == 8 * n - 2;
  }

  lemma LongPadBits(n: nat)
    requires n >= 2
    ensures Bits(LongPad(n)) == PadBits(n)
  {
    var middle := seq(n - 2, _ => ZeroByte());
    BitsConcat([FirstPad()] + middle, [LastPad()]);
    BitsConcat([FirstPad()], middle);
    ByteBits(FirstPad());
    ByteBits(LastPad());
    ZeroBits(n - 2);
    assert FirstPad() == [true] + Zeros(7) && LastPad() == Zeros(7) + [true];
    assert Zeros(8 * n - 2) == Zeros(7) + Zeros(8 * (n - 2)) + Zeros(7);
  }

  lemma BothPadBits()
    ensures Bits([BothPad()]) == PadBits(1)
  {
    ByteBits(BothPad());
  }

  /** The padding bytes behind the rest. */
  function PadBytes(n: nat): seq<Byte>
    requires n >= 1
  {
    if n == 1 then [BothPad()] else LongPad(n)
  }

  lemma LastBlockIs(rest: seq<Byte>)
    requires |rest| < BLOCK_SIZE
    ensures LastBlock(rest) == rest + PadBytes(BLOCK_SIZE - |rest|)
  {
    if |rest| == BLOCK_SIZE - 1 { LastBlockFull(rest); } else { LastBlockLong(rest); }
  }

  lemma PadBytesBits(n: nat)
    requires n >= 1
    ensures Bits(PadBytes(n)) == PadBits(n)
  {
    if n == 1 { BothPadBits(); } else { LongPadBits(n); }
  }

  /** The bits of the last block are the bits of the rest followed by pad10*1. */
  lemma LastBlockBits(rest: seq<Byte>, m: nat)
    requires |rest| < BLOCK_SIZE && m % RATE == 8 * |rest|
    ensures Bits(LastBlock(rest)) == Bits(rest) + Pad(m)
  {
    PadOf(BLOCK_SIZE - |rest|, m);
    LastBlockPadded(rest);
  }

  lemma LastBlockPadded(rest: seq<Byte>)
    requires |rest| < BLOCK_SIZE
    ensures Bits(LastBlock(rest)) == Bits(rest) + PadBits(BLOCK_SIZE - |rest|)
  {
    LastBlockIs(rest);
    PadBytesBits(BLOCK_SIZE - |rest|);
    BitsOfSum(LastBlock(rest), rest, PadBytes(BLOCK_SIZE - |rest|), PadBits(BLOCK_SIZE - |rest|));
  }

  lemma EightTimes(n: nat)
    ensures 8 * n % RATE == 8 * (n % BLOCK_SIZE)
  {
    assert n == BLOCK_SIZE * (n / BLOCK_SIZE) + n % BLOCK_SIZE;
    assert 8 * n == RATE * (n / BLOCK_SIZE) + 8 * (n % BLOCK_SIZE);
  }

  /** The digest as the code computes it is the digest of FIPS 202. */
  lemma DigestIs(m: seq<Byte>)
    ensures Squeeze(BlockStep(Absorbed(ZeroState(), m), LastBlock(Rest(m)))) == Keccak256(Bits(m))
  {
    var pad := Pad(|Bits(m)|);
    AbsorbedIs(ZeroState(), m, pad);
    EightTimes(|m|);
    LastBlockBits(Rest(m), |Bits(m)|);
    OneBlock(Absorbed(ZeroState(), m), Bits(LastBlock(Rest(m))));
  }

  lemma OneBlock(s: State, block: seq<bool>)
    requires |block| == RATE
    ensures Absorb(s, block) == Permutation(XorBlock(s, block))
  {
    AbsorbFirst(s, block, []);
    assert block + [] == block;
  }

  /** The first n lanes are xored with the block. */
  predicate XoredTo(a: seq<Lane>, s: State, bits: seq<bool>, n: nat) {
    && |a| == 25 && |bits| == RATE
    && forall k :: 0 <= k < 25 ==> a[k] == if k < n && k < 17 then Xor(s[k], LaneAt(bits, k)) else s[k]
  }

  lemma XoredAll(a: seq<Lane>, s: State, bits: seq<bool>)
    requires XoredTo(a, s, bits, 17)
    ensures a == XorBlock(s, bits)
  {}

  /** Eight bytes as a little-endian lane. */
  function LittleEndian(block: seq<Byte>, i: nat): (r: Lane)
    requires |block| == BLOCK_SIZE && i < 17
    ensures r == LaneAt(Bits(block), i)
  {
    BitsSlice(block, 8 * i, 8 * i + 8);
    Bits(block[8 * i..8 * i + 8])
  }

  // ------------------------------------------------------------------ the context

  /** SHA3_CTX: the lanes of the state, the bytes of the message buffer and their count; fed is
      history: every byte given to update so far. */
  class Sha3Ctx {
    const hash: array<Lane>
    const message: array<Byte>
    var rest: nat
    ghost var fed: seq<Byte>

    ghost predicate Valid()
      reads this, hash, message
    {
      && hash.Length == 25 && message.Length == 192 && hash[..] == Absorbed(ZeroState(), fed)
      && rest == |Rest(fed)| && message[..rest] == Rest(fed)
    }

    /** keccak_init. */
    constructor ()
      ensures Valid() && fed == [] && fresh(hash) && fresh(message)
    {
      hash := new Lane[25](_ => ZeroLane());
      message := new Byte[192](_ => ZeroByte());
      rest, fed := 0, [];
      new;
      assert hash[..] == ZeroState();
    }

    /** sha3_process_block: the block xored in lane by lane, then the permutation. */
    method ProcessBlock(block: seq<Byte>)
      requires hash.Length == 25 && |block| == BLOCK_SIZE
      modifies hash
      ensures hash[..] == BlockStep(old(hash[..]), block)
    {
      XorLanes(block);
      Permute(hash);
    }

    method XorLanes(block: seq<Byte>)
      requires hash.Length == 25 && |block| == BLOCK_SIZE
      modifies hash
      ensures hash[..] == XorBlock(old(hash[..]), Bits(block))
    {
      ghost var s: State := hash[..];
      ghost var bits := Bits(block);
      for i := 0 to 17
        invariant XoredTo(hash[..], s, bits, i)
      {
        var lane := LittleEndian(block, i);
        hash[i] := Xor(hash[i], lane);
      }
      XoredAll(hash[..], s, bits);
    }

    /** memcpy into the message buffer. */
    method CopyIn(at: nat, bytes: seq<Byte>)
      requires at + |bytes| <= message.Length
      modifies message
      ensures message[..] == old(message[..at]) + bytes + old(message[at + |bytes|..])
    {
      for i := 0 to |bytes|
        invariant forall k :: 0 <= k < message.Length ==>
                    message[k] == if at <= k < at + i then bytes[k - at] else old(message[k])
      {
        message[at + i] := bytes[i];
      }
    }

    /** keccak_update on one chunk; aligned tells whether the chunk can be read in place. */
    method Update(chunk: seq<Byte>, aligned: bool)
      requires Valid() && |chunk| < 65536
      modifies this, hash, message
      ensures Valid() && fed == old(fed) + chunk && rest < BLOCK_SIZE
    {
      hide BlockStep, Bits, ZeroState, XorBlock;
      AbsorbedConcat(ZeroState(), fed, chunk);
      var idx := rest;
      rest := (rest + |chunk|) % BLOCK_SIZE;
      if idx != 0 {
        var room := BLOCK_SIZE - idx;
        if |chunk| < room {
          KeepPartial(idx, chunk);
        } else {
          FillPartial(idx, chunk, room, aligned);
        }
      } else {
        assert Rest(fed) + chunk == chunk;
        fed := fed + chunk;
        AbsorbBlocks(chunk, aligned);
      }
    }

    /** The chunk does not fill the partial block. */
    method KeepPartial(idx: nat, chunk: seq<Byte>)
      requires hash.Length == 25 && message.Length == 192 && hash[..] == Absorbed(ZeroState(), fed)
      requires idx == |Rest(fed)| && message[..idx] == Rest(fed) && idx + |chunk| < BLOCK_SIZE && rest == idx + |chunk|
      requires Absorbed(ZeroState(), fed + chunk) == Absorbed(Absorbed(ZeroState(), fed), Rest(fed) + chunk)
      requires Rest(fed + chunk) == Rest(Rest(fed) + chunk)
      modifies this`fed, message
      ensures Valid() && fed == old(fed) + chunk
    {
      CopyIn(idx, chunk);
      assert message[..rest] == Rest(fed) + chunk;
      fed := fed + chunk;
    }

    /** The chunk fills the partial block, which is processed before the rest of the chunk. */
    method FillPartial(idx: nat, chunk: seq<Byte>, room: nat, aligned: bool)
      requires hash.Length == 25 && message.Length == 192 && hash[..] == Absorbed(ZeroState(), fed)
      requires idx == |Rest(fed)| && message[..idx] == Rest(fed) && room == BLOCK_SIZE - idx <= |chunk|
      requires rest == (idx + |chunk|) % BLOCK_SIZE
      requires Absorbed(ZeroState(), fed + chunk) == Absorbed(Absorbed(ZeroState(), fed), Rest(fed) + chunk)
      requires Rest(fed + chunk) == Rest(Rest(fed) + chunk)
      modifies this`fed, hash, message
      ensures Valid() && fed == old(fed) + chunk && rest == old(rest)
    {
      ghost var left := Rest(fed);
      CopyIn(idx, chunk[..room]);
      assert message[..BLOCK_SIZE] == left + chunk[..room];
      FirstOfPartial(left, chunk, room);
      ProcessBlock(message[..BLOCK_SIZE]);
      fed := fed + chunk;
      AbsorbBlocks(chunk[room..], aligned);
    }

    /** The loop over whole blocks, and the leftovers. */
    method AbsorbBlocks(bytes: seq<Byte>, aligned: bool)
      requires hash.Length == 25 && message.Length == 192
      requires Absorbed(hash[..], bytes) == Absorbed(ZeroState(), fed) && Rest(bytes) == Rest(fed) && rest == |Rest(fed)|
      modifies hash, message
      ensures Valid() && fed == old(fed) && rest == old(rest)
    {
      var msg := bytes;
      while |msg| >= BLOCK_SIZE
        invariant Absorbed(hash[..], msg) == Absorbed(ZeroState(), fed) && Rest(msg) == Rest(fed)
        decreases |msg|
      {
        if aligned {
          ProcessBlock(msg[..BLOCK_SIZE]);
        } else {
          CopyIn(0, msg[..BLOCK_SIZE]);
          assert message[..BLOCK_SIZE] == msg[..BLOCK_SIZE];
          ProcessBlock(message[..BLOCK_SIZE]);
        }
        msg := msg[BLOCK_SIZE..];
      }
      if |msg| > 0 { CopyIn(0, msg); }
      assert message[..rest] == msg;
    }

    /** keccak_final: the 32 bytes of the digest of everything fed. */
    method Final() returns (result: seq<Byte>)
      requires Valid()
      modifies hash, message
      ensures |result| == 32 && Bits(result) == Keccak256(Bits(fed))
    {
      PadBuffer();
      ProcessBlock(message[..BLOCK_SIZE]);
      DigestIs(fed);
      result := FirstBytes(hash[..]);
    }

    /** The last block is put together in the message buffer. */
    method PadBuffer()
      requires Valid()
      modifies message
      ensures message[..BLOCK_SIZE] == LastBlock(Rest(fed))
    {
      ClearBuffer();
      ghost var left := Rest(fed);
      ghost var zeroed := left + seq(BLOCK_SIZE - |left|, _ => ZeroByte());
      assert message[..BLOCK_SIZE] == zeroed;
      message[rest] := message[rest][0 := true];
      assert message[..BLOCK_SIZE] == zeroed[rest := zeroed[rest][0 := true]];
      message[BLOCK_SIZE - 1] := message[BLOCK_SIZE - 1][7 := true];
    }

    /** memset of what is behind the rest. */
    method ClearBuffer()
      requires Valid()
      modifies message
      ensures forall k :: 0 <= k < BLOCK_SIZE ==> message[k] == if k < rest then Rest(fed)[k] else ZeroByte()
    {
      ghost var left := Rest(fed);
      assert forall k :: 0 <= k < rest ==> message[k] == message[..rest][k];
      for i := rest to BLOCK_SIZE
        invariant forall k :: 0 <= k < i ==> message[k] == if k < rest then left[k] else ZeroByte()
      {
        message[i] := ZeroByte();
      }
    }
  }

  lemma FirstOfPartial(left: seq<Byte>, chunk: seq<Byte>, room: nat)
    requires |left| < BLOCK_SIZE && room == BLOCK_SIZE - |left| <= |chunk|
    ensures (left + chunk)[..BLOCK_SIZE] == left + chunk[..room] && (left + chunk)[BLOCK_SIZE..] == chunk[room..]
  {}

  /** The bytes of a lane, lowest first. */
  function LaneBytes(l: Lane): (r: seq<Byte>)
    ensures |r| == 8
  {
    [l[0..8], l[8..16], l[16..24], l[24..32], l[32..40], l[40..48], l[48..56], l[56..64]]
  }

  lemma LaneBytesBits(l: Lane)
    ensures Bits(LaneBytes(l)) == l
  {
    var r := LaneBytes(l);
    assert r[1..][1..] == r[2..] && r[2..][1..] == r[3..] && r[3..][1..] == r[4..] && r[4..][1..] == r[5..];
    assert r[5..][1..] == r[6..] && r[6..][1..] == r[7..] && r[7..][1..] == [];
    assert Bits(r[7..]) == l[56..64] && Bits(r[6..]) == l[48..64] && Bits(r[5..]) == l[40..64] && Bits(r[4..]) == l[32..64];
    assert Bits(r[3..]) == l[24..64] && Bits(r[2..]) == l[16..64] && Bits(r[1..]) == l[8..64];
  }

  /** me64_to_le_str of the first 32 bytes. */
  method FirstBytes(s: State) returns (result: seq<Byte>)
    ensures |result| == 32 && Bits(result) == Squeeze(s)
  {
    var a, b, c, d := LaneBytes(s[0]), LaneBytes(s[1]), LaneBytes(s[2]), LaneBytes(s[3]);
    LaneBytesBits(s[0]);
    LaneBytesBits(s[1]);
    LaneBytesBits(s[2]);
    LaneBytesBits(s[3]);
    BitsConcat(a, b);
    BitsConcat(a + b, c);
    BitsConcat(a + b + c, d);
    result := a + b + c + d;
  }

  function Join(chunks: seq<seq<Byte>>): seq<Byte>
    decreases |chunks|
  {
    if chunks == [] then [] else Join(chunks[..|chunks| - 1]) + chunks[|chunks| - 1]
  }

  /** Chunk independence: hashing a message in any chunks, each short enough for its 16-bit size
      and aligned or not, gives the digest of the whole message. */
  method HashChunks(chunks: seq<seq<Byte>>, aligned: seq<bool>) returns (digest: seq<Byte>)
    requires |aligned| == |chunks| && forall i :: 0 <= i < |chunks| ==> |chunks[i]| < 65536
    ensures |digest| == 32 && Bits(digest) == Keccak256(Bits(Join(chunks)))
  {
    var ctx := new Sha3Ctx();
    assert chunks[..0] == [];
    for i := 0 to |chunks|
      invariant ctx.Valid() && fresh(ctx) && fresh(ctx.hash) && fresh(ctx.message) && ctx.fed == Join(chunks[..i])
    {
      assert chunks[..i + 1][..i] == chunks[..i];
      ctx.Update(chunks[i], aligned[i]);
    }
    assert chunks[..|chunks|] == chunks;
    digest := ctx.Final();
  }
}
