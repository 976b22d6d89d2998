/** KECCAK[512] of FIPS 202 as mathematics: bits, lanes, the step mappings of section 3.2 and the
    sponge of sections 4 and 5, with no suffix bits. A lane is its 64 bits, lowest first. */
module KeccakSpec {

  type Byte = b: seq<bool> | |b| == 8 witness [false, false, false, false, false, false, false, false]

  type Lane = l: seq<bool> | |l| == 64 witness seq(64, _ => false)

  /** Lane x + 5 * y of the state array A. */
  type State = s: seq<Lane> | |s| == 25 witness seq(25, _ => seq(64, _ => false))

  function ZeroLane(): Lane { seq(64, _ => false) }

  function ZeroState(): State { seq(25, _ => ZeroLane()) }

  function Xor(a: Lane, b: Lane): Lane { seq(64, z requires 0 <= z < 64 => a[z] != b[z]) }

  function AndNot(a: Lane, b: Lane): Lane { seq(64, z requires 0 <= z < 64 => !a[z] && b[z]) }

  /** Bit z of the result is bit z - n modulo 64. */
  function Rotate(a: Lane, n: nat): Lane
    requires n < 64
  {
    seq(64, z requires 0 <= z < 64 => if z >= n then a[z - n] else a[z + 64 - n])
  }

  // ------------------------------------------------------------------ coordinates

  /** A[x, y]. */
  function At(a: State, x: nat, y: nat): Lane
    requires x < 5 && y < 5
  {
    a[x + 5 * y]
  }

  /** The state whose lane (x, y) is f(x, y). */
  function Build(f: (nat, nat) -> Lane): State { seq(25, i requires 0 <= i < 25 => f(i % 5, i / 5)) }

  lemma AtBuild(f: (nat, nat) -> Lane, x: nat, y: nat)
    requires x < 5 && y < 5
    ensures At(Build(f), x, y) == f(x, y)
  {
    assert (x + 5 * y) % 5 == x && (x + 5 * y) / 5 == y;
  }

  lemma SameState(a: State, b: State)
    requires forall x: nat, y: nat :: x < 5 && y < 5 ==> At(a, x, y) == At(b, x, y)
    ensures a == b
  {
    forall i | 0 <= i < 25 ensures a[i] == b[i] {
      assert i == i % 5 + 5 * (i / 5);
      assert At(a, i % 5, i / 5) == At(b, i % 5, i / 5);
    }
  }

  /** x + 1 and x - 1 modulo 5. */
  function Next(x: nat): nat { if x == 4 then 0 else x + 1 }

  function Prev(x: nat): nat { if x == 0 then 4 else x - 1 }

  // ------------------------------------------------------------------ section 3.2

  function Column(a: State, x: nat): Lane
    requires x < 5
  {
    Xor(Xor(Xor(Xor(At(a, x, 0), At(a, x, 1)), At(a, x, 2)), At(a, x, 3)), At(a, x, 4))
  }

  function ThetaEffect(a: State, x: nat): Lane
    requires x < 5
  {
    Xor(Rotate(Column(a, Next(x)), 1), Column(a, Prev(x)))
  }

  function ThetaAt(a: State, x: nat, y: nat): Lane {
    if x < 5 && y < 5 then Xor(At(a, x, y), ThetaEffect(a, x)) else ZeroLane()
  }

  function Theta(a: State): State { Build((x, y) => ThetaAt(a, x, y)) }

  /** (x, y) to (y, 2x + 3y), on the lane x + 5 * y. */
  function NextLane(i: nat): nat { i / 5 + 5 * ((2 * (i % 5) + 3 * (i / 5)) % 5) }

  /** The lane met after t steps from (1, 0). */
  function Walk(t: nat): nat
    decreases t
  {
    if t == 0 then 1 else NextLane(Walk(t - 1))
  }

  /** The rotation of the lane met after t steps. */
  function Triangular(t: nat): (r: nat)
    ensures r < 64
  {
    (t + 1) * (t + 2) / 2 % 64
  }

  /** The first of the steps t, t + 1, ..., 23 at which the walk meets lane i. */
  function MetAt(i: nat, t: nat): nat
    decreases 24 - t
  {
    if t >= 24 || Walk(t) == i then t else MetAt(i, t + 1)
  }

  function Offset(i: nat): (r: nat)
    ensures r < 64
  {
    if i == 0 then 0 else Triangular(MetAt(i, 0))
  }

  function Rho(a: State): State {
    seq(25, i requires 0 <= i < 25 => Rotate(a[i], Offset(i)))
  }

  /** A'[x, y] = A[x + 3y, x]. */
  function PiAt(a: State, x: nat, y: nat): Lane { if x < 5 && y < 5 then At(a, (x + 3 * y) % 5, x) else ZeroLane() }

  function Pi(a: State): State { Build((x, y) => PiAt(a, x, y)) }

  /** A'[x, y] = A[x, y] xor ((not A[x + 1, y]) and A[x + 2, y]). */
  function ChiAt(a: State, x: nat, y: nat): Lane {
    if x < 5 && y < 5 then Xor(At(a, x, y), AndNot(At(a, Next(x), y), At(a, Next(Next(x)), y))) else ZeroLane()
  }

  function Chi(a: State): State { Build((x, y) => ChiAt(a, x, y)) }

  /** The register R of Algorithm 5. */
  datatype Register = Register(r0: bool, r1: bool, r2: bool, r3: bool, r4: bool, r5: bool, r6: bool, r7: bool)
  {
    /** A zero is put in front, R[8] is added to R[0], R[4], R[5] and R[6], and cut off. */
    function Step(): Register { Register(r7, r0, r1, r2, r3 != r7, r4 != r7, r5 != r7, r6) }
  }

  function Lfsr(t: nat): Register
    decreases t
  {
    if t == 0 then Register(true, false, false, false, false, false, false, false) else Lfsr(t - 1).Step()
  }

  /** rc(t), for t below 255. */
  predicate Rc(t: nat) { Lfsr(t).r0 }

  /** RC: bit 2^j - 1 is rc(j + 7 ir), all others are zero. */
  function RoundConstant(ir: nat): Lane
    requires ir < 24
  {
    seq(64, z requires 0 <= z < 64 =>
      if z == 0 then Rc(7 * ir) else if z == 1 then Rc(1 + 7 * ir) else if z == 3 then Rc(2 + 7 * ir)
      else if z == 7 then Rc(3 + 7 * ir) else if z == 15 then Rc(4 + 7 * ir) else if z == 31 then Rc(5 + 7 * ir)
      else if z == 63 then Rc(6 + 7 * ir) else false)
  }

  function Iota(a: State, ir: nat): State
    requires ir < 24
  {
    a[0 := Xor(a[0], RoundConstant(ir))]
  }

  function Round(a: State, ir: nat): State
    requires ir < 24
  {
    Iota(Chi(Pi(Rho(Theta(a)))), ir)
  }

  /** The first n of the 24 rounds. */
  function Rounds(a: State, n: nat): State
    requires n <= 24
    decreases n
  {
    if n == 0 then a else Round(Rounds(a, n - 1), n - 1)
  }

  function Permutation(a: State): State { Rounds(a, 24) }

  // ------------------------------------------------------------------ sections 4 and 5

  const RATE: nat := 1088

  function Zeros(n: nat): (r: seq<bool>)
    ensures |r| == n
  {
    seq(n, _ => false)
  }

  /** pad10*1 of section 5.1 for the rate 1088 and a string of length m. */
  function Pad(m: nat): (r: seq<bool>)
    ensures (m + |r|) % RATE == 0 && |r| >= 2
  {
    [true] + Zeros((2 * RATE - m % RATE - 2) % RATE) + [true]
  }

  /** The state xored with a block of RATE bits. */
  function XorBlock(s: State, block: seq<bool>): State
    requires |block| == RATE
  {
    seq(25, i requires 0 <= i < 25 => if i < 17 then Xor(s[i], LaneAt(block, i)) else s[i])
  }

  function LaneAt(block: seq<bool>, i: nat): Lane
    requires 64 * i + 64 <= |block|
  {
    block[64 * i..64 * i + 64]
  }

  function Absorb(s: State, p: seq<bool>): State
    decreases |p|
  {
    if |p| < RATE then s else Absorb(Permutation(XorBlock(s, p[..RATE])), p[RATE..])
  }

  /** KECCAK[512](N, 256): absorb N followed by its padding; the first 256 bits of the state. */
  function Keccak256(n: seq<bool>): (r: seq<bool>)
    ensures |r| == 256
  {
    Squeeze(Absorb(ZeroState(), n + Pad(|n|)))
  }

  function Squeeze(s: State): (r: seq<bool>)
    ensures |r| == 256
  {
    var z: seq<bool> := s[0];
    z + s[1] + s[2] + s[3]
  }
}
