/** The constants of faucet-wasm/nickminer/miner/keccak256.c agree with the definitions of
    FIPS 202. */
module KeccakTables {
  import opened KeccakSpec

  /** The table read with TYPE_ROUND_INFO. */
  function RoundInfo(i: nat): nat {
    match i
    case 0 => 1 case 1 => 26 case 2 => 94 case 3 => 112 case 4 => 31 case 5 => 33 case 6 => 121 case 7 => 85
    case 8 => 14 case 9 => 12 case 10 => 53 case 11 => 38 case 12 => 63 case 13 => 79 case 14 => 93 case 15 => 83
    case 16 => 82 case 17 => 72 case 18 => 22 case 19 => 102 case 20 => 121 case 21 => 88 case 22 => 33 case 23 => 116
    case _ => 0
  }

  /** The table read with TYPE_PI_TRANSFORM. */
  function PiTransform(i: nat): nat {
    match i
    case 0 => 1 case 1 => 6 case 2 => 9 case 3 => 22 case 4 => 14 case 5 => 20 case 6 => 2 case 7 => 12 case 8 => 13
    case 9 => 19 case 10 => 23 case 11 => 15 case 12 => 4 case 13 => 24 case 14 => 21 case 15 => 8 case 16 => 16
    case 17 => 5 case 18 => 3 case 19 => 18 case 20 => 17 case 21 => 11 case 22 => 7 case 23 => 10
    case _ => 0
  }

  /** The table read with TYPE_RHO_TRANSFORM. */
  function RhoTransform(i: nat): nat {
    match i
    case 0 => 1 case 1 => 62 case 2 => 28 case 3 => 27 case 4 => 36 case 5 => 44 case 6 => 6 case 7 => 55 case 8 => 20
    case 9 => 3 case 10 => 10 case 11 => 43 case 12 => 25 case 13 => 39 case 14 => 41 case 15 => 45 case 16 => 15
    case 17 => 21 case 18 => 8 case 19 => 18 case 20 => 2 case 21 => 61 case 22 => 56 case 23 => 14
    case _ => 0
  }

  // ------------------------------------------------------------------ rho

  /** The walk of Algorithm 2, spelled out. */
  function WalkTable(i: nat): nat {
    match i
    case 0 => 1 case 1 => 10 case 2 => 7 case 3 => 11 case 4 => 17 case 5 => 18 case 6 => 3 case 7 => 5 case 8 => 16
    case 9 => 8 case 10 => 21 case 11 => 24 case 12 => 4 case 13 => 15 case 14 => 23 case 15 => 19 case 16 => 13
    case 17 => 12 case 18 => 2 case 19 => 20 case 20 => 14 case 21 => 22 case 22 => 9 case 23 => 6
    case _ => 0
  }

  lemma NextLanes0()
    ensures NextLane(1) == 10 && NextLane(10) == 7 && NextLane(7) == 11 && NextLane(11) == 17 && NextLane(17) == 18 && NextLane(18) == 3
  {}

  lemma NextLanes1()
    ensures NextLane(3) == 5 && NextLane(5) == 16 && NextLane(16) == 8 && NextLane(8) == 21 && NextLane(21) == 24 && NextLane(24) == 4
  {}

  lemma NextLanes2()
    ensures NextLane(4) == 15 && NextLane(15) == 23 && NextLane(23) == 19 && NextLane(19) == 13 && NextLane(13) == 12 && NextLane(12) == 2
  {}

  lemma NextLanes3()
    ensures NextLane(2) == 20 && NextLane(20) == 14 && NextLane(14) == 22 && NextLane(22) == 9 && NextLane(9) == 6
  {}

  lemma WalkNext0(t: nat)
    requires 0 <= t < 6
    ensures NextLane(WalkTable(t)) == WalkTable(t + 1)
  {
    NextLanes0();
  }

  lemma WalkNext1(t: nat)
    requires 6 <= t < 12
    ensures NextLane(WalkTable(t)) == WalkTable(t + 1)
  {
    NextLanes1();
  }

  lemma WalkNext2(t: nat)
    requires 12 <= t < 18
    ensures NextLane(WalkTable(t)) == WalkTable(t + 1)
  {
    NextLanes2();
  }

  lemma WalkNext3(t: nat)
    requires 18 <= t < 23
    ensures NextLane(WalkTable(t)) == WalkTable(t + 1)
  {
    NextLanes3();
  }

  lemma WalkNext(t: nat)
    requires t < 23
    ensures NextLane(WalkTable(t)) == WalkTable(t + 1)
  {
    if t < 6 { WalkNext0(t); }
    else if t < 12 { WalkNext1(t); }
    else if t < 18 { WalkNext2(t); }
    else { WalkNext3(t); }
  }

  lemma {:induction false} WalkIs(t: nat)
    requires t < 24
    ensures Walk(t) == WalkTable(t)
  {
    if t > 0 {
      WalkIs(t - 1);
      WalkNext(t - 1);
    }
  }

  lemma {:induction false} MetAtReached(i: nat, t: nat, u: nat)
    requires u <= t < 24 && Walk(t) == i && forall v: nat :: u <= v < t ==> Walk(v) != i
    ensures MetAt(i, u) == t
    decreases t - u
  {
    hide Walk;
    if u < t { MetAtReached(i, t, u + 1); }
  }

  /** The step at which the walk meets a lane. */
  function Met(i: nat): nat {
    match i
    case 1 => 0 case 2 => 18 case 3 => 6 case 4 => 12 case 5 => 7 case 6 => 23 case 7 => 2 case 8 => 9 case 9 => 22
    case 10 => 1 case 11 => 3 case 12 => 17 case 13 => 16 case 14 => 20 case 15 => 13 case 16 => 8 case 17 => 4
    case 18 => 5 case 19 => 15 case 20 => 19 case 21 => 10 case 22 => 21 case 23 => 14 case 24 => 11
    case _ => 0
  }

  /** The walk meets each of the lanes 1 to 24 once. */
  lemma MetIs(i: nat)
    requires 1 <= i < 25
    ensures Met(i) < 24 && WalkTable(Met(i)) == i
  {}

  lemma MetOnce(v: nat)
    requires v < 24
    ensures Met(WalkTable(v)) == v
  {}

  /** t(t + 1)/2 modulo 64, spelled out for t from 1 to 24. */
  lemma Triangulars()
    ensures Triangular(0) == 1 && Triangular(1) == 3 && Triangular(2) == 6 && Triangular(3) == 10 && Triangular(4) == 15 && Triangular(5) == 21
    ensures Triangular(6) == 28 && Triangular(7) == 36 && Triangular(8) == 45 && Triangular(9) == 55 && Triangular(10) == 2 && Triangular(11) == 14
    ensures Triangular(12) == 27 && Triangular(13) == 41 && Triangular(14) == 56 && Triangular(15) == 8 && Triangular(16) == 25 && Triangular(17) == 43
    ensures Triangular(18) == 62 && Triangular(19) == 18 && Triangular(20) == 39 && Triangular(21) == 61 && Triangular(22) == 20 && Triangular(23) == 44
  {}

  lemma RhoAtStep(i: nat)
    requires 1 <= i < 25
    ensures RhoTransform(i - 1) == Triangular(Met(i)) && 1 <= RhoTransform(i - 1) < 64
  {
    Triangulars();
  }

  /** The rotation table is the one of Algorithm 2. */
  lemma RhoTable(i: nat)
    requires 1 <= i < 25
    ensures RhoTransform(i - 1) == Offset(i) && 1 <= Offset(i) < 64
  {
    var t := Met(i);
    MetIs(i);
    WalkIs(t);
    forall v: nat | v < t ensures Walk(v) != i {
      WalkIs(v);
      MetOnce(v);
    }
    MetAtReached(i, t, 0);
    RhoAtStep(i);
  }

  // ------------------------------------------------------------------ pi

  /** The place of a lane in the pi table. */
  function PiPlace(i: nat): nat {
    match i
    case 1 => 0 case 2 => 6 case 3 => 18 case 4 => 12 case 5 => 17 case 6 => 1 case 7 => 22 case 8 => 15 case 9 => 2
    case 10 => 23 case 11 => 21 case 12 => 7 case 13 => 8 case 14 => 4 case 15 => 11 case 16 => 16 case 17 => 20
    case 18 => 19 case 19 => 9 case 20 => 5 case 21 => 14 case 22 => 3 case 23 => 10 case 24 => 13
    case _ => 0
  }

  lemma PiPlaces(i: nat)
    requires 1 <= i < 25
    ensures PiPlace(i) < 24 && PiTransform(PiPlace(i)) == i
  {}

  lemma PiOnce(j: nat)
    requires j < 24
    ensures 1 <= PiTransform(j) < 25 && PiPlace(PiTransform(j)) == j
  {}

  /** Where pi takes a lane from. */
  function PiFrom(i: nat): nat {
    match i
    case 0 => 0 case 1 => 6 case 2 => 12 case 3 => 18 case 4 => 24 case 5 => 3 case 6 => 9 case 7 => 10 case 8 => 16
    case 9 => 22 case 10 => 1 case 11 => 7 case 12 => 13 case 13 => 19 case 14 => 20 case 15 => 4 case 16 => 5
    case 17 => 11 case 18 => 17 case 19 => 23 case 20 => 2 case 21 => 8 case 22 => 14 case 23 => 15 case 24 => 21
    case _ => 0
  }

  lemma PiChain0(j: nat)
    requires 0 <= j < 8
    ensures PiFrom(PiTransform(j)) == PiTransform(j + 1)
  {}

  lemma PiChain1(j: nat)
    requires 8 <= j < 16
    ensures PiFrom(PiTransform(j)) == PiTransform(j + 1)
  {}

  lemma PiChain2(j: nat)
    requires 16 <= j < 23
    ensures PiFrom(PiTransform(j)) == PiTransform(j + 1)
  {}

  /** Each entry of the pi table is moved to where the entry before it stands. */
  lemma PiChain(j: nat)
    requires j < 23
    ensures PiFrom(PiTransform(j)) == PiTransform(j + 1)
  {
    if j < 8 { PiChain0(j); }
    else if j < 16 { PiChain1(j); }
    else { PiChain2(j); }
  }

  lemma PiRow0(x: nat)
    requires x < 5
    ensures PiFrom(x + 5 * 0) == (x + 3 * 0) % 5 + 5 * x
  {}

  lemma PiRow1(x: nat)
    requires x < 5
    ensures PiFrom(x + 5 * 1) == (x + 3 * 1) % 5 + 5 * x
  {}

  lemma PiRow2(x: nat)
    requires x < 5
    ensures PiFrom(x + 5 * 2) == (x + 3 * 2) % 5 + 5 * x
  {}

  lemma PiRow3(x: nat)
    requires x < 5
    ensures PiFrom(x + 5 * 3) == (x + 3 * 3) % 5 + 5 * x
  {}

  lemma PiRow4(x: nat)
    requires x < 5
    ensures PiFrom(x + 5 * 4) == (x + 3 * 4) % 5 + 5 * x
  {}

  /** The table is pi of section 3.2.3. */
  lemma PiTable(x: nat, y: nat)
    requires x < 5 && y < 5
    ensures PiFrom(x + 5 * y) == (x + 3 * y) % 5 + 5 * x
  {
    match y
    case 0 => PiRow0(x);
    case 1 => PiRow1(x);
    case 2 => PiRow2(x);
    case 3 => PiRow3(x);
    case _ => PiRow4(x);
  }

  // ------------------------------------------------------------------ iota

  /** The register at the beginning of each round. */
  function RoundStart(ir: nat): Register {
    match ir
    case 0 => Register(true, false, false, false, false, false, false, false)
    case 1 => Register(false, false, false, false, false, false, false, true)
    case 2 => Register(false, false, false, true, true, false, true, true)
    case 3 => Register(false, true, false, true, true, false, false, false)
    case 4 => Register(true, true, true, true, true, false, true, true)
    case 5 => Register(true, false, false, true, false, false, false, false)
    case 6 => Register(true, false, true, false, true, true, false, false)
    case 7 => Register(true, true, true, true, false, false, true, false)
    case 8 => Register(false, true, false, true, false, false, true, true)
    case 9 => Register(false, false, false, false, true, true, true, false)
    case 10 => Register(true, false, false, false, false, false, true, false)
    case 11 => Register(false, false, true, true, false, true, true, true)
    case 12 => Register(true, false, true, false, true, false, true, true)
    case 13 => Register(true, false, true, true, false, false, true, true)
    case 14 => Register(true, true, false, false, false, true, true, false)
    case 15 => Register(true, true, false, true, false, true, false, true)
    case 16 => Register(false, true, false, true, false, true, false, true)
    case 17 => Register(false, true, false, true, false, true, false, false)
    case 18 => Register(false, true, false, false, true, true, true, true)
    case 19 => Register(false, false, false, true, false, true, true, true)
    case 20 => Register(true, true, true, false, true, true, false, false)
    case 21 => Register(false, true, true, true, true, true, false, false)
    case 22 => Register(true, true, false, true, false, false, false, false)
    case 23 => Register(false, false, true, false, false, false, true, false)
    case _ => Register(false, true, true, true, false, false, false, true)
  }

  /** The bits get_round_constant tests, lowest first. */
  function InfoBits(info: nat): seq<bool> {
    [info % 2 == 1, info / 2 % 2 == 1, info / 4 % 2 == 1, info / 8 % 2 == 1, info / 16 % 2 == 1, info / 32 % 2 == 1,
     info / 64 % 2 == 1]
  }

  /** The seven outputs of a round, spelled out. */
  function Outputs(r: Register): seq<bool> {
    [r.r0, r.Step().r0, r.Step().Step().r0, r.Step().Step().Step().r0, r.Step().Step().Step().Step().r0,
     r.Step().Step().Step().Step().Step().r0, r.Step().Step().Step().Step().Step().Step().r0]
  }

  function Seven(r: Register): Register { r.Step().Step().Step().Step().Step().Step().Step() }

  function InfoTable(ir: nat): seq<bool> {
    match ir
    case 0 => [true, false, false, false, false, false, false]
    case 1 => [false, true, false, true, true, false, false]
    case 2 => [false, true, true, true, true, false, true]
    case 3 => [false, false, false, false, true, true, true]
    case 4 => [true, true, true, true, true, false, false]
    case 5 => [true, false, false, false, false, true, false]
    case 6 => [true, false, false, true, true, true, true]
    case 7 => [true, false, true, false, true, false, true]
    case 8 => [false, true, true, true, false, false, false]
    case 9 => [false, false, true, true, false, false, false]
    case 10 => [true, false, true, false, true, true, false]
    case 11 => [false, true, true, false, false, true, false]
    case 12 => [true, true, true, true, true, true, false]
    case 13 => [true, true, true, true, false, false, true]
    case 14 => [true, false, true, true, true, false, true]
    case 15 => [true, true, false, false, true, false, true]
    case 16 => [false, true, false, false, true, false, true]
    case 17 => [false, false, false, true, false, false, true]
    case 18 => [false, true, true, false, true, false, false]
    case 19 => [false, true, true, false, false, true, true]
    case 20 => [true, false, false, true, true, true, true]
    case 21 => [false, false, false, true, true, false, true]
    case 22 => [true, false, false, false, false, true, false]
    case 23 => [false, false, true, false, true, true, true]
    case _ => []
  }

  lemma InfoIs(ir: nat)
    requires ir < 24
    ensures InfoBits(RoundInfo(ir)) == InfoTable(ir)
  {
    if ir < 8 { InfoIs0(ir); }
    else if ir < 16 { InfoIs1(ir); }
    else { InfoIs2(ir); }
  }

  lemma InfoIs0(ir: nat)
    requires 0 <= ir < 8
    ensures InfoBits(RoundInfo(ir)) == InfoTable(ir)
  {}

  lemma InfoIs1(ir: nat)
    requires 8 <= ir < 16
    ensures InfoBits(RoundInfo(ir)) == InfoTable(ir)
  {}

  lemma InfoIs2(ir: nat)
    requires 16 <= ir < 24
    ensures InfoBits(RoundInfo(ir)) == InfoTable(ir)
  {}

  lemma OutputsAre(ir: nat)
    requires ir < 24
    ensures Outputs(RoundStart(ir)) == InfoTable(ir) && Seven(RoundStart(ir)) == RoundStart(ir + 1)
  {
    if ir < 6 { OutputsAre0(ir); }
    else if ir < 12 { OutputsAre1(ir); }
    else if ir < 18 { OutputsAre2(ir); }
    else { OutputsAre3(ir); }
  }

  lemma OutputsAre0(ir: nat)
    requires 0 <= ir < 6
    ensures Outputs(RoundStart(ir)) == InfoTable(ir) && Seven(RoundStart(ir)) == RoundStart(ir + 1)
  {}

  lemma OutputsAre1(ir: nat)
    requires 6 <= ir < 12
    ensures Outputs(RoundStart(ir)) == InfoTable(ir) && Seven(RoundStart(ir)) == RoundStart(ir + 1)
  {}

  lemma OutputsAre2(ir: nat)
    requires 12 <= ir < 18
    ensures Outputs(RoundStart(ir)) == InfoTable(ir) && Seven(RoundStart(ir)) == RoundStart(ir + 1)
  {}

  lemma OutputsAre3(ir: nat)
    requires 18 <= ir < 24
    ensures Outputs(RoundStart(ir)) == InfoTable(ir) && Seven(RoundStart(ir)) == RoundStart(ir + 1)
  {}

  lemma {:induction false} StartsAt(ir: nat)
    requires ir < 24
    ensures Lfsr(7 * ir) == RoundStart(ir)
  {
    if ir == 0 {
      assert RoundStart(0) == Lfsr(0);
    } else {
      hide RoundStart, Seven, Outputs, InfoTable;
      StartsAt(ir - 1);
      OutputsAre(ir - 1);
      LfsrSeven(7 * (ir - 1));
    }
  }

  function StepN(r: Register, n: nat): Register
    decreases n
  {
    if n == 0 then r else StepN(r, n - 1).Step()
  }

  lemma {:induction false} LfsrSteps(t: nat, n: nat)
    ensures Lfsr(t + n) == StepN(Lfsr(t), n)
    decreases n
  {
    if n > 0 { LfsrSteps(t, n - 1); }
  }

  lemma SevenSteps(r: Register)
    ensures StepN(r, 1) == r.Step() && StepN(r, 2) == r.Step().Step() && StepN(r, 3) == r.Step().Step().Step()
    ensures StepN(r, 4) == r.Step().Step().Step().Step() && StepN(r, 5) == r.Step().Step().Step().Step().Step()
    ensures StepN(r, 6) == r.Step().Step().Step().Step().Step().Step() && StepN(r, 7) == Seven(r)
  {
    assert StepN(r, 1) == StepN(r, 0).Step();
    assert StepN(r, 2) == StepN(r, 1).Step();
    assert StepN(r, 3) == StepN(r, 2).Step();
    assert StepN(r, 4) == StepN(r, 3).Step();
    assert StepN(r, 5) == StepN(r, 4).Step();
    assert StepN(r, 6) == StepN(r, 5).Step();
    assert StepN(r, 7) == StepN(r, 6).Step();
  }

  lemma LfsrSeven(t: nat)
    ensures Lfsr(t + 7) == Seven(Lfsr(t))
  {
    LfsrSteps(t, 7);
    SevenSteps(Lfsr(t));
  }

  lemma InfoOutputs(ir: nat)
    requires ir < 24
    ensures InfoBits(RoundInfo(ir)) == Outputs(Lfsr(7 * ir))
  {
    InfoIs(ir);
    StartsAt(ir);
    OutputsAre(ir);
  }

  /** The round information is rc(k + 7 ir). */
  lemma RoundTable(ir: nat, k: nat)
    requires ir < 24 && k < 7
    ensures |InfoBits(RoundInfo(ir))| == 7 && (InfoBits(RoundInfo(ir))[k] <==> Rc(k + 7 * ir))
  {
    var t := 7 * ir;
    InfoOutputs(ir);
    OutputAt(t, k);
    SameBit(InfoBits(RoundInfo(ir)), Outputs(Lfsr(t)), k, Lfsr(t + k).r0);
  }

  lemma SameBit(a: seq<bool>, b: seq<bool>, k: nat, v: bool)
    requires a == b && |b| == 7 && k < 7 && b[k] == v
    ensures |a| == 7 && a[k] == v
  {}

  lemma OutputAt(t: nat, k: nat)
    requires k < 7
    ensures Outputs(Lfsr(t))[k] == Lfsr(t + k).r0
  {
    LfsrSteps(t, k);
    OutputStep(Lfsr(t), k);
  }

  lemma OutputStep(r: Register, k: nat)
    requires k < 7
    ensures Outputs(r)[k] == StepN(r, k).r0
  {
    SevenSteps(r);
    assert StepN(r, 0) == r;
  }
}
