/** sha3_permutation of faucet-wasm/nickminer/miner/keccak256.c, in place on the 25 lanes, does
    what the 24 rounds of FIPS 202 do. */
module KeccakPermutation {
  import opened KeccakSpec
  import opened KeccakTables

  function ShiftLeft(a: Lane, n: nat): Lane { seq(64, z requires 0 <= z < 64 => z >= n && a[z - n]) }

  function ShiftRight(a: Lane, n: nat): Lane { seq(64, z requires 0 <= z < 64 => z + n < 64 && a[z + n]) }

  /** ROTL64. */
  function Rotl(a: Lane, n: nat): Lane
    requires n <= 64
  {
    Xor(ShiftLeft(a, n), ShiftRight(a, 64 - n))
  }

  lemma RotlIs(a: Lane, n: nat)
    requires 1 <= n < 64
    ensures Rotl(a, n) == Rotate(a, n)
  {
    forall z | 0 <= z < 64 ensures Rotl(a, n)[z] == Rotate(a, n)[z] {}
  }

  // ------------------------------------------------------------------ theta

  /** The xor of the first k + 1 lanes of column x. */
  function ColumnTo(a: State, x: nat, k: nat): Lane
    requires x < 5 && k < 5
    decreases k
  {
    if k == 0 then At(a, x, 0) else Xor(ColumnTo(a, x, k - 1), At(a, x, k))
  }

  lemma ColumnIs(a: State, x: nat)
    requires x < 5
    ensures ColumnTo(a, x, 4) == Column(a, x)
  {
    assert ColumnTo(a, x, 1) == Xor(ColumnTo(a, x, 0), At(a, x, 1));
    assert ColumnTo(a, x, 2) == Xor(ColumnTo(a, x, 1), At(a, x, 2));
    assert ColumnTo(a, x, 3) == Xor(ColumnTo(a, x, 2), At(a, x, 3));
  }

  method ThetaColumns(a: array<Lane>, c: array<Lane>)
    requires a.Length == 25 && c.Length == 5 && a != c
    modifies c
    ensures forall x :: 0 <= x < 5 ==> c[x] == Column(a[..], x)
  {
    ghost var s: State := a[..];
    for i := 0 to 5
      invariant a[..] == s
      invariant forall x :: 0 <= x < i ==> c[x] == Column(s, x)
    {
      SumColumn(a, c, i);
    }
  }

  method SumColumn(a: array<Lane>, c: array<Lane>, i: nat)
    requires a.Length == 25 && c.Length == 5 && a != c && i < 5
    modifies c
    ensures c[i] == Column(a[..], i) && forall x :: 0 <= x < 5 && x != i ==> c[x] == old(c[x])
  {
    ghost var s: State := a[..];
    c[i] := a[i];
    var j := 5;
    ghost var y := 1;
    while j < 25
      invariant 1 <= y <= 5 && j == 5 * y && a[..] == s && c[i] == ColumnTo(s, i, y - 1)
      invariant forall x :: 0 <= x < 5 && x != i ==> c[x] == old(c[x])
      decreases 25 - j
    {
      assert a[i + j] == At(s, i, y);
      c[i] := Xor(c[i], a[i + j]);
      j, y := j + 5, y + 1;
    }
    ColumnIs(s, i);
  }

  method ThetaEffects(c: array<Lane>, d: array<Lane>, ghost s: State)
    requires c.Length == 5 && d.Length == 5 && c != d && forall x :: 0 <= x < 5 ==> c[x] == Column(s, x)
    modifies d
    ensures forall x :: 0 <= x < 5 ==> d[x] == ThetaEffect(s, x)
  {
    for i := 0 to 5
      invariant forall x :: 0 <= x < 5 ==> c[x] == Column(s, x)
      invariant forall x :: 0 <= x < i ==> d[x] == ThetaEffect(s, x)
    {
      NextPrev(i);
      RotlIs(c[(i + 1) % 5], 1);
      d[i] := Xor(Rotl(c[(i + 1) % 5], 1), c[(i + 4) % 5]);
    }
  }

  lemma NextPrev(x: nat)
    requires x < 5
    ensures (x + 1) % 5 == Next(x) && (x + 4) % 5 == Prev(x) && Next(x) < 5 && Prev(x) < 5
  {}

  /** Columns below x are done, and column x in the rows below y. */
  predicate ThetaUpTo(a: State, s: State, x: nat, y: nat) {
    forall u: nat, v: nat :: u < 5 && v < 5 ==> At(a, u, v) == if u < x || (u == x && v < y) then ThetaAt(s, u, v) else At(s, u, v)
  }

  lemma UpdateAt(a: State, x: nat, y: nat, l: Lane)
    requires x < 5 && y < 5
    ensures var b: State := a[x + 5 * y := l];
            At(b, x, y) == l && forall u: nat, v: nat :: u < 5 && v < 5 && !(u == x && v == y) ==> At(b, u, v) == At(a, u, v)
  {
    var b: State := a[x + 5 * y := l];
    forall u: nat, v: nat | u < 5 && v < 5 && !(u == x && v == y) ensures At(b, u, v) == At(a, u, v) {
      Separate(u, v, x, y);
    }
  }

  lemma Separate(u: nat, v: nat, x: nat, y: nat)
    requires u < 5 && v < 5 && x < 5 && y < 5 && !(u == x && v == y)
    ensures u + 5 * v != x + 5 * y
  {}

  /** The effect of column x is added to one lane of it. */
  function ThetaLane(a: State, s: State, x: nat, y: nat): State
    requires x < 5 && y < 5
  {
    a[x + 5 * y := Xor(a[x + 5 * y], ThetaEffect(s, x))]
  }

  lemma ThetaStep(a: State, s: State, x: nat, y: nat)
    requires x < 5 && y < 5 && ThetaUpTo(a, s, x, y)
    ensures ThetaUpTo(ThetaLane(a, s, x, y), s, x, y + 1)
  {
    assert a[x + 5 * y] == At(a, x, y) == At(s, x, y);
    UpdateAt(a, x, y, Xor(a[x + 5 * y], ThetaEffect(s, x)));
  }

  /** The first y lanes of column x, from the top. */
  ghost function ThetaLanes(a: State, s: State, x: nat, y: nat): State
    requires x < 5 && y <= 5
  {
    if y == 0 then a else ThetaLane(ThetaLanes(a, s, x, y - 1), s, x, y - 1)
  }

  lemma {:induction false} ThetaLanesAre(a: State, s: State, x: nat, y: nat)
    requires x < 5 && y <= 5 && ThetaUpTo(a, s, x, 0)
    ensures ThetaUpTo(ThetaLanes(a, s, x, y), s, x, y)
  {
    if y > 0 {
      ThetaLanesAre(a, s, x, y - 1);
      ThetaStep(ThetaLanes(a, s, x, y - 1), s, x, y - 1);
    }
  }

  lemma ThetaNextColumn(a: State, s: State, x: nat)
    requires x < 5 && ThetaUpTo(a, s, x, 5)
    ensures ThetaUpTo(a, s, x + 1, 0)
  {}

  lemma ThetaEnd(a: State, s: State)
    requires ThetaUpTo(a, s, 5, 0)
    ensures a == Theta(s)
  {
    forall u: nat, v: nat | u < 5 && v < 5 ensures At(a, u, v) == At(Theta(s), u, v) {
      AtBuild((x, y) => ThetaAt(s, x, y), u, v);
    }
    SameState(a, Theta(s));
  }

  /** keccak_theta. */
  method ThetaInPlace(a: array<Lane>)
    requires a.Length == 25
    modifies a
    ensures a[..] == Theta(old(a[..]))
  {
    ghost var s: State := a[..];
    var c, d := new Lane[5](_ => ZeroLane()), new Lane[5](_ => ZeroLane());
    ThetaColumns(a, c);
    ThetaEffects(c, d, s);
    ThetaApply(a, d, s);
  }

  method ThetaApply(a: array<Lane>, d: array<Lane>, ghost s: State)
    requires a.Length == 25 && d.Length == 5 && a != d && a[..] == s
    requires forall x :: 0 <= x < 5 ==> d[x] == ThetaEffect(s, x)
    modifies a
    ensures a[..] == Theta(s)
  {
    ghost var b: State := s;
    for i := 0 to 5
      invariant a[..] == b && ThetaUpTo(b, s, i, 0)
    {
      ThetaColumn(a, d, b, s, i);
      ThetaLanesAre(b, s, i, 5);
      b := ThetaLanes(b, s, i, 5);
      ThetaNextColumn(b, s, i);
    }
    ThetaEnd(b, s);
  }

  method ThetaColumn(a: array<Lane>, d: array<Lane>, ghost b: State, ghost s: State, i: nat)
    requires a.Length == 25 && d.Length == 5 && a != d && i < 5
    requires a[..] == b && d[i] == ThetaEffect(s, i)
    modifies a
    ensures a[..] == ThetaLanes(b, s, i, 5)
  {
    var j := 0;
    ghost var y := 0;
    while j < 25
      invariant 0 <= y <= 5 && j == 5 * y && a[..] == ThetaLanes(b, s, i, y)
      decreases 25 - j
    {
      XorLane(a, i + j, d[i]);
      j, y := j + 5, y + 1;
    }
  }

  method XorLane(a: array<Lane>, k: nat, lane: Lane)
    requires k < a.Length == 25
    modifies a
    ensures a[..] == old(a[..])[k := Xor(old(a[..])[k], lane)]
  {
    var sum := Xor(a[k], lane);
    StoreLane(a, k, sum);
  }

  method StoreLane(a: array<Lane>, k: nat, lane: Lane)
    requires k < a.Length == 25
    modifies a
    ensures a[..] == old(a[..])[k := lane]
  {
    a[k] := lane;
  }

  // ------------------------------------------------------------------ rho

  /** The rho loop of sha3_permutation. */
  method RhoInPlace(a: array<Lane>)
    requires a.Length == 25
    modifies a
    ensures a[..] == Rho(old(a[..]))
  {
    ghost var s: State := a[..];
    for i := 1 to 25
      invariant forall k :: 0 <= k < 25 ==> a[k] == if 1 <= k < i then Rotate(s[k], Offset(k)) else s[k]
    {
      RhoTable(i);
      RotlIs(a[i], RhoTransform(i - 1));
      a[i] := Rotl(a[i], RhoTransform(i - 1));
    }
    ZeroRotation(s[0]);
  }

  lemma ZeroRotation(a: Lane)
    ensures Rotate(a, 0) == a
  {}

  // ------------------------------------------------------------------ pi

  function PiIndex(k: nat): (j: nat)
    ensures j < 25
  {
    if PiFrom(k) < 25 then PiFrom(k) else 0
  }

  /** The first n entries of the table have moved. */
  predicate PiUpTo(a: State, s: State, n: nat) {
    a[0] == s[0] && forall k :: 1 <= k < 25 ==> a[k] == s[if PiPlace(k) < n then PiIndex(k) else k]
  }

  lemma PiStep(a: State, b: State, s: State, i: nat)
    requires 1 <= i < 24 && PiUpTo(a, s, i - 1)
    requires 1 <= PiTransform(i - 1) < 25 && 1 <= PiTransform(i) < 25
    requires b == a[PiTransform(i - 1) := a[PiTransform(i)]]
    ensures PiUpTo(b, s, i)
  {
    PiOnce(i - 1);
    PiOnce(i);
    PiChain(i - 1);
    var p, q := PiTransform(i - 1), PiTransform(i);
    forall k | 1 <= k < 25 ensures b[k] == s[if PiPlace(k) < i then PiIndex(k) else k] {
      PiPlaces(k);
      if k != p { assert b[k] == a[k]; }
    }
  }

  lemma PiEnd(a: State, s: State)
    requires PiUpTo(a, s, 23)
    ensures a[10 := s[1]] == Pi(s)
  {
    var b: State := a[10 := s[1]];
    forall k | 0 <= k < 25 ensures b[k] == s[PiIndex(k)] {
      if k > 0 && k != 10 {
        PiPlaces(k);
        PiLastPlace(k);
      }
    }
    forall x: nat, y: nat | x < 5 && y < 5 ensures At(b, x, y) == At(Pi(s), x, y) {
      PiTable(x, y);
      AtBuild((u, v) => PiAt(s, u, v), x, y);
    }
    SameState(b, Pi(s));
  }

  lemma PiLastPlace(k: nat)
    requires 1 <= k < 25 && k != 10
    ensures PiPlace(k) < 23
  {}

  /** keccak_pi: lanes move along the table; the first one that was overwritten comes last. */
  method PiInPlace(a: array<Lane>)
    requires a.Length == 25
    modifies a
    ensures a[..] == Pi(old(a[..]))
  {
    ghost var s: State := a[..];
    var a1 := a[1];
    for i := 1 to 24
      invariant PiUpTo(a[..], s, i - 1)
    {
      PiMove(a, s, i);
    }
    PiEnd(a[..], s);
    a[10] := a1;
  }

  method PiMove(a: array<Lane>, ghost s: State, i: nat)
    requires a.Length == 25 && 1 <= i < 24 && PiUpTo(a[..], s, i - 1)
    modifies a
    ensures PiUpTo(a[..], s, i)
  {
    PiOnce(i - 1);
    PiOnce(i);
    ghost var b: State := a[..];
    a[PiTransform(i - 1)] := a[PiTransform(i)];
    PiStep(b, a[..], s, i);
  }

  // ------------------------------------------------------------------ chi

  predicate RowsDone(a: State, s: State, row: nat) {
    forall u: nat, v: nat :: u < 5 && v < 5 ==> At(a, u, v) == if v < row then ChiAt(s, u, v) else At(s, u, v)
  }

  /** keccak_chi: row by row, with the first two lanes of the row kept aside. */
  method ChiInPlace(a: array<Lane>)
    requires a.Length == 25
    modifies a
    ensures a[..] == Chi(old(a[..]))
  {
    ghost var s: State := a[..];
    var i := 0;
    ghost var row := 0;
    while i < 25
      invariant 0 <= row <= 5 && i == 5 * row && RowsDone(a[..], s, row)
      decreases 25 - i
    {
      ghost var b: State := a[..];
      ChiFive(a, i);
      ChiStep(b, a[..], s, row);
      i, row := i + 5, row + 1;
    }
    ChiDone(a[..], s);
  }

  lemma ChiDone(a: State, s: State)
    requires RowsDone(a, s, 5)
    ensures a == Chi(s)
  {
    forall u: nat, v: nat | u < 5 && v < 5 ensures At(a, u, v) == At(Chi(s), u, v) {
      AtBuild((x, y) => ChiAt(s, x, y), u, v);
    }
    SameState(a, Chi(s));
  }

  method ChiFive(a: array<Lane>, i: nat)
    requires a.Length == 25 && i <= 20
    modifies a
    ensures a[i] == old(Xor(a[i], AndNot(a[i + 1], a[i + 2]))) && a[i + 1] == old(Xor(a[i + 1], AndNot(a[i + 2], a[i + 3])))
    ensures a[i + 2] == old(Xor(a[i + 2], AndNot(a[i + 3], a[i + 4]))) && a[i + 3] == old(Xor(a[i + 3], AndNot(a[i + 4], a[i])))
    ensures a[i + 4] == old(Xor(a[i + 4], AndNot(a[i], a[i + 1])))
    ensures forall k :: 0 <= k < 25 && !(i <= k < i + 5) ==> a[k] == old(a[k])
  {
    var a0, a1 := a[0 + i], a[1 + i];
    a[0 + i] := Xor(a[0 + i], AndNot(a1, a[2 + i]));
    a[1 + i] := Xor(a[1 + i], AndNot(a[2 + i], a[3 + i]));
    a[2 + i] := Xor(a[2 + i], AndNot(a[3 + i], a[4 + i]));
    a[3 + i] := Xor(a[3 + i], AndNot(a[4 + i], a0));
    a[4 + i] := Xor(a[4 + i], AndNot(a0, a1));
  }

  lemma ChiStep(b: State, a: State, s: State, row: nat)
    requires row < 5 && RowsDone(b, s, row)
    requires forall k :: 0 <= k < 25 && !(5 * row <= k < 5 * row + 5) ==> a[k] == b[k]
    requires var i := 5 * row;
             && a[i] == Xor(b[i], AndNot(b[i + 1], b[i + 2])) && a[i + 1] == Xor(b[i + 1], AndNot(b[i + 2], b[i + 3]))
             && a[i + 2] == Xor(b[i + 2], AndNot(b[i + 3], b[i + 4])) && a[i + 3] == Xor(b[i + 3], AndNot(b[i + 4], b[i]))
             && a[i + 4] == Xor(b[i + 4], AndNot(b[i], b[i + 1]))
    ensures RowsDone(a, s, row + 1)
  {
    RowLanes(b, s, row);
    forall u: nat, v: nat | u < 5 && v < 5 ensures At(a, u, v) == if v < row + 1 then ChiAt(s, u, v) else At(s, u, v) {
      if v == row { ChiLane(a, b, s, u, row); }
      else { assert At(a, u, v) == At(b, u, v); }
    }
  }

  lemma RowLanes(b: State, s: State, row: nat)
    requires row < 5 && RowsDone(b, s, row)
    ensures b[5 * row] == At(s, 0, row) && b[5 * row + 1] == At(s, 1, row) && b[5 * row + 2] == At(s, 2, row)
    ensures b[5 * row + 3] == At(s, 3, row) && b[5 * row + 4] == At(s, 4, row)
  {
    assert b[5 * row] == At(b, 0, row) && b[5 * row + 1] == At(b, 1, row) && b[5 * row + 2] == At(b, 2, row);
    assert b[5 * row + 3] == At(b, 3, row) && b[5 * row + 4] == At(b, 4, row);
  }

  lemma ChiLane(a: State, b: State, s: State, u: nat, row: nat)
    requires u < 5 && row < 5
    requires b[5 * row] == At(s, 0, row) && b[5 * row + 1] == At(s, 1, row) && b[5 * row + 2] == At(s, 2, row)
    requires b[5 * row + 3] == At(s, 3, row) && b[5 * row + 4] == At(s, 4, row)
    requires var i := 5 * row;
             && a[i] == Xor(b[i], AndNot(b[i + 1], b[i + 2])) && a[i + 1] == Xor(b[i + 1], AndNot(b[i + 2], b[i + 3]))
             && a[i + 2] == Xor(b[i + 2], AndNot(b[i + 3], b[i + 4])) && a[i + 3] == Xor(b[i + 3], AndNot(b[i + 4], b[i]))
             && a[i + 4] == Xor(b[i + 4], AndNot(b[i], b[i + 1]))
    ensures At(a, u, row) == ChiAt(s, u, row)
  {
    assert At(a, 0, row) == a[5 * row] && At(a, 1, row) == a[5 * row + 1] && At(a, 2, row) == a[5 * row + 2];
    assert At(a, 3, row) == a[5 * row + 3] && At(a, 4, row) == a[5 * row + 4];
  }

  // ------------------------------------------------------------------ iota

  function Spread(bits: seq<bool>): Lane
    requires |bits| == 7
  {
    seq(64, z requires 0 <= z < 64 =>
      if z == 0 then bits[0] else if z == 1 then bits[1] else if z == 3 then bits[2] else if z == 7 then bits[3]
      else if z == 15 then bits[4] else if z == 31 then bits[5] else if z == 63 then bits[6] else false)
  }

  /** get_round_constant. */
  method GetRoundConstant(round: nat) returns (result: Lane)
    requires round < 24
    ensures result == RoundConstant(round)
  {
    RoundBitsAre(round);
    result := SetBits(InfoBits(RoundInfo(round)));
    SpreadIs(InfoBits(RoundInfo(round)), round);
  }

  method SetBits(bits: seq<bool>) returns (result: Lane)
    requires |bits| == 7
    ensures result == Spread(bits)
  {
    result := ZeroLane();
    if bits[6] { result := result[63 := true]; }
    if bits[5] { result := result[31 := true]; }
    if bits[4] { result := result[15 := true]; }
    if bits[3] { result := result[7 := true]; }
    if bits[2] { result := result[3 := true]; }
    if bits[1] { result := result[1 := true]; }
    if bits[0] { result := result[0 := true]; }
  }

  lemma SpreadIs(bits: seq<bool>, round: nat)
    requires |bits| == 7
    requires (bits[0] <==> Rc(7 * round)) && (bits[1] <==> Rc(1 + 7 * round)) && (bits[2] <==> Rc(2 + 7 * round))
    requires (bits[3] <==> Rc(3 + 7 * round)) && (bits[4] <==> Rc(4 + 7 * round)) && (bits[5] <==> Rc(5 + 7 * round))
    requires round < 24 && (bits[6] <==> Rc(6 + 7 * round))
    ensures Spread(bits) == RoundConstant(round)
  {}

  lemma RoundBitsAre(round: nat)
    requires round < 24
    ensures var bits := InfoBits(RoundInfo(round));
            && |bits| == 7
            && (bits[0] <==> Rc(7 * round)) && (bits[1] <==> Rc(1 + 7 * round)) && (bits[2] <==> Rc(2 + 7 * round))
            && (bits[3] <==> Rc(3 + 7 * round)) && (bits[4] <==> Rc(4 + 7 * round)) && (bits[5] <==> Rc(5 + 7 * round))
            && (bits[6] <==> Rc(6 + 7 * round))
  {
    RoundTable(round, 0);
    RoundTable(round, 1);
    RoundTable(round, 2);
    RoundTable(round, 3);
    RoundTable(round, 4);
    RoundTable(round, 5);
    RoundTable(round, 6);
  }

  /** One round of sha3_permutation. */
  method RoundInPlace(state: array<Lane>, round: nat)
    requires state.Length == 25 && round < 24
    modifies state
    ensures state[..] == Round(old(state[..]), round)
  {
    ThetaInPlace(state);
    RhoInPlace(state);
    PiInPlace(state);
    ChiInPlace(state);
    IotaInPlace(state, round);
  }

  method IotaInPlace(state: array<Lane>, round: nat)
    requires state.Length == 25 && round < 24
    modifies state
    ensures state[..] == Iota(old(state[..]), round)
  {
    var constant := GetRoundConstant(round);
    state[0] := Xor(state[0], constant);
  }

  lemma RoundsNext(s: State, n: nat)
    requires n < 24
    ensures Rounds(s, n + 1) == Round(Rounds(s, n), n)
  {}

  /** sha3_permutation. */
  method Permute(state: array<Lane>)
    requires state.Length == 25
    modifies state
    ensures state[..] == Permutation(old(state[..]))
  {
    ghost var s: State := state[..];
    ghost var r := s;
    for round := 0 to 24
      invariant state[..] == r && r == Rounds(s, round)
    {
      RoundInPlace(state, round);
      RoundsNext(s, round);
      r := Rounds(s, round + 1);
    }
  }
}
