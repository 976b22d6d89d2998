/** The exact outflow balance of src/modules/faucet-outflow/FaucetOutflowModule.ts as a value:
    accrual, upper clamp, debits, and the laws they obey between policy reloads. */
module OutflowLedger {
  import opened Rationals

  /** fees are the claim-fee markers (transaction hash to session). paid is history carried
      with the balance: the sessions whose claim fee has been taken out of it. */
  datatype OutflowState = OutflowState(
    num: int, den: int, updateTime: nat, rateAmount: nat, rateDuration: nat,
    fees: map<string, string>, paid: multiset<string>)

  datatype Policy = Policy(amount: nat, duration: nat, lowerLimit: int, upperLimit: int)

  /** parsePolicy accepts only these. */
  predicate PolicyOk(p: Policy) { p.amount > 0 && p.duration > 0 && p.lowerLimit <= 0 <= p.upperLimit }

  ghost predicate Canonical(s: OutflowState) { Lowest(s.num, s.den) && s.rateDuration > 0 }

  /** normalizeBalance. */
  function Reduce(s: OutflowState): OutflowState
    requires s.den > 0
    ensures Reduce(s).den > 0
  {
    LowestTermsOk(s.num, s.den);
    var (n, d) := LowestTerms(s.num, s.den);
    s.(num := n, den := d)
  }

  /** settleBalance at clock value now. */
  function Settle(s: OutflowState, now: nat): OutflowState
    requires s.den > 0 && s.rateDuration > 0
  {
    if now <= s.updateTime then s
    else
      var elapsed := now - s.updateTime;
      MulPositive(s.den, s.rateDuration);
      Reduce(s.(num := s.num * s.rateDuration + elapsed * s.rateAmount * s.den,
                den := s.den * s.rateDuration, updateTime := now))
  }

  lemma MulPositive(a: int, b: int)
    requires a > 0 && b > 0
    ensures a * b > 0
  {
    MulOrder(a, b);
  }

  /** clampUpperLimit. */
  function ClampUpper(s: OutflowState, upper: int): OutflowState {
    if s.num - upper * s.den > 0 then s.(num := upper, den := 1) else s
  }

  /** What every reader does: settle, then clamp. */
  function Accrue(s: OutflowState, now: nat, upper: int): OutflowState
    requires s.den > 0 && s.rateDuration > 0
  {
    ClampUpper(Settle(s, now), upper)
  }

  /** Taking a whole amount out of the balance. */
  function Debit(s: OutflowState, amount: nat): OutflowState
    requires s.den > 0
  {
    Reduce(s.(num := s.num - amount * s.den))
  }

  // ------------------------------------------------------------------ value laws

  ghost function Value(s: OutflowState): real
    requires s.den > 0
  {
    s.num as real / s.den as real
  }

  lemma RealMul(a: int, b: int)
    ensures (a * b) as real == a as real * b as real
  {}

  lemma CrossReal(a: int, b: int, c: int, d: int)
    requires b > 0 && d > 0
    ensures a * d == c * b <==> a as real / b as real == c as real / d as real
  {
    RealMul(a, d);
    RealMul(c, b);
    var x, y := a as real / b as real, c as real / d as real;
    assert x * b as real == a as real && y * d as real == c as real;
    assert a as real * d as real == x * (b as real * d as real);
    assert c as real * b as real == y * (b as real * d as real);
    if a * d == c * b {
      CancelReal(x, y, b as real * d as real);
    }
  }

  lemma CancelReal(x: real, y: real, k: real)
    requires k > 0.0 && x * k == y * k
    ensures x == y
  {
    assert (x - y) * k == 0.0;
  }

  lemma ReduceValue(s: OutflowState)
    requires s.den > 0
    ensures Reduce(s).den > 0 && Value(Reduce(s)) == Value(s)
  {
    LowestTermsOk(s.num, s.den);
    var (n, d) := LowestTerms(s.num, s.den);
    CrossReal(n, d, s.num, s.den);
  }

  /** Settling adds exactly rate times elapsed time. */
  lemma SettleValue(s: OutflowState, now: nat)
    requires s.den > 0 && s.rateDuration > 0
    ensures var r := Settle(s, now);
            r.den > 0 && Value(r) == Value(s) + Accrued(s, now)
  {
    if now > s.updateTime {
      var e, n, d, a, t := now - s.updateTime, s.num, s.den, s.rateAmount, s.rateDuration;
      MulPositive(d, t);
      var m := s.(num := n * t + e * a * d, den := d * t, updateTime := now);
      ReduceValue(m);
      FractionSum(n, d, e * a, t);
      RealMul(e, a);
    }
  }

  /** The accrual between the last update and now, in exact arithmetic. */
  ghost function Accrued(s: OutflowState, now: nat): real
    requires s.rateDuration > 0
  {
    if now <= s.updateTime then 0.0
    else (now - s.updateTime) as real * s.rateAmount as real / s.rateDuration as real
  }

  lemma FractionSum(n: int, d: int, m: int, t: int)
    requires d > 0 && t > 0
    ensures d * t > 0
    ensures (n * t + m * d) as real / (d * t) as real == n as real / d as real + m as real / t as real
  {
    MulPositive(d, t);
    RealMul(n, t);
    RealMul(m, d);
    RealMul(d, t);
    var x, y := n as real / d as real, m as real / t as real;
    var k := d as real * t as real;
    assert x * d as real == n as real && y * t as real == m as real;
    assert (x + y) * k == (x * d as real) * t as real + (y * t as real) * d as real;
    var z := (n * t + m * d) as real / (d * t) as real;
    assert z * k == (n * t + m * d) as real;
    CancelReal(z, x + y, k);
  }

  /** A debit removes exactly the amount. */
  lemma DebitValue(s: OutflowState, amount: nat)
    requires s.den > 0
    ensures Debit(s, amount).den > 0 && Value(Debit(s, amount)) == Value(s) - amount as real
    ensures Debit(s, amount).updateTime == s.updateTime
  {
    var m := s.(num := s.num - amount * s.den);
    ReduceValue(m);
    RealMul(amount, s.den);
    var x, z := Value(s), Value(m);
    assert z * s.den as real == s.num as real - amount as real * s.den as real;
    CancelReal(z, x - amount as real, s.den as real);
  }

  // ------------------------------------------------- every operation keeps lowest terms

  lemma ReduceCanonical(s: OutflowState)
    requires s.den > 0 && s.rateDuration > 0
    ensures Canonical(Reduce(s))
  {
    LowestTermsOk(s.num, s.den);
  }

  lemma WholeCanonical(n: int)
    ensures Lowest(n, 1)
  {
    assert Bezout(n, 1, 0, 1);
  }

  lemma SettleCanonical(s: OutflowState, now: nat)
    requires Canonical(s)
    ensures Canonical(Settle(s, now))
  {
    if now > s.updateTime {
      MulPositive(s.den, s.rateDuration);
      ReduceCanonical(s.(num := s.num * s.rateDuration + (now - s.updateTime) * s.rateAmount * s.den,
                         den := s.den * s.rateDuration, updateTime := now));
    }
  }

  lemma ClampCanonical(s: OutflowState, upper: int)
    requires Canonical(s)
    ensures Canonical(ClampUpper(s, upper))
  {
    WholeCanonical(upper);
  }

  lemma AccrueCanonical(s: OutflowState, now: nat, upper: int)
    requires Canonical(s)
    ensures Canonical(Accrue(s, now, upper))
  {
    SettleCanonical(s, now);
    ClampCanonical(Settle(s, now), upper);
  }

  lemma DebitCanonical(s: OutflowState, amount: nat)
    requires Canonical(s)
    ensures Canonical(Debit(s, amount))
  {
    ReduceCanonical(s.(num := s.num - amount * s.den));
  }

  /** Two ledgers in lowest terms with the same value and the same other fields are identical. */
  lemma SameValueSameState(a: OutflowState, b: OutflowState)
    requires Canonical(a) && Canonical(b) && Value(a) == Value(b)
    requires a.(num := 0, den := 1) == b.(num := 0, den := 1)
    ensures a == b
  {
    CrossReal(a.num, a.den, b.num, b.den);
    LowestUnique(a.num, a.den, b.num, b.den);
  }

  lemma ClampValue(s: OutflowState, upper: int)
    requires s.den > 0
    ensures ClampUpper(s, upper).den > 0
    ensures Value(ClampUpper(s, upper)) == if Value(s) > upper as real then upper as real else Value(s)
    ensures Value(s) > upper as real <==> s.num - upper * s.den > 0
  {
    RealMul(upper, s.den);
    var x, u, d := Value(s), upper as real, s.den as real;
    assert x * d == s.num as real;
    assert (x - u) * d == (s.num - upper * s.den) as real;
    assert (x - u) * d > 0.0 <==> x - u > 0.0;
  }

  lemma AccrueValue(s: OutflowState, now: nat, upper: int)
    requires s.den > 0 && s.rateDuration > 0
    ensures var r := Accrue(s, now, upper);
            r.den > 0 && Value(r) == Min(Value(s) + Accrued(s, now), upper as real)
  {
    SettleValue(s, now);
    ClampValue(Settle(s, now), upper);
  }

  function Min(a: real, b: real): real { if a <= b then a else b }

  lemma AccruedSplit(s: OutflowState, r: OutflowState, t1: nat, t2: nat)
    requires s.rateDuration > 0 && t1 <= t2
    requires r.rateAmount == s.rateAmount && r.rateDuration == s.rateDuration
    requires r.updateTime == if t1 <= s.updateTime then s.updateTime else t1
    ensures Accrued(s, t1) >= 0.0 && Accrued(r, t2) >= 0.0
    ensures Accrued(s, t1) + Accrued(r, t2) == Accrued(s, t2)
  {
    AccruedNonNegative(s, t1);
    AccruedNonNegative(r, t2);
    if t1 > s.updateTime && t2 > t1 {
      var a, t := s.rateAmount as real, s.rateDuration as real;
      var e1, e2 := (t1 - s.updateTime) as real, (t2 - t1) as real;
      assert e1 * a / t + e2 * a / t == (e1 * a + e2 * a) / t == ((e1 + e2) * a) / t;
    }
  }

  lemma AccruedNonNegative(s: OutflowState, now: nat)
    requires s.rateDuration > 0
    ensures Accrued(s, now) >= 0.0
  {
    if now > s.updateTime {
      var p := (now - s.updateTime) as real * s.rateAmount as real;
      assert p >= 0.0;
      assert p / s.rateDuration as real >= 0.0;
    }
  }

  /** Path independence: settling and clamping at t1 and again at t2 gives the identical
      numerator, denominator and time that doing it once at t2 gives. */
  lemma PathIndependent(s: OutflowState, t1: nat, t2: nat, upper: int)
    requires Canonical(s) && t1 <= t2
    ensures Accrue(Accrue(s, t1, upper), t2, upper) == Accrue(s, t2, upper)
  {
    var r := Accrue(s, t1, upper);
    AccrueCanonical(s, t1, upper);
    AccrueCanonical(r, t2, upper);
    AccrueCanonical(s, t2, upper);
    AccrueValue(s, t1, upper);
    AccrueValue(r, t2, upper);
    AccrueValue(s, t2, upper);
    AccruedSplit(s, r, t1, t2);
    SameValueSameState(Accrue(r, t2, upper), Accrue(s, t2, upper));
  }

  predicate Sorted(ts: seq<nat>) { forall i, j :: 0 <= i < j < |ts| ==> ts[i] <= ts[j] }

  /** Reading the restriction at each of the given times. */
  function ReadAt(s: OutflowState, ts: seq<nat>, upper: int): OutflowState
    requires s.den > 0 && s.rateDuration > 0
    decreases |ts|
  {
    if ts == [] then s
    else
      AccrueDen(s, ts[0], upper);
      ReadAt(Accrue(s, ts[0], upper), ts[1..], upper)
  }

  lemma AccrueDen(s: OutflowState, now: nat, upper: int)
    requires s.den > 0 && s.rateDuration > 0
    ensures Accrue(s, now, upper).den > 0 && Accrue(s, now, upper).rateDuration == s.rateDuration
  {}

  /** Any number of earlier reads leaves every later state exactly as if none had happened. */
  lemma {:induction false} ReadsChangeNothing(s: OutflowState, ts: seq<nat>, now: nat, upper: int)
    requires Canonical(s) && Sorted(ts) && (forall i :: 0 <= i < |ts| ==> ts[i] <= now)
    ensures var r := ReadAt(s, ts, upper);
            r.den > 0 && r.rateDuration > 0 && Accrue(r, now, upper) == Accrue(s, now, upper)
    decreases |ts|
  {
    AccrueDen(s, now, upper);
    if ts != [] {
      AccrueCanonical(s, ts[0], upper);
      ReadsChangeNothing(Accrue(s, ts[0], upper), ts[1..], now, upper);
      PathIndependent(s, ts[0], now, upper);
    }
  }

  // ------------------------------------------------------------------ conservation

  /** The write of accountConfirmedNativeClaimFee: prune, accrue, debit the fee, set the marker. */
  function FeeNext(cur: OutflowState, pruned: map<string, string>, h: string, s: string, fee: nat, now: nat, upper: int): OutflowState
    requires cur.den > 0 && cur.rateDuration > 0
  {
    AccrueDen(cur, now, upper);
    Debit(Accrue(cur, now, upper), fee).(fees := pruned[h := s], paid := cur.paid + multiset{s})
  }

  /** A reader, a reward, or a claim fee with the markers that pruning leaves. */
  datatype LedgerOp =
    | ReadBalance(at: nat)
    | Spend(at: nat, amount: nat)
    | Charge(at: nat, amount: nat, txHash: string, session: string, pruned: map<string, string>)

  /** updateState, the fee hook and the readers between policy reloads. */
  function DoOp(s: OutflowState, op: LedgerOp, upper: int): (r: OutflowState)
    requires s.den > 0 && s.rateDuration > 0
    ensures r.den > 0 && r.rateDuration == s.rateDuration && r.rateAmount == s.rateAmount
  {
    AccrueDen(s, op.at, upper);
    var a := Accrue(s, op.at, upper);
    match op
    case ReadBalance(_) => a
    case Spend(_, amount) => Debit(a, amount)
    case Charge(_, fee, h, session, pruned) => FeeNext(s, pruned, h, session, fee, op.at, upper)
  }

  function DoOps(s: OutflowState, ops: seq<LedgerOp>, upper: int): (r: OutflowState)
    requires s.den > 0 && s.rateDuration > 0
    ensures r.den > 0 && r.rateDuration == s.rateDuration && r.rateAmount == s.rateAmount
    decreases |ops|
  {
    if ops == [] then s else DoOps(DoOp(s, ops[0], upper), ops[1..], upper)
  }

  /** The rewards of a run. */
  function Spent(ops: seq<LedgerOp>): nat
    decreases |ops|
  {
    if ops == [] then 0 else (if ops[0].Spend? then ops[0].amount else 0) + Spent(ops[1..])
  }

  /** The fees of the sessions that have paid, each as often as it has. */
  ghost function FeesOf(paid: multiset<string>, fee: string -> nat): nat
    decreases |paid|
  {
    if paid == multiset{} then 0
    else
      var s :| s in paid;
      fee(s) + FeesOf(paid - multiset{s}, fee)
  }

  lemma {:induction false} FeesOfTakes(paid: multiset<string>, fee: string -> nat, s: string)
    requires s in paid
    ensures FeesOf(paid, fee) == fee(s) + FeesOf(paid - multiset{s}, fee)
    decreases |paid|
  {
    var t :| t in paid && FeesOf(paid, fee) == fee(t) + FeesOf(paid - multiset{t}, fee);
    if t != s {
      FeesOfTakes(paid - multiset{t}, fee, s);
      FeesOfTakes(paid - multiset{s}, fee, t);
      assert paid - multiset{t} - multiset{s} == paid - multiset{s} - multiset{t};
    }
  }

  lemma FeesOfAdds(paid: multiset<string>, fee: string -> nat, s: string)
    ensures FeesOf(paid + multiset{s}, fee) == FeesOf(paid, fee) + fee(s)
  {
    FeesOfTakes(paid + multiset{s}, fee, s);
    assert paid + multiset{s} - multiset{s} == paid;
  }

  /** Every charge takes the fee of its session's claim. */
  ghost predicate ChargesFees(ops: seq<LedgerOp>, fee: string -> nat) {
    forall i :: 0 <= i < |ops| ==> ops[i].Charge? ==> ops[i].amount == fee(ops[i].session)
  }

  /** What the upper clamp has cut off over a run. */
  ghost function Clamped(s: OutflowState, ops: seq<LedgerOp>, upper: int): real
    requires s.den > 0 && s.rateDuration > 0
    decreases |ops|
  {
    if ops == [] then 0.0
    else
      SettleValue(s, ops[0].at);
      var v := Value(Settle(s, ops[0].at));
      (if v > upper as real then v - upper as real else 0.0) + Clamped(DoOp(s, ops[0], upper), ops[1..], upper)
  }

  /** One operation takes its reward, or its session's fee, out of the accrued balance. */
  lemma OpValue(s: OutflowState, op: LedgerOp, upper: int, fee: string -> nat)
    requires Canonical(s) && (op.Charge? ==> op.amount == fee(op.session))
    ensures var r := DoOp(s, op, upper);
            && Canonical(r) && r.updateTime == (if op.at <= s.updateTime then s.updateTime else op.at)
            && Value(r) == Min(Value(s) + Accrued(s, op.at), upper as real)
                           - Spent([op]) as real - (FeesOf(r.paid, fee) - FeesOf(s.paid, fee)) as real
  {
    AccrueCanonical(s, op.at, upper);
    AccrueValue(s, op.at, upper);
    if !op.ReadBalance? {
      DebitValue(Accrue(s, op.at, upper), op.amount);
      DebitCanonical(Accrue(s, op.at, upper), op.amount);
    }
    if op.Charge? { FeesOfAdds(s.paid, fee, op.session); }
  }

  /** Conservation: rewards + fees of who has paid = start + rate * elapsed - balance - amount lost
      to the upper clamp. */
  lemma {:induction false} Conservation(s: OutflowState, ops: seq<LedgerOp>, upper: int, fee: string -> nat)
    requires Canonical(s) && ChargesFees(ops, fee)
    requires forall i, j :: 0 <= i < j < |ops| ==> ops[i].at <= ops[j].at
    ensures var r := DoOps(s, ops, upper);
            && Clamped(s, ops, upper) >= 0.0
            && (Spent(ops) + FeesOf(r.paid, fee) - FeesOf(s.paid, fee)) as real
               == Value(s) + (if ops == [] then 0.0 else Accrued(s, ops[|ops| - 1].at)) - Value(r) - Clamped(s, ops, upper)
    decreases |ops|
  {
    if ops != [] {
      var t, r := ops[0].at, DoOp(s, ops[0], upper);
      OpValue(s, ops[0], upper, fee);
      SettleValue(s, t);
      Conservation(r, ops[1..], upper, fee);
      if |ops| > 1 {
        assert ops[|ops| - 1] == ops[1..][|ops| - 2];
        AccruedSplit(s, r, t, ops[|ops| - 1].at);
      }
    }
  }
}
