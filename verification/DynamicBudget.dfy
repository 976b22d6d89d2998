/** The outflow budget of src/modules/dynamic-outflow/DynamicOutflowModule.ts as a value: accrual
    at the rate in force, the burst clamp, debits, restarts, and the restriction it gives. */
module DynamicBudget {
  import opened Wrappers

  /** credited, debited, forfeited and since are history carried with the budget: what accrual
      added, what rewards took out, what clamps and restarts cut off, and when it began. */
  datatype Budget = Budget(budget: int, updateTime: nat, credited: int, debited: nat, forfeited: nat, since: nat)

  /** budget = credit - debits - forfeits, and credit never exceeds the elapsed time at the
      highest rate. */
  predicate BudgetOk(b: Budget, maxRate: nat) {
    && b.budget == b.credited - b.debited - b.forfeited
    && b.since <= b.updateTime && 0 <= b.credited <= maxRate * (b.updateTime - b.since)
  }

  function Fresh(now: nat): Budget { Budget(0, now, 0, 0, 0, now) }

  /** updateOutflowBudget. */
  function Accrue(b: Budget, rate: Option<nat>, now: nat, burst: nat): Budget {
    if now <= b.updateTime then b
    else if rate.None? then b.(updateTime := now)
    else
      var gain := rate.value * (now - b.updateTime);
      var raised := b.budget + gain;
      var upper := rate.value * burst;
      if raised > upper
      then b.(updateTime := now, budget := upper, credited := b.credited + gain, forfeited := b.forfeited + (raised - upper))
      else b.(updateTime := now, budget := raised, credited := b.credited + gain)
  }

  function Debit(b: Budget, amount: nat): Budget { b.(budget := b.budget - amount, debited := b.debited + amount) }

  /** loadOutflowState: a positive budget is not restored, and accrual starts anew. */
  function Restore(b: Option<Budget>, now: nat): Budget {
    match b
    case None => Fresh(now)
    case Some(d) =>
      var cut := if d.budget > 0 then d.budget else 0;
      d.(budget := d.budget - cut, forfeited := d.forfeited + cut, updateTime := now)
  }

  lemma AccrueKeeps(b: Budget, rate: Option<nat>, now: nat, burst: nat, maxRate: nat)
    requires BudgetOk(b, maxRate) && (rate.Some? ==> rate.value <= maxRate)
    ensures BudgetOk(Accrue(b, rate, now, burst), maxRate) && Accrue(b, rate, now, burst).debited == b.debited
    ensures Accrue(b, rate, now, burst).forfeited >= b.forfeited
  {
    if now > b.updateTime {
      var e := now - b.updateTime;
      assert maxRate * (now - b.since) == maxRate * (b.updateTime - b.since) + maxRate * e;
      if rate.Some? { MulLe(rate.value, maxRate, e); }
      else { MulLe(0, maxRate, e); }
    }
  }

  lemma MulLe(a: nat, b: nat, e: nat)
    requires a <= b
    ensures 0 <= a * e <= b * e
  {
    assert b * e == a * e + (b - a) * e;
  }

  lemma DebitKeeps(b: Budget, amount: nat, maxRate: nat)
    requires BudgetOk(b, maxRate)
    ensures BudgetOk(Debit(b, amount), maxRate)
  {}

  /** A restart creates no budget: nothing is credited, no debit is lost, and what is left is
      neither above zero nor above what was stored. */
  lemma RestoreKeeps(b: Option<Budget>, now: nat, maxRate: nat)
    requires b.Some? ==> BudgetOk(b.value, maxRate) && b.value.updateTime <= now
    ensures var r := Restore(b, now);
            && BudgetOk(r, maxRate) && r.budget <= 0
            && (b.Some? ==> r.budget <= b.value.budget && r.debited == b.value.debited && r.credited == b.value.credited
                            && r.forfeited >= b.value.forfeited)
  {
    if b.Some? {
      var d := b.value;
      assert maxRate * (now - d.since) == maxRate * (d.updateTime - d.since) + maxRate * (now - d.updateTime);
      MulLe(0, maxRate, now - d.updateTime);
    }
  }

  /** While the rate stays the same, accruing in two steps is accruing once. */
  lemma AccrueTwice(b: Budget, rate: Option<nat>, t1: nat, t2: nat, burst: nat)
    requires t1 <= t2
    ensures Accrue(Accrue(b, rate, t1, burst), rate, t2, burst) == Accrue(b, rate, t2, burst)
  {
    if b.updateTime < t1 < t2 && rate.Some? {
      var r := rate.value;
      assert r * (t2 - b.updateTime) == r * (t1 - b.updateTime) + r * (t2 - t1);
      MulLe(0, r, t2 - t1);
    }
  }

  // ------------------------------------------------------------------ the restriction

  /** getOutflowRestriction in ten-thousandths, for a rate that is known and fresh. */
  function RestrictionOf(b: int, rate: nat, cutoff: nat): int {
    if rate == 0 then 0
    else if b >= 0 then 10000
    else
      var cutoffBudget := rate * cutoff;
      if -b >= cutoffBudget then 0 else 10000 - 10000 * (-b) / cutoffBudget
  }

  lemma QuotientFacts(o: nat, c: nat)
    requires c > 0
    ensures o / c >= 0 && (o / c == 0 <==> o < c) && (o < 10000 * c ==> o / c < 10000)
  {
    var q := o / c;
    assert o == c * q + o % c;
    if q >= 1 { MulLe(1, q, c); }
    if q >= 10000 { MulLe(10000, q, c); }
  }

  /** The restriction is 1 if the debt is repaid, or so small that it rounds away. */
  lemma RestrictionIsOne(b: int, rate: nat, cutoff: nat)
    requires rate > 0
    ensures RestrictionOf(b, rate, cutoff) == 10000 <==> b >= 0 || 10000 * (-b) < rate * cutoff
    ensures 0 <= RestrictionOf(b, rate, cutoff) <= 10000
  {
    if b < 0 && -b < rate * cutoff { QuotientFacts(10000 * (-b), rate * cutoff); }
  }

  function CeilDiv(d: nat, r: nat): nat
    requires r > 0
  {
    (d + r - 1) / r
  }

  lemma CeilDivIs(d: nat, r: nat, t: nat)
    requires r > 0
    ensures t >= CeilDiv(d, r) <==> r * t >= d
  {
    var q := CeilDiv(d, r);
    assert d + r - 1 == r * q + (d + r - 1) % r;
    if t >= q { assert r * t >= r * q; }
    else { assert r * (q - 1) >= r * t; assert r * (q - 1) == r * q - r; }
  }

  /** A budget that owes d. */
  function Owing(d: nat, start: nat): Budget { Budget(0 - d, start, 0, d, 0, start) }

  /** What is owed has become t seconds later, at a constant rate without debits. By AccrueTwice
      it does not matter how often it is read in between. */
  function Later(d: nat, rate: nat, burst: nat, start: nat, t: nat): int {
    Accrue(Owing(d, start), Some(rate), start + t, burst).budget
  }

  lemma DebtAfter(d: nat, rate: nat, burst: nat, t: nat, start: nat)
    requires rate > 0
    ensures var b := Later(d, rate, burst, start, t);
            && (b >= 0 <==> t >= CeilDiv(d, rate))
            && (t < CeilDiv(d, rate) ==> b == rate * t - d)
  {
    CeilDivIs(d, rate, t);
    MulLe(0, rate, burst);
  }

  predicate OpenAt(d: nat, rate: nat, burst: nat, cutoff: nat, start: nat, t: nat) {
    RestrictionOf(Later(d, rate, burst, start, t), rate, cutoff) == 10000
  }

  predicate RoundsAway(d: nat, rate: nat, cutoff: nat, t: nat) { 10000 * (d - rate * t) < rate * cutoff }

  lemma OpenWhen(d: nat, rate: nat, burst: nat, cutoff: nat, start: nat, t: nat)
    requires rate > 0
    ensures t >= CeilDiv(d, rate) ==> OpenAt(d, rate, burst, cutoff, start, t)
    ensures t < CeilDiv(d, rate) ==> (OpenAt(d, rate, burst, cutoff, start, t) <==> RoundsAway(d, rate, cutoff, t))
  {
    DebtAfter(d, rate, burst, t, start);
    RestrictionIsOne(Later(d, rate, burst, start, t), rate, cutoff);
  }

  /** What rounds away at one moment rounds away ever after. */
  lemma RoundingStays(d: nat, rate: nat, cutoff: nat, t: nat, u: nat)
    requires t <= u && RoundsAway(d, rate, cutoff, t)
    ensures RoundsAway(d, rate, cutoff, u)
  {
    MulLe(t, u, rate);
  }

  /** From a debt of d, the debt is repaid after exactly ceil(d / rate) seconds. */
  lemma RepaidAfter(d: nat, rate: nat, burst: nat, start: nat)
    requires rate > 0 && d > 0
    ensures CeilDiv(d, rate) > 0
    ensures forall t: nat :: Later(d, rate, burst, start, t) >= 0 <==> t >= CeilDiv(d, rate)
  {
    CeilDivIs(d, rate, 0);
    forall t: nat ensures Later(d, rate, burst, start, t) >= 0 <==> t >= CeilDiv(d, rate) {
      DebtAfter(d, rate, burst, t, start);
    }
  }

  /** Once the debt is repaid the restriction is 1. It is not 1 any earlier if and only if what
      was still owed one second before did not round away. */
  lemma RecoveryTime(d: nat, rate: nat, burst: nat, cutoff: nat, start: nat)
    requires rate > 0 && d > 0
    ensures var n := CeilDiv(d, rate);
            && n > 0
            && (forall t: nat :: t >= n ==> OpenAt(d, rate, burst, cutoff, start, t))
            && ((forall t: nat :: t < n ==> !OpenAt(d, rate, burst, cutoff, start, t)) <==> !RoundsAway(d, rate, cutoff, n - 1))
  {
    RepaidAfter(d, rate, burst, start);
    var n := CeilDiv(d, rate);
    forall t: nat | t >= n ensures OpenAt(d, rate, burst, cutoff, start, t) { OpenWhen(d, rate, burst, cutoff, start, t); }
    OpenWhen(d, rate, burst, cutoff, start, n - 1);
    if !RoundsAway(d, rate, cutoff, n - 1) {
      forall t: nat | t < n ensures !OpenAt(d, rate, burst, cutoff, start, t) {
        OpenWhen(d, rate, burst, cutoff, start, t);
        if RoundsAway(d, rate, cutoff, t) { RoundingStays(d, rate, cutoff, t, n - 1); }
      }
    }
  }

  /** A debt of 25 at rate 1 with a cut-off of three hours: the restriction is back at 1 after 24
      seconds, one second before the debt is repaid. */
  lemma RoundsAwayEarly()
    ensures CeilDiv(25, 1) == 25 && Later(25, 1, 900, 0, 24) == -1 && OpenAt(25, 1, 900, 10800, 0, 24)
  {
    RestrictionIsOne(-1, 1, 10800);
  }
}
