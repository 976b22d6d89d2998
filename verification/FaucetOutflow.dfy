/** FaucetOutflowModule with its database entry: state operations, write ownership and
    claim-fee accounting. State operations run one at a time; at each database call others
    may move rows, time passes, and readers may settle the in-memory balance. */
module FaucetOutflow {
  import opened Wrappers
  import opened Rationals
  import opened OutflowLedger
  import opened FeeAccounting

  datatype CasResult = CasTrue | CasFalse | CasThrew

  datatype Runtime = Runtime(state: OutflowState, policy: Policy)

  datatype Ownership =
    | Certain(durable: Option<OutflowState>)
    | Uncertain(previous: Option<OutflowState>, next: OutflowState, previousRuntime: Runtime, nextRuntime: Runtime)

  datatype UncertainFee = UncertainFee(txHash: string, session: string)

  // ------------------------------------------------------------- consistency of memory

  predicate AccruedAt(m: OutflowState, d: OutflowState, t: nat, upper: int) {
    d.den > 0 && d.rateDuration > 0 && m == Accrue(d, t, upper)
  }

  /** m is the durable state d up to accrual that any later read would recompute. */
  ghost predicate Follows(m: OutflowState, d: Option<OutflowState>, upper: int, clock: nat) {
    match d
    case None => m.fees == map[] && m.paid == multiset{}
    case Some(e) => Canonical(e) && (m == e || exists t: nat :: t <= clock && AccruedAt(m, e, t, upper))
  }

  /** lagging and lost are history: memory was left behind by a fee commit it never adopted. */
  datatype Control = Control(ownership: Ownership, uncertainFee: Option<UncertainFee>, lagging: bool, lost: set<string>)

  ghost predicate MemoryOk(w: World, clock: nat, k: Control, m: OutflowState, p: Policy, limit: nat) {
    && Canonical(m)
    && if k.lagging then k.lost != {} && Books(w, m, k.lost, limit) else k.lost == {} && Follows(m, w.entry, p.upperLimit, clock)
  }

  /** What holds between state operations, with m and p as memory. */
  ghost predicate Consistent(w: World, clock: nat, k: Control, m: OutflowState, p: Policy, limit: nat) {
    && Accounted(w, limit) && HistoryOk(w)
    && Canonical(m) && PolicyOk(p)
    && match k.ownership
       case Certain(d) =>
         if k.uncertainFee.None? then w.entry == d && MemoryOk(w, clock, k, m, p, limit)
         else FeeUnknown(w, clock, k, k.uncertainFee.value, d, m, p, limit)
       case Uncertain(prev, next, prevRt, nextRt) =>
         && k.uncertainFee.None?
         && Canonical(next) && nextRt.state == next && PolicyOk(prevRt.policy) && PolicyOk(nextRt.policy)
         && (w.entry == prev || w.entry == Some(next)) && (SameJson(prev, Some(next)) ==> prev == Some(next))
         && (w.entry == prev ==> MemoryOk(w, clock, k, prevRt.state, prevRt.policy, limit))
  }

  /** The fee write of u is in the entry, and memory lacks it; or it is not in the entry. */
  ghost predicate FeeUnknown(w: World, clock: nat, k: Control, u: UncertainFee, d: Option<OutflowState>,
                             m: OutflowState, p: Policy, limit: nat)
  {
    && d.Some?
    && (w.entry == d ==> MemoryOk(w, clock, k, m, p, limit))
    && (w.entry != d ==> FeeCommitted(w, k, u, m, limit))
  }

  ghost predicate FeeCommitted(w: World, k: Control, u: UncertainFee, m: OutflowState, limit: nat) {
    && w.entry.Some? && u.txHash in Fees(w) && Fees(w)[u.txHash] == u.session
    && Books(w, m, k.lost + {u.session}, limit)
  }

  /** Memory in step with the entry gives books without a lag. */
  lemma FollowsBooks(w: World, clock: nat, k: Control, m: OutflowState, p: Policy, limit: nat)
    requires Accounted(w, limit) && MemoryOk(w, clock, k, m, p, limit)
    ensures Books(w, m, k.lost, limit)
    ensures !k.lagging ==> m.fees == Fees(w)
  {}

  lemma MemoryStable(w: World, v: World, c: nat, e: nat, k: Control, m: OutflowState, p: Policy, limit: nat)
    requires Accounted(w, limit) && EnvironmentMove(w, v) && c <= e && MemoryOk(w, c, k, m, p, limit)
    ensures MemoryOk(v, e, k, m, p, limit)
  {
    if k.lagging { BooksStable(w, v, m, k.lost, limit); }
  }

  lemma ConsistentStable(w: World, v: World, c: nat, e: nat, k: Control, m: OutflowState, p: Policy, limit: nat)
    requires Consistent(w, c, k, m, p, limit) && EnvironmentMove(w, v) && c <= e
    ensures Consistent(v, e, k, m, p, limit)
  {
    EnvironmentKeepsAccounts(w, v, limit);
    match k.ownership
    case Certain(d) =>
      if k.uncertainFee.None? { MemoryStable(w, v, c, e, k, m, p, limit); }
      else if w.entry == d { MemoryStable(w, v, c, e, k, m, p, limit); }
      else { BooksStable(w, v, m, k.lost + {k.uncertainFee.value.session}, limit); }
    case Uncertain(prev, next, prevRt, nextRt) =>
      if w.entry == prev { MemoryStable(w, v, c, e, k, prevRt.state, prevRt.policy, limit); }
  }

  /** A reader settles and clamps memory at time t; the relation to the entry is unchanged. */
  lemma ReaderKeepsMemory(w: World, c: nat, t: nat, e: nat, k: Control, m: OutflowState, p: Policy, limit: nat)
    requires Accounted(w, limit) && MemoryOk(w, c, k, m, p, limit) && c <= t <= e
    ensures MemoryOk(w, e, k, Accrue(m, t, p.upperLimit), p, limit)
  {
    AccrueCanonical(m, t, p.upperLimit);
    var r := Accrue(m, t, p.upperLimit);
    if !k.lagging && w.entry.Some? {
      var d := w.entry.value;
      if m != d {
        var u: nat :| u <= c && AccruedAt(m, d, u, p.upperLimit);
        PathIndependent(d, u, t, p.upperLimit);
      }
      assert AccruedAt(r, d, t, p.upperLimit);
    }
  }

  lemma ReaderKeepsConsistent(w: World, c: nat, t: nat, e: nat, k: Control, m: OutflowState, p: Policy, limit: nat)
    requires Consistent(w, c, k, m, p, limit) && k.ownership.Certain? && c <= t <= e
    ensures Consistent(w, e, k, Accrue(m, t, p.upperLimit), p, limit)
  {
    AccrueCanonical(m, t, p.upperLimit);
    if w.entry == k.ownership.durable { ReaderKeepsMemory(w, c, t, e, k, m, p, limit); }
  }

  // ------------------------------------------------------------------ the restriction

  /** getOutflowRestriction in basis points, on a settled and clamped state. */
  function RestrictionBp(s: OutflowState, p: Policy): int
    requires s.den > 0
  {
    var above := s.num - p.lowerLimit * s.den;
    if s.num >= 0 then 10000
    else if p.lowerLimit == 0 || above <= 0 then 0
    else
      RangePositive(s, p);
      10000 * above / (-p.lowerLimit * s.den)
  }

  lemma RangePositive(s: OutflowState, p: Policy)
    requires s.den > 0 && s.num < 0 && s.num - p.lowerLimit * s.den > 0
    ensures -p.lowerLimit * s.den > 0
  {}

  /** Full restriction is 0 at or below the lower limit, none (10000) from zero up, and in
      between strictly below 10000. */
  lemma RestrictionRange(s: OutflowState, p: Policy)
    requires s.den > 0 && PolicyOk(p)
    ensures 0 <= RestrictionBp(s, p) <= 10000
    ensures RestrictionBp(s, p) == 10000 <==> s.num >= 0
    ensures s.num <= p.lowerLimit * s.den && s.num < 0 ==> RestrictionBp(s, p) == 0
  {
    var above, range := s.num - p.lowerLimit * s.den, -p.lowerLimit * s.den;
    if s.num < 0 && p.lowerLimit != 0 && above > 0 {
      assert 0 < above < range;
      QuotientBelow(10000 * above, range, 10000);
    }
  }

  lemma QuotientBelow(a: int, b: int, c: int)
    requires b > 0 && 0 <= a < c * b
    ensures 0 <= a / b < c
  {
    var q := a / b;
    assert a == b * q + a % b;
    if q >= c { MulMono(b, c, q); }
    if q < 0 { MulMono(b, q, -1); }
  }
}
