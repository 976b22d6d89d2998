/** The state operations of FaucetOutflowModule as methods over its mutable fields, and the
    database they talk to. Each operation takes the outcomes of its database calls. */
module OutflowService {
  import opened Wrappers
  import opened ClaimData
  import opened Rationals
  import opened OutflowLedger
  import opened FeeAccounting
  import opened FaucetOutflow

  predicate SubMarkers(a: map<string, string>, b: map<string, string>) {
    forall h :: h in a ==> h in b && b[h] == a[h]
  }

  /** The entry is unchanged, or its markers are among mem or among those it had. */
  ghost predicate MarkersFrom(w: World, v: World, mem: map<string, string>) {
    v.entry == w.entry || SubMarkers(Fees(v), mem) || SubMarkers(Fees(v), Fees(w))
  }

  /** The entry is unchanged, or its markers are among those it had and one of session s, which
      is not cleared for deletion. */
  ghost predicate MarkedFor(w: World, v: World, s: string) {
    v.entry == w.entry || (s !in v.cleared && forall h :: h in Fees(v) ==> (h in Fees(w) && Fees(w)[h] == Fees(v)[h]) || Fees(v)[h] == s)
  }

  /** b is a settled and clamped at a time between c and e. */
  predicate ReadBetween(a: OutflowState, b: OutflowState, c: nat, e: nat, upper: int) {
    exists t: nat :: c <= t <= e && AccruedAt(b, a, t, upper)
  }

  function Max(a: nat, b: nat): nat { if a < b then b else a }

  /** getClaimFeeMarkerLimit. */
  function MarkerLimit(ethMaxPending: nat): nat { 2 * Max(1, ethMaxPending) }

  /** isDurablyFinalizedClaim. */
  predicate IsDurablyFinalizedClaim(r: Row, h: string) {
    r.status == StatusFinished && r.claim.Some? && r.claim.value.Confirmed? && r.claim.value.tx.txHash == h
  }

  /** The module's KeyValueStore entry and the Sessions rows. */
  class OutflowDatabase {
    var entry: Option<OutflowState>
    var rows: map<string, Slot>
    ghost var hooked: set<string>
    ghost var cleared: set<string>
    var clock: nat

    constructor (rows: map<string, Slot>, clock: nat)
      ensures entry.None? && this.rows == rows && hooked == {} && cleared == {} && this.clock == clock
    {
      entry, this.rows, hooked, cleared, this.clock := None, rows, {}, {}, clock;
    }

    ghost function View(): World
      reads this
    {
      World(entry, rows, hooked, cleared)
    }

    /** Other turns of the event loop: the body takes none, callers know only the contract. */
    method OtherTurns(ghost limit: nat)
      requires Accounted(View(), limit)
      modifies this`rows, this`clock
      ensures EnvironmentMove(old(View()), View()) && clock >= old(clock)
    {
      forall s: string ensures RowMove(View(), SlotAt(View(), s), SlotAt(View(), s), s) {
        assert SessionAccounted(View(), s);
      }
    }

    /** setKeyValueEntry. */
    method SetEntry(n: OutflowState, f: Fault) returns (acknowledged: bool)
      modifies this`entry
      ensures entry == (if f == NoEffect then old(entry) else Some(n))
      ensures acknowledged == (f == Ack)
    {
      if f != NoEffect { entry := Some(n); }
      acknowledged := f == Ack;
    }

    /** compareAndSetKeyValueEntry. */
    method CompareAndSetEntry(expected: OutflowState, n: OutflowState, f: Fault) returns (r: CasResult)
      modifies this`entry
      ensures entry == (if f != NoEffect && SameJson(old(entry), Some(expected)) then Some(n) else old(entry))
      ensures r == (if f != Ack then CasThrew else if SameJson(old(entry), Some(expected)) then CasTrue else CasFalse)
    {
      var matches := SameJson(entry, Some(expected));
      if f != NoEffect && matches { entry := Some(n); }
      r := if f != Ack then CasThrew else if matches then CasTrue else CasFalse;
    }
  }

  /** Outcomes of the database calls of one fee hook: reading the entry, reading the session,
      the reads of pruning, the compare-and-set, and the read that checks it after an error. */
  datatype FeeFaults = FeeFaults(entryRead: bool, sessionRead: bool, pruneReads: bool, cas: Fault, recheck: bool)

  /** Outcomes of a blind save: the reads of pruning, the write, and the read after an error. */
  datatype SaveFaults = SaveFaults(pruneReads: bool, write: Fault, recheck: bool)

  class FaucetOutflowModule {
    const db: OutflowDatabase
    const limit: nat
    var state: OutflowState
    var policy: Policy
    var ownership: Ownership
    var uncertainFee: Option<UncertainFee>
    ghost var lagging: bool
    ghost var lost: set<string>

    /** The module before startModule; ethMaxPending bounds the claim-fee markers. */
    constructor (db: OutflowDatabase, policy: Policy, ethMaxPending: nat)
      requires PolicyOk(policy)
      ensures this.db == db && this.policy == policy && limit == MarkerLimit(ethMaxPending)
      ensures ownership == Certain(None) && uncertainFee.None? && !lagging && lost == {}
      ensures Canonical(state)
    {
      this.db, this.policy, limit := db, policy, MarkerLimit(ethMaxPending);
      state := OutflowState(0, 1, db.clock, policy.amount, policy.duration, map[], multiset{});
      ownership, uncertainFee := Certain(None), None;
      lagging, lost := false, {};
      WholeCanonical(0);
    }

    ghost function Core(): Control
      reads this
    {
      Control(ownership, uncertainFee, lagging, lost)
    }

    ghost predicate ConsistentWith(m: OutflowState, p: Policy)
      reads this, db
    {
      Consistent(db.View(), db.clock, Core(), m, p, limit)
    }

    ghost predicate Valid()
      reads this, db
    {
      ConsistentWith(state, policy)
    }

    /** The markers a blind write would start from. */
    ghost function Memory(): map<string, string>
      reads this
    {
      if ownership.Certain? then state.fees else ownership.previousRuntime.state.fees
    }

    // ------------------------------------------------------- balance arithmetic

    static method GreatestCommonDivisor(left: nat, right: nat) returns (g: nat)
      ensures g == Gcd(left, right)
    {
      var a, b := left, right;
      while b != 0
        invariant Gcd(a, b) == Gcd(left, right)
        decreases b
      {
        a, b := b, a % b;
      }
      g := a;
    }

    method NormalizeBalance()
      requires state.den > 0
      modifies this`state
      ensures state == Reduce(old(state))
    {
      if state.num == 0 {
        state := state.(den := 1);
        return;
      }
      var divisor := GreatestCommonDivisor(if state.num < 0 then -state.num else state.num, state.den);
      LowestTermsOk(state.num, state.den);
      GcdDivides(Abs(state.num), state.den);
      state := state.(num := state.num / divisor, den := state.den / divisor);
    }

    method SettleBalance()
      requires state.den > 0 && state.rateDuration > 0
      modifies this`state
      ensures state == if ownership.Uncertain? then old(state) else Settle(old(state), db.clock)
    {
      if ownership.Uncertain? { return; }
      if db.clock <= state.updateTime { return; }
      var elapsed := db.clock - state.updateTime;
      MulPositive(state.den, state.rateDuration);
      state := state.(num := state.num * state.rateDuration + elapsed * state.rateAmount * state.den);
      state := state.(den := state.den * state.rateDuration);
      state := state.(updateTime := db.clock);
      NormalizeBalance();
    }

    method ClampUpperLimit()
      modifies this`state
      ensures state == ClampUpper(old(state), policy.upperLimit)
    {
      if state.num - policy.upperLimit * state.den > 0 {
        state := state.(num := policy.upperLimit, den := 1);
      }
    }

    /** getOutflowRestriction: 0 while a write or a fee is uncertain. */
    method GetOutflowRestriction() returns (bp: int)
      requires Valid()
      modifies this`state
      ensures Valid()
      ensures ownership.Uncertain? || uncertainFee.Some? ==> bp == 0 && state == old(state)
      ensures ownership.Certain? && uncertainFee.None? ==>
                old(state).den > 0 && old(state).rateDuration > 0
                && state == Accrue(old(state), db.clock, policy.upperLimit) && state.den > 0 && bp == RestrictionBp(state, policy)
      ensures ownership == old(ownership) && uncertainFee == old(uncertainFee) && lagging == old(lagging)
    {
      if ownership.Uncertain? || uncertainFee.Some? { return 0; }
      ReaderKeepsConsistent(db.View(), db.clock, db.clock, db.clock, Core(), state, policy, limit);
      AccrueDen(state, db.clock, policy.upperLimit);
      SettleBalance();
      ClampUpperLimit();
      bp := RestrictionBp(state, policy);
    }

    /** An await of a state operation: other turns run, possibly reading the restriction. */
    method Await()
      requires Accounted(db.View(), limit) && Canonical(state)
      modifies this`state, db`rows, db`clock
      ensures EnvironmentMove(old(db.View()), db.View()) && db.clock >= old(db.clock)
      ensures Canonical(state)
      ensures state == old(state) || (ownership.Certain? && ReadBetween(old(state), state, old(db.clock), db.clock, policy.upperLimit))
      ensures state.fees == old(state.fees) && state.paid == old(state.paid)
      ensures Accounted(db.View(), limit) && (HistoryOk(old(db.View())) ==> HistoryOk(db.View()))
    {
      ghost var w := db.View();
      db.OtherTurns(limit);
      EnvironmentKeepsAccounts(w, db.View(), limit);
      ghost var v := db.View();
      var readerRuns: bool := *;
      if ownership.Certain? && readerRuns {
        AccrueCanonical(state, db.clock, policy.upperLimit);
        SettleBalance();
        ClampUpperLimit();
        assert AccruedAt(state, old(state), db.clock, policy.upperLimit);
      }
      db.OtherTurns(limit);
      EnvironmentKeepsAccounts(v, db.View(), limit);
      EnvironmentMoveTransitive(w, v, db.View());
    }

    /** reconcileWriteOwnership. */
    method ReconcileWriteOwnership(readOk: bool) returns (ok: bool)
      requires Valid()
      modifies this`state, this`policy, this`ownership, this`lagging, this`lost, db`rows, db`clock
      ensures Valid() && (ok <==> ownership.Certain?)
      ensures old(ownership).Certain? ==> state == old(state) && policy == old(policy) && Core() == old(Core())
                                          && db.View() == old(db.View()) && db.clock == old(db.clock)
      ensures EnvironmentMove(old(db.View()), db.View()) && db.clock >= old(db.clock)
      ensures uncertainFee == old(uncertainFee)
      ensures lagging ==> old(lagging)
      ensures ok && old(ownership).Uncertain? && db.entry == Some(old(ownership).next) ==>
                Runtime(state, policy) == old(ownership).nextRuntime && !lagging
      ensures ok && old(ownership).Uncertain? && db.entry != Some(old(ownership).next) ==>
                Runtime(state, policy) == old(ownership).previousRuntime
      ensures ok && db.entry != Some(state) ==> state.fees == old(Memory())
      ensures old(ownership).Uncertain? && ok && db.entry != Some(old(ownership).next) ==> lagging == old(lagging)
    {
      if ownership.Certain? {
        EnvironmentReflexive(db.View(), limit);
        return true;
      }
      ghost var w, c := db.View(), db.clock;
      Await();
      ConsistentStable(w, db.View(), c, db.clock, Core(), state, policy, limit);
      if !readOk { return false; }
      var observed := db.entry;
      if SameJson(observed, Some(ownership.next)) {
        state, policy := ownership.nextRuntime.state, ownership.nextRuntime.policy;
        ownership := Certain(observed);
        lagging, lost := false, {};
        return true;
      }
      if SameJson(observed, ownership.previous) {
        state, policy := ownership.previousRuntime.state, ownership.previousRuntime.policy;
        ownership := Certain(observed);
        return true;
      }
      return false;
    }

    /** One step of the pruning loop. */
    method PruneOne(h: string, fees: map<string, string>, marked: map<string, string>, readOk: bool)
        returns (ok: bool, pruned: map<string, string>)
      requires Accounted(db.View(), limit) && Canonical(state) && h in fees && PrunedFrom(db.View(), fees, marked)
      modifies this`state, db`rows, db`clock
      ensures EnvironmentMove(old(db.View()), db.View()) && db.clock >= old(db.clock)
      ensures Canonical(state) && state.fees == old(state.fees) && state.paid == old(state.paid)
      ensures state == old(state) || (ownership.Certain? && ReadBetween(old(state), state, old(db.clock), db.clock, policy.upperLimit))
      ensures Accounted(db.View(), limit) && (HistoryOk(old(db.View())) ==> HistoryOk(db.View()))
      ensures PrunedFrom(db.View(), fees, pruned) && ok == readOk
      ensures forall g :: g in marked && (g != h || SlotAt(old(db.View()), fees[h]).Erased?) ==> g in pruned
    {
      ghost var v := db.View();
      Await();
      PrunedStable(v, db.View(), fees, marked, limit);
      ok, pruned := readOk, marked;
      if !readOk { return; }
      var s := fees[h];
      assert RowMove(v, SlotAt(v, s), SlotAt(db.View(), s), s);
      if s in db.rows && db.rows[s].Live? && IsDurablyFinalizedClaim(db.rows[s].row, h) {
        pruned := pruned - {h};
      }
    }

    /** pruneFinalizedClaimFees on a set of markers; a read that fails, whichever it is, throws. */
    method PruneFinalizedClaimFees(fees: map<string, string>, readsOk: bool) returns (ok: bool, pruned: map<string, string>)
      requires Accounted(db.View(), limit) && Canonical(state)
      modifies this`state, db`rows, db`clock
      ensures EnvironmentMove(old(db.View()), db.View()) && db.clock >= old(db.clock)
      ensures Canonical(state) && state.fees == old(state.fees) && state.paid == old(state.paid)
      ensures state == old(state) || (ownership.Certain? && ReadBetween(old(state), state, old(db.clock), db.clock, policy.upperLimit))
      ensures Accounted(db.View(), limit) && (HistoryOk(old(db.View())) ==> HistoryOk(db.View()))
      ensures PrunedFrom(db.View(), fees, pruned)
      ensures ok <==> readsOk || fees == map[]
      ensures forall h :: h in fees && SlotAt(old(db.View()), fees[h]).Erased? ==> h in pruned
    {
      hide Accounted, HistoryOk, Canonical, ReadBetween;
      pruned := fees;
      var todo := fees.Keys;
      ghost var w, c, m := db.View(), db.clock, state;
      EnvironmentReflexive(w, limit);
      while todo != {}
        invariant todo <= fees.Keys && (readsOk || todo != {} || fees == map[])
        invariant EnvironmentMove(w, db.View()) && db.clock >= old(db.clock)
        invariant Canonical(state) && state.fees == old(state.fees) && state.paid == old(state.paid)
        invariant state == m || (ownership.Certain? && ReadBetween(m, state, c, db.clock, policy.upperLimit))
        invariant Accounted(db.View(), limit) && (HistoryOk(w) ==> HistoryOk(db.View()))
        invariant PrunedFrom(db.View(), fees, pruned)
        invariant forall h :: h in fees && SlotAt(w, fees[h]).Erased? ==> h in pruned
        decreases todo
      {
        var h :| h in todo;
        ghost var v, e, n := db.View(), db.clock, state;
        var later: bool := *;
        ok, pruned := PruneOne(h, fees, pruned, readsOk || (later && todo != {h}));
        ReadBetweenTransitive(m, n, state, c, e, db.clock, policy.upperLimit);
        assert RowMove(w, SlotAt(w, fees[h]), SlotAt(v, fees[h]), fees[h]);
        EnvironmentMoveTransitive(w, v, db.View());
        if !ok { return; }
        todo := todo - {h};
      }
      ok := true;
    }

    /** The awaited setKeyValueEntry of a blind write. Until its outcome is known the control
        state is as good as uncertain. */
    method AwaitBlindWrite(prev: Runtime, next: Runtime, f: Fault) returns (acknowledged: bool)
      requires ownership.Certain? && uncertainFee.None? && ConsistentWith(prev.state, prev.policy)
      requires next == Runtime(state, policy) && PolicyOk(policy) && Canonical(state)
      requires Books(db.View(), state, lost, limit)
      modifies this`state, db`entry, db`rows, db`clock
      ensures acknowledged == (f == Ack)
      ensures db.entry == (if f == NoEffect then old(db.entry) else Some(next.state))
      ensures Consistent(db.View(), db.clock, Core().(ownership := Uncertain(ownership.durable, next.state, prev, next)),
                         state, policy, limit)
      ensures Follows(state, Some(next.state), policy.upperLimit, db.clock)
      ensures db.hooked == old(db.hooked) && db.cleared == old(db.cleared)
    {
      ghost var w, c := db.View(), db.clock;
      Await();
      ConsistentStable(w, db.View(), c, db.clock, Core(), prev.state, prev.policy, limit);
      BooksStable(w, db.View(), next.state, lost, limit);
      ReadFollows(next.state, next.state, state, c, db.clock, policy.upperLimit);
      acknowledged := BlindWrite(prev, next, f);
    }

    method BlindWrite(prev: Runtime, next: Runtime, f: Fault) returns (acknowledged: bool)
      requires ownership.Certain? && uncertainFee.None? && ConsistentWith(prev.state, prev.policy)
      requires next.policy == policy && PolicyOk(policy) && Canonical(next.state) && Canonical(state)
      requires Books(db.View(), next.state, lost, limit)
      requires Follows(state, Some(next.state), policy.upperLimit, db.clock)
      modifies this`state, db`entry, db`rows, db`clock
      ensures acknowledged == (f == Ack)
      ensures db.entry == (if f == NoEffect then old(db.entry) else Some(next.state))
      ensures Consistent(db.View(), db.clock, Core().(ownership := Uncertain(ownership.durable, next.state, prev, next)),
                         state, policy, limit)
      ensures Follows(state, Some(next.state), policy.upperLimit, db.clock)
      ensures db.hooked == old(db.hooked) && db.cleared == old(db.cleared)
    {
      acknowledged := PutEntry(prev, next, f);
      ghost var k := Core().(ownership := Uncertain(ownership.durable, next.state, prev, next));
      AwaitAs(k, next.state);
      assert k == Core().(ownership := Uncertain(ownership.durable, next.state, prev, next));
    }

    method PutEntry(prev: Runtime, next: Runtime, f: Fault) returns (acknowledged: bool)
      requires ownership.Certain? && uncertainFee.None? && ConsistentWith(prev.state, prev.policy)
      requires next.policy == policy && PolicyOk(policy) && Canonical(next.state) && Canonical(state)
      requires Books(db.View(), next.state, lost, limit)
      modifies db`entry
      ensures acknowledged == (f == Ack)
      ensures db.entry == (if f == NoEffect then old(db.entry) else Some(next.state))
      ensures Consistent(db.View(), db.clock, Core().(ownership := Uncertain(ownership.durable, next.state, prev, next)),
                         state, policy, limit)
    {
      ghost var v, k := db.View(), Core();
      acknowledged := db.SetEntry(next.state, f);
      WriteLeavesUncertain(v, db.clock, k, prev, next, f, state, limit);
    }

    /** An await while the outcome of a write is unknown. */
    method AwaitAs(ghost k: Control, ghost written: OutflowState)
      requires Consistent(db.View(), db.clock, k, state, policy, limit) && k.ownership.Uncertain?
      requires Follows(state, Some(written), policy.upperLimit, db.clock)
      modifies this`state, db`rows, db`clock
      ensures Consistent(db.View(), db.clock, k, state, policy, limit)
      ensures Follows(state, Some(written), policy.upperLimit, db.clock)
      ensures db.entry == old(db.entry) && db.hooked == old(db.hooked) && db.cleared == old(db.cleared)
    {
      ghost var u, c, m := db.View(), db.clock, state;
      Await();
      ConsistentStable(u, db.View(), c, db.clock, k, m, policy, limit);
      ReadFollows(written, m, state, c, db.clock, policy.upperLimit);
    }

    /** persistOutflowState: a blind write, refused while a fee commit is unknown. */
    method PersistOutflowState(prev: Runtime, f: SaveFaults) returns (ok: bool)
      requires ownership.Certain? && ConsistentWith(prev.state, prev.policy)
      requires PolicyOk(policy) && Canonical(state)
      requires uncertainFee.None? ==> Books(db.View(), state, lost, limit)
      modifies this`state, this`policy, this`ownership, this`lagging, this`lost, db`entry, db`rows, db`clock
      ensures uncertainFee == old(uncertainFee)
      ensures ok ==> Valid() && ownership.Certain? && !lagging && db.entry == Some(old(state)) && policy == old(policy)
      ensures !ok && ownership.Certain? ==> ConsistentWith(prev.state, prev.policy) && db.entry == old(db.entry)
      ensures !ok && ownership.Uncertain? ==> Valid()
      ensures old(uncertainFee).Some? ==> !ok && ownership == old(ownership) && db.entry == old(db.entry)
      ensures db.hooked == old(db.hooked) && db.cleared == old(db.cleared)
      ensures db.entry == old(db.entry) || db.entry == Some(old(state))
      ensures !ok && ownership.Certain? ==> lagging == old(lagging)
    {
      if uncertainFee.Some? { return false; }
      ok := WriteState(prev, Runtime(state, policy), f);
    }

    method WriteState(prev: Runtime, next: Runtime, f: SaveFaults) returns (ok: bool)
      requires ownership.Certain? && uncertainFee.None? && ConsistentWith(prev.state, prev.policy)
      requires next == Runtime(state, policy) && PolicyOk(policy) && Canonical(state)
      requires Books(db.View(), state, lost, limit)
      modifies this`state, this`policy, this`ownership, this`lagging, this`lost, db`entry, db`rows, db`clock
      ensures ok ==> Valid() && ownership.Certain? && !lagging && db.entry == Some(next.state) && policy == next.policy
      ensures !ok && ownership.Certain? ==> ConsistentWith(prev.state, prev.policy) && db.entry == old(db.entry)
      ensures !ok && ownership.Uncertain? ==> Valid()
      ensures db.hooked == old(db.hooked) && db.cleared == old(db.cleared)
      ensures db.entry == old(db.entry) || db.entry == Some(next.state)
      ensures !ok && ownership.Certain? ==> lagging == old(lagging)
    {
      var previous := ownership.durable;
      var acknowledged := AwaitBlindWrite(prev, next, f.write);
      if acknowledged {
        AdoptWritten(prev, next);
        ok := true;
      } else {
        ownership := Uncertain(previous, next.state, prev, next);
        ok := RecheckWrite(f.recheck);
      }
    }

    method AdoptWritten(prev: Runtime, next: Runtime)
      requires ownership.Certain?
      requires Consistent(db.View(), db.clock, Core().(ownership := Uncertain(ownership.durable, next.state, prev, next)),
                          state, policy, limit)
      requires db.entry == Some(next.state) && Follows(state, db.entry, policy.upperLimit, db.clock)
      requires PolicyOk(policy) && Canonical(state)
      modifies this`ownership, this`lagging, this`lost
      ensures Valid() && ownership.Certain? && !lagging
    {
      ResolveNext(db.View(), db.clock, Core().(ownership := Uncertain(ownership.durable, next.state, prev, next)),
                  state, state, policy, policy, limit);
      ownership := Certain(Some(next.state));
      lagging, lost := false, {};
    }

    /** The read that follows a failed write. */
    method RecheckWrite(readOk: bool) returns (ok: bool)
      requires Valid() && ownership.Uncertain?
      modifies this`state, this`policy, this`ownership, this`lagging, this`lost, db`rows, db`clock
      ensures Valid() && db.entry == old(db.entry) && db.hooked == old(db.hooked) && db.cleared == old(db.cleared)
      ensures ok ==> ownership.Certain? && !lagging && db.entry == Some(old(ownership).next) && policy == old(ownership).nextRuntime.policy
      ensures !ok && ownership.Certain? ==>
                Runtime(state, policy) == old(ownership).previousRuntime && db.entry != Some(old(ownership).next)
      ensures !ok && ownership.Certain? ==> lagging == old(lagging)
    {
      var next := ownership.next;
      var known := ReconcileWriteOwnership(readOk);
      ok := known && SameJson(db.entry, Some(next));
    }

    // -------------------------------------------------------------- state operations

    /** The try/catch around persistOutflowState: memory goes back when the write is known
        not to have happened. */
    method PersistOrRestore(previous: Runtime, f: SaveFaults) returns (ok: bool)
      requires ownership.Certain? && ConsistentWith(previous.state, previous.policy)
      requires PolicyOk(policy) && Canonical(state)
      requires uncertainFee.None? ==> Books(db.View(), state, lost, limit)
      modifies this`state, this`policy, this`ownership, this`lagging, this`lost, db`entry, db`rows, db`clock
      ensures Valid() && uncertainFee == old(uncertainFee)
      ensures ok ==> ownership.Certain? && uncertainFee.None? && !lagging && db.entry == Some(old(state)) && policy == old(policy)
      ensures !ok && ownership.Certain? ==> Runtime(state, policy) == previous && db.entry == old(db.entry)
      ensures db.hooked == old(db.hooked) && db.cleared == old(db.cleared)
      ensures db.entry == old(db.entry) || db.entry == Some(old(state))
      ensures !ok && ownership.Certain? ==> lagging == old(lagging)
    {
      ok := PersistOutflowState(previous, f);
      if !ok && ownership.Certain? { state, policy := previous.state, previous.policy; }
    }

    /** saveOutflowState under runStateOperation. */
    method SaveOutflowState(reconcileRead: bool, f: SaveFaults) returns (ok: bool)
      requires Valid()
      modifies this`state, this`policy, this`ownership, this`lagging, this`lost, db`entry, db`rows, db`clock
      ensures Valid() && uncertainFee == old(uncertainFee)
      ensures ok ==> ownership.Certain? && uncertainFee.None? && !lagging && db.entry.Some?
      ensures ok && old(ownership).Certain? ==> db.entry.value.paid == old(state).paid
      ensures db.hooked == old(db.hooked) && db.cleared == old(db.cleared)
      ensures MarkersFrom(old(db.View()), db.View(), old(Memory()))
      ensures !ok && old(ownership).Certain? && ownership.Certain? ==> lagging == old(lagging)
      ensures ok && old(ownership).Certain? ==> SubMarkers(Fees(db.View()), old(state).fees)
      ensures ok && old(ownership).Certain? ==>
                forall h :: h in old(state).fees && SlotAt(old(db.View()), old(state).fees[h]).Erased? ==> h in Fees(db.View())
    {
      var certain := ReconcileWriteOwnership(reconcileRead);
      if !certain { return false; }
      ok := SaveCertain(f);
    }

    method SaveCertain(f: SaveFaults) returns (ok: bool)
      requires Valid() && ownership.Certain?
      modifies this`state, this`policy, this`ownership, this`lagging, this`lost, db`entry, db`rows, db`clock
      ensures Valid() && uncertainFee == old(uncertainFee)
      ensures ok ==> ownership.Certain? && uncertainFee.None? && !lagging && db.entry.Some? && db.entry.value.paid == old(state).paid
      ensures db.hooked == old(db.hooked) && db.cleared == old(db.cleared)
      ensures db.entry == old(db.entry) || SubMarkers(Fees(db.View()), old(state).fees)
      ensures ok ==> SubMarkers(Fees(db.View()), old(state).fees)
      ensures ok ==> forall h :: h in old(state).fees && SlotAt(old(db.View()), old(state).fees[h]).Erased? ==> h in Fees(db.View())
      ensures !ok && ownership.Certain? ==> lagging == old(lagging) && state == old(state)
    {
      var previous := Runtime(state, policy);
      var read := PruneMemory(f.pruneReads);
      if !read {
        state, policy := previous.state, previous.policy;
        return false;
      }
      ok := PersistOrRestore(previous, f);
    }

    /** pruneFinalizedClaimFees on the in-memory markers. */
    method PruneMemory(readsOk: bool) returns (ok: bool)
      requires Valid() && ownership.Certain?
      modifies this`state, db`rows, db`clock
      ensures ConsistentWith(old(state), policy) && Canonical(state) && state.paid == old(state).paid
      ensures ok && uncertainFee.None? ==>
                Books(db.View(), state, lost, limit)
      ensures db.hooked == old(db.hooked) && db.cleared == old(db.cleared)
      ensures SubMarkers(state.fees, old(state).fees) && db.entry == old(db.entry)
      ensures ok ==> forall h :: h in old(state).fees && SlotAt(old(db.View()), old(state).fees[h]).Erased? ==> h in state.fees
    {
      ghost var m, w, c := state, db.View(), db.clock;
      var pruned: map<string, string>;
      ok, pruned := PruneFinalizedClaimFees(state.fees, readsOk);
      ConsistentStable(w, db.View(), c, db.clock, Core(), m, policy, limit);
      if !ok { return; }
      if uncertainFee.None? { PrunedBooks(db.View(), db.clock, Core(), Runtime(m, policy), state, pruned, limit); }
      state := state.(fees := pruned);
    }

    /** updateState: take a reward out of the balance. */
    method UpdateState(amount: nat, reconcileRead: bool, f: SaveFaults) returns (ok: bool)
      requires Valid()
      modifies this`state, this`policy, this`ownership, this`lagging, this`lost, db`entry, db`rows, db`clock
      ensures Valid() && uncertainFee == old(uncertainFee)
      ensures ok ==> ownership.Certain? && uncertainFee.None? && !lagging && db.entry.Some?
      ensures ok && old(ownership).Certain? ==>
                && old(state).den > 0 && old(state).rateDuration > 0
                && db.entry == Some(Debit(Accrue(old(state), old(db.clock), policy.upperLimit), amount))
      ensures !ok && old(ownership).Certain? && ownership.Certain? ==> state == old(state) && policy == old(policy)
      ensures db.hooked == old(db.hooked) && db.cleared == old(db.cleared)
      ensures MarkersFrom(old(db.View()), db.View(), old(Memory()))
      ensures !ok && old(ownership).Certain? && ownership.Certain? ==> lagging == old(lagging)
      ensures ok && old(ownership).Certain? ==> Fees(db.View()) == old(state).fees
    {
      var certain := ReconcileWriteOwnership(reconcileRead);
      if !certain { return false; }
      ok := UpdateCertain(amount, f);
    }

    method UpdateCertain(amount: nat, f: SaveFaults) returns (ok: bool)
      requires Valid() && ownership.Certain?
      modifies this`state, this`policy, this`ownership, this`lagging, this`lost, db`entry, db`rows, db`clock
      ensures Valid() && uncertainFee == old(uncertainFee)
      ensures ok ==> ownership.Certain? && uncertainFee.None? && !lagging && policy == old(policy)
      ensures old(state).den > 0 && old(state).rateDuration > 0
      ensures ok ==> db.entry == Some(Debit(Accrue(old(state), old(db.clock), policy.upperLimit), amount))
      ensures !ok && ownership.Certain? ==> state == old(state) && policy == old(policy)
      ensures db.hooked == old(db.hooked) && db.cleared == old(db.cleared)
      ensures db.entry == old(db.entry) || SubMarkers(Fees(db.View()), old(state).fees)
      ensures !ok && ownership.Certain? ==> lagging == old(lagging)
      ensures ok ==> Fees(db.View()) == old(state).fees
    {
      var previous := Runtime(state, policy);
      if uncertainFee.None? { FollowsBooks(db.View(), db.clock, Core(), state, policy, limit); }
      TakeAmount(amount);
      ok := PersistOrRestore(previous, f);
    }

    /** Settle, clamp, and subtract a whole amount. */
    method TakeAmount(amount: nat)
      requires Canonical(state) && ownership.Certain?
      modifies this`state
      ensures old(state).den > 0 && old(state).rateDuration > 0
      ensures state == Debit(Accrue(old(state), db.clock, policy.upperLimit), amount)
      ensures Canonical(state) && state.fees == old(state).fees && state.paid == old(state).paid
    {
      AccrueCanonical(state, db.clock, policy.upperLimit);
      DebitCanonical(Accrue(state, db.clock, policy.upperLimit), amount);
      SettleBalance();
      ClampUpperLimit();
      state := state.(num := state.num - amount * state.den);
      NormalizeBalance();
    }

    /** installPolicy followed by enforceBalanceBoundaries. */
    method InstallPolicy(next: Policy)
      requires Canonical(state) && PolicyOk(next) && ownership.Certain?
      modifies this`state, this`policy
      ensures Canonical(state) && policy == next
      ensures state.fees == old(state).fees && state.paid == old(state).paid
      ensures state.rateAmount == next.amount && state.rateDuration == next.duration
      ensures state.updateTime == Max(old(state).updateTime, db.clock)
      ensures Value(state) == Confine(Value(old(state)) + Accrued(old(state), db.clock), next)
    {
      SettleCanonical(state, db.clock);
      SettleValue(state, db.clock);
      SettleBalance();
      state := state.(rateAmount := next.amount, rateDuration := next.duration);
      policy := next;
      SettleBalance();
      ClampValue(state, policy.upperLimit);
      ClampCanonical(state, policy.upperLimit);
      ClampUpperLimit();
      LowerValue(state, policy.lowerLimit);
      WholeCanonical(policy.lowerLimit);
      if state.num - policy.lowerLimit * state.den < 0 {
        state := state.(num := policy.lowerLimit, den := 1);
      }
    }

    /** onConfigReload. */
    method OnConfigReload(nextPolicy: Policy, reconcileRead: bool, f: SaveFaults) returns (ok: bool)
      requires Valid() && PolicyOk(nextPolicy)
      modifies this`state, this`policy, this`ownership, this`lagging, this`lost, db`entry, db`rows, db`clock
      ensures Valid() && uncertainFee == old(uncertainFee)
      ensures ok ==> ownership.Certain? && !lagging && policy == nextPolicy && db.entry.Some?
                     && db.entry.value.rateAmount == nextPolicy.amount && db.entry.value.rateDuration == nextPolicy.duration
      ensures !ok && old(ownership).Certain? && ownership.Certain? ==> state == old(state) && policy == old(policy)
      ensures db.hooked == old(db.hooked) && db.cleared == old(db.cleared)
      ensures MarkersFrom(old(db.View()), db.View(), old(Memory()))
      ensures !ok && old(ownership).Certain? && ownership.Certain? ==> lagging == old(lagging)
      ensures ok && old(ownership).Certain? ==> Fees(db.View()) == old(state).fees
    {
      var certain := ReconcileWriteOwnership(reconcileRead);
      if !certain { return false; }
      ok := ReloadCertain(nextPolicy, f);
    }

    method ReloadCertain(nextPolicy: Policy, f: SaveFaults) returns (ok: bool)
      requires Valid() && ownership.Certain? && PolicyOk(nextPolicy)
      modifies this`state, this`policy, this`ownership, this`lagging, this`lost, db`entry, db`rows, db`clock
      ensures Valid() && uncertainFee == old(uncertainFee)
      ensures ok ==> ownership.Certain? && !lagging && policy == nextPolicy && db.entry.Some?
                     && db.entry.value.rateAmount == nextPolicy.amount && db.entry.value.rateDuration == nextPolicy.duration
      ensures !ok && ownership.Certain? ==> state == old(state) && policy == old(policy)
      ensures db.hooked == old(db.hooked) && db.cleared == old(db.cleared)
      ensures db.entry == old(db.entry) || SubMarkers(Fees(db.View()), old(state).fees)
      ensures ok ==> Fees(db.View()) == old(state).fees
      ensures !ok && ownership.Certain? ==> lagging == old(lagging)
    {
      var previous := Runtime(state, policy);
      if uncertainFee.None? { FollowsBooks(db.View(), db.clock, Core(), state, policy, limit); }
      InstallPolicy(nextPolicy);
      ok := PersistOrRestore(previous, f);
    }

    // -------------------------------------------------------------- claim fees

    /** The first database read of a fee hook, with resolveUncertainClaimFee. */
    method ReadPersisted(readOk: bool) returns (ok: bool)
      requires Valid() && ownership.Certain?
      modifies this`state, this`ownership, this`uncertainFee, this`lagging, this`lost, db`rows, db`clock
      ensures Valid() && ownership.Certain? && EnvironmentMove(old(db.View()), db.View())
      ensures ok <==> readOk && Resolvable(old(db.entry), old(uncertainFee))
      ensures ok ==> uncertainFee.None? && db.entry.Some? && ownership == Certain(db.entry)
      ensures !ok ==> lagging == old(lagging) && uncertainFee == old(uncertainFee) && ownership == old(ownership)
      ensures ok ==> (lagging <==> old(lagging) || (old(uncertainFee).Some? && db.entry != old(ownership).durable))
      ensures db.entry == old(db.entry) && db.hooked == old(db.hooked) && db.cleared == old(db.cleared)
    {
      AwaitConsistent();
      if !readOk || db.entry.None? { return false; }
      ok := ResolveUncertainClaimFee();
    }

    /** resolveUncertainClaimFee, then certain ownership of what was read. */
    method ResolveUncertainClaimFee() returns (ok: bool)
      requires Valid() && ownership.Certain? && db.entry.Some?
      modifies this`ownership, this`uncertainFee, this`lagging, this`lost
      ensures Valid() && ownership.Certain?
      ensures ok <==> Resolvable(db.entry, old(uncertainFee))
      ensures ok ==> uncertainFee.None? && ownership == Certain(db.entry)
      ensures !ok ==> lagging == old(lagging) && uncertainFee == old(uncertainFee) && ownership == old(ownership)
      ensures ok ==> (lagging <==> old(lagging) || (old(uncertainFee).Some? && db.entry != old(ownership).durable))
    {
      if uncertainFee.None? { return true; }
      var u := uncertainFee.value;
      if u.txHash in db.entry.value.fees && db.entry.value.fees[u.txHash] != u.session { return false; }
      ResolveFee(db.View(), db.clock, Core(), state, policy, limit);
      if db.entry != ownership.durable { lagging, lost := true, lost + {u.session}; }
      ownership, uncertainFee := Certain(db.entry), None;
      ok := true;
    }

    /** An await between two steps of an operation that has not touched memory yet. */
    method AwaitConsistent()
      requires Valid() && ownership.Certain?
      modifies this`state, db`rows, db`clock
      ensures Valid() && EnvironmentMove(old(db.View()), db.View()) && db.clock >= old(db.clock)
    {
      ghost var w, c, m := db.View(), db.clock, state;
      Await();
      ReadKeeps(w, db.View(), c, db.clock, Core(), m, state, policy, limit);
    }

    /** accountConfirmedNativeClaimFee under runStateOperation. attempted tells whether the
        compare-and-set was reached. */
    method AccountConfirmedNativeClaimFee(session: string, claim: Claim, reconcileRead: bool, f: FeeFaults)
        returns (ok: bool, ghost attempted: bool)
      requires Valid() && claim.Confirmed?
      modifies this`state, this`policy, this`ownership, this`uncertainFee, this`lagging, this`lost,
               db`entry, db`rows, db`clock, db`hooked
      ensures Valid()
      ensures db.hooked == (if ok then old(db.hooked) + {session} else old(db.hooked)) && db.cleared == old(db.cleared)
      ensures ok ==> ownership.Certain? && uncertainFee.None? && !lagging && (Marked(db.View(), session) || FinishedSlot(SlotAt(db.View(), session)))
      ensures MarkedFor(old(db.View()), db.View(), session)
      ensures old(ownership).Certain? && !ok && ownership.Certain? && uncertainFee.None? ==>
                (lagging <==> !attempted && (old(lagging) || (old(uncertainFee).Some? && old(db.entry) != old(ownership).durable)))
      ensures uncertainFee.Some? ==> attempted || uncertainFee == old(uncertainFee)
      ensures !attempted ==> db.entry == old(db.entry)
      ensures old(ownership).Certain? ==> HookTells(ok, attempted, old(db.View()), old(Core()), Core(), session, claim, f, limit)
    {
      var certain := ReconcileWriteOwnership(reconcileRead);
      if !certain { return false, false; }
      ok, attempted := AccountCertain(session, claim, f);
    }

    method AccountCertain(session: string, claim: Claim, f: FeeFaults) returns (ok: bool, ghost attempted: bool)
      requires Valid() && claim.Confirmed? && ownership.Certain?
      modifies this`state, this`ownership, this`uncertainFee, this`lagging, this`lost, db`entry, db`rows, db`clock, db`hooked
      ensures Valid()
      ensures db.hooked == (if ok then old(db.hooked) + {session} else old(db.hooked)) && db.cleared == old(db.cleared)
      ensures ok ==> ownership.Certain? && uncertainFee.None? && !lagging && (Marked(db.View(), session) || FinishedSlot(SlotAt(db.View(), session)))
      ensures MarkedFor(old(db.View()), db.View(), session)
      ensures !ok && ownership.Certain? && uncertainFee.None? ==>
                (lagging <==> !attempted && (old(lagging) || (old(uncertainFee).Some? && old(db.entry) != old(ownership).durable)))
      ensures uncertainFee.Some? ==> attempted || uncertainFee == old(uncertainFee)
      ensures !attempted ==> db.entry == old(db.entry)
      ensures HookTells(ok, attempted, old(db.View()), old(Core()), Core(), session, claim, f, limit)
    {
      ghost var w := db.View();
      var read := ReadPersisted(f.entryRead);
      ForeseenStable(w, db.View(), session, claim, f, limit);
      if !read { return false, false; }
      ok, attempted := AccountRead(session, claim, f);
      if ok { NoteHooked(session); }
    }

    /** History: the hook of the session has returned. */
    ghost method NoteHooked(session: string)
      requires Valid() && ownership.Certain? && uncertainFee.None? && !lagging
      requires Marked(db.View(), session) || FinishedSlot(SlotAt(db.View(), session))
      modifies db`hooked
      ensures Valid() && db.hooked == old(db.hooked) + {session}
    {
      HookKeepsAccounts(db.View(), session, limit);
      HookConsistent(db.View(), db.clock, Core(), state, policy, session, limit);
      db.hooked := db.hooked + {session};
    }

    /** The rest of the hook, on the entry that was read. */
    method AccountRead(session: string, claim: Claim, f: FeeFaults) returns (ok: bool, ghost attempted: bool)
      requires Valid() && claim.Confirmed? && uncertainFee.None? && db.entry.Some? && ownership == Certain(db.entry)
      modifies this`state, this`ownership, this`uncertainFee, this`lagging, this`lost, db`entry, db`rows, db`clock
      ensures Valid()
      ensures db.hooked == old(db.hooked) && db.cleared == old(db.cleared)
      ensures ok ==> ownership.Certain? && uncertainFee.None? && !lagging && (Marked(db.View(), session) || FinishedSlot(SlotAt(db.View(), session)))
      ensures MarkedFor(old(db.View()), db.View(), session)
      ensures !ok && ownership.Certain? && uncertainFee.None? ==> (lagging <==> !attempted && old(lagging))
      ensures uncertainFee.Some? ==> attempted
      ensures !attempted ==> db.entry == old(db.entry)
      ensures Foreseen(old(db.View()), session, claim, limit) ==> (ok || attempted <==> !Stops(old(db.View()), session, claim, f))
      ensures !attempted ==> ownership.Certain? && uncertainFee.None?
    {
      var persisted, h := db.entry.value, claim.tx.txHash;
      if h in persisted.fees {
        if persisted.fees[h] != session { return false, false; }
        AdoptEntry();
        assert MarkerConfirmed(db.View(), h);
        return true, false;
      }
      ghost var w := db.View();
      AwaitConsistent();
      ForeseenStable(w, db.View(), session, claim, f, limit);
      if !f.sessionRead { return false, false; }
      ok, attempted := AccountUnmarked(session, claim, f);
    }

    /** The hook of a claim without a marker, once its session row is read. */
    method AccountUnmarked(session: string, claim: Claim, f: FeeFaults) returns (ok: bool, ghost attempted: bool)
      requires Valid() && claim.Confirmed? && uncertainFee.None? && db.entry.Some? && ownership == Certain(db.entry)
      requires claim.tx.txHash !in db.entry.value.fees && f.sessionRead
      modifies this`state, this`ownership, this`uncertainFee, this`lagging, this`lost, db`entry, db`rows, db`clock
      ensures Valid()
      ensures db.hooked == old(db.hooked) && db.cleared == old(db.cleared)
      ensures ok ==> ownership.Certain? && uncertainFee.None? && !lagging && (Marked(db.View(), session) || FinishedSlot(SlotAt(db.View(), session)))
      ensures MarkedFor(old(db.View()), db.View(), session)
      ensures !ok && ownership.Certain? && uncertainFee.None? ==> (lagging <==> !attempted && old(lagging))
      ensures uncertainFee.Some? ==> attempted
      ensures !attempted ==> db.entry == old(db.entry)
      ensures Foreseen(old(db.View()), session, claim, limit) ==> (ok || attempted <==> !Stops(old(db.View()), session, claim, f))
      ensures !attempted ==> ownership.Certain? && uncertainFee.None?
    {
      var h := claim.tx.txHash;
      assert SessionAccounted(db.View(), session);
      if !(session in db.rows && db.rows[session].Live?) { return false, false; }
      var row := db.rows[session].row;
      if IsDurablyFinalizedClaim(row, h) {
        AdoptEntry();
        return true, false;
      }
      if row.status != StatusClaiming || row.claim != Some(claim) { return false, false; }
      ok, attempted := ChargeFee(session, claim, f);
    }

    /** this.outflowState = persistedState. */
    method AdoptEntry()
      requires Valid() && ownership == Certain(db.entry) && uncertainFee.None? && db.entry.Some?
      modifies this`state, this`lagging, this`lost
      ensures Valid() && !lagging && state == db.entry.value
    {
      state := db.entry.value;
      lagging, lost := false, {};
    }

    /** Prune the persisted markers, charge the fee and set the marker, in one compare-and-set. */
    method ChargeFee(session: string, claim: Claim, f: FeeFaults) returns (ok: bool, ghost attempted: bool)
      requires Valid() && claim.Confirmed? && uncertainFee.None? && db.entry.Some? && ownership == Certain(db.entry)
      requires ClaimingWith(db.View(), session, claim) && claim.tx.txHash !in Fees(db.View())
      modifies this`state, this`ownership, this`uncertainFee, this`lagging, this`lost, db`entry, db`rows, db`clock
      ensures Valid()
      ensures db.hooked == old(db.hooked) && db.cleared == old(db.cleared)
      ensures ok ==> ownership.Certain? && uncertainFee.None? && !lagging && Marked(db.View(), session)
      ensures MarkedFor(old(db.View()), db.View(), session)
      ensures !ok && ownership.Certain? && uncertainFee.None? ==> (lagging <==> !attempted && old(lagging))
      ensures uncertainFee.Some? ==> attempted
      ensures !attempted ==> db.entry == old(db.entry)
      ensures |Fees(old(db.View()))| < limit ==> (attempted <==> f.pruneReads || Fees(old(db.View())) == map[])
      ensures ok ==> attempted
      ensures !attempted ==> ownership.Certain? && uncertainFee.None?
    {
      var h := claim.tx.txHash;
      ghost var w, c, m := db.View(), db.clock, state;
      var read, pruned := PruneFinalizedClaimFees(db.entry.value.fees, f.pruneReads);
      ReadKeeps(w, db.View(), c, db.clock, Core(), m, state, policy, limit);
      ClaimingStable(w, db.View(), session, claim, limit);
      SubsetSize(pruned.Keys, Fees(w).Keys);
      if !read || |pruned| >= limit { return false, false; }
      attempted := true;
      NotCleared(db.View(), session);
      ok := CommitFee(h, session, claim.txFee, pruned, f);
    }

    /** The persisted state with the fee taken out and its marker set. */
    method TakeFee(persisted: OutflowState, pruned: map<string, string>, h: string, session: string, fee: nat)
      requires Canonical(persisted) && ownership.Certain?
      modifies this`state
      ensures state == FeeNext(persisted, pruned, h, session, fee, db.clock, policy.upperLimit) && Canonical(state)
    {
      state := persisted.(fees := pruned);
      TakeAmount(fee);
      state := state.(fees := state.fees[h := session], paid := state.paid + multiset{session});
      FeeNextIs(persisted, pruned, h, session, fee, db.clock, policy.upperLimit);
    }

    method CommitFee(h: string, session: string, fee: nat, pruned: map<string, string>, f: FeeFaults) returns (ok: bool)
      requires Valid() && uncertainFee.None? && FeeReady(db.View(), pruned, h, session, limit) && ownership == Certain(db.entry)
      modifies this`state, this`ownership, this`uncertainFee, this`lagging, this`lost, db`entry, db`rows, db`clock
      ensures Valid()
      ensures db.hooked == old(db.hooked) && db.cleared == old(db.cleared)
      ensures ok ==> ownership.Certain? && uncertainFee.None? && !lagging && Marked(db.View(), session)
      ensures db.entry == old(db.entry) || (db.entry.Some? && Fees(db.View()) == pruned[h := session])
      ensures !ok && uncertainFee.None? ==> !lagging
    {
      var previous := state;
      var r := ChargeAndWrite(h, session, fee, pruned, f.cas);
      if r.CasTrue? {
        ownership, lagging, lost := Certain(db.entry), false, {};
        return true;
      }
      state, uncertainFee := previous, Some(UncertainFee(h, session));
      ok := RecheckFee(f.recheck);
    }

    /** Memory takes the charged state, which is then written. */
    method ChargeAndWrite(h: string, session: string, fee: nat, pruned: map<string, string>, f: Fault) returns (r: CasResult)
      requires Valid() && uncertainFee.None? && FeeReady(db.View(), pruned, h, session, limit) && ownership == Certain(db.entry)
      modifies this`state, db`entry, db`rows, db`clock
      ensures r == if f == Ack then CasTrue else CasThrew
      ensures r.CasTrue? ==> Marked(db.View(), session)
      ensures r.CasTrue? ==> Consistent(db.View(), db.clock, Core().(ownership := Certain(db.entry), lagging := false, lost := {}),
                                        state, policy, limit)
      ensures r.CasThrew? ==> Consistent(db.View(), db.clock, Core().(uncertainFee := Some(UncertainFee(h, session))),
                                         old(state), policy, limit)
      ensures db.hooked == old(db.hooked) && db.cleared == old(db.cleared)
      ensures db.entry == old(db.entry) || (db.entry.Some? && Fees(db.View()) == pruned[h := session])
    {
      var persisted, previous := db.entry.value, state;
      FeeReadyCanonical(db.View(), pruned, h, session, limit);
      TakeFee(persisted, pruned, h, session, fee);
      r := AwaitFeeWrite(previous, persisted, pruned, h, session, fee, db.clock, f);
    }

    /** The awaited compareAndSetKeyValueEntry of a fee. It cannot report a mismatch. */
    method AwaitFeeWrite(previous: OutflowState, persisted: OutflowState, pruned: map<string, string>, h: string,
                         session: string, fee: nat, at: nat, f: Fault) returns (r: CasResult)
      requires ConsistentWith(previous, policy) && uncertainFee.None? && ownership == Certain(db.entry) && at <= db.clock
      requires FeeReady(db.View(), pruned, h, session, limit) && db.entry.value == persisted && Canonical(persisted) && Canonical(state)
      requires state == FeeNext(persisted, pruned, h, session, fee, at, policy.upperLimit)
      modifies this`state, db`entry, db`rows, db`clock
      ensures r == if f == Ack then CasTrue else CasThrew
      ensures r.CasTrue? ==> db.entry == Some(old(state)) && Marked(db.View(), session)
      ensures r.CasTrue? ==> Consistent(db.View(), db.clock, Core().(ownership := Certain(db.entry), lagging := false, lost := {}),
                                        state, policy, limit)
      ensures r.CasThrew? ==> Consistent(db.View(), db.clock, Core().(uncertainFee := Some(UncertainFee(h, session))),
                                         previous, policy, limit)
      ensures db.hooked == old(db.hooked) && db.cleared == old(db.cleared)
      ensures db.entry == old(db.entry) || db.entry == Some(old(state))
    {
      var next := state;
      ghost var w, c := db.View(), db.clock;
      Await();
      ConsistentStable(w, db.View(), c, db.clock, Core(), previous, policy, limit);
      FeeReadyStable(w, db.View(), pruned, h, session, limit);
      ReadFollows(next, next, state, c, db.clock, policy.upperLimit);
      r := WriteFee(previous, persisted, next, pruned, h, session, fee, at, f);
    }

    method WriteFee(previous: OutflowState, persisted: OutflowState, next: OutflowState, pruned: map<string, string>, h: string,
                    session: string, fee: nat, at: nat, f: Fault) returns (r: CasResult)
      requires ConsistentWith(previous, policy) && uncertainFee.None? && ownership == Certain(db.entry)
      requires FeeReady(db.View(), pruned, h, session, limit) && db.entry.value == persisted && Canonical(persisted) && Canonical(state)
      requires next == FeeNext(persisted, pruned, h, session, fee, at, policy.upperLimit)
      requires Follows(state, Some(next), policy.upperLimit, db.clock)
      modifies this`state, db`entry, db`rows, db`clock
      ensures r == if f == Ack then CasTrue else CasThrew
      ensures r.CasTrue? ==> db.entry == Some(next) && Marked(db.View(), session)
      ensures r.CasTrue? ==> Consistent(db.View(), db.clock, Core().(ownership := Certain(db.entry), lagging := false, lost := {}),
                                        state, policy, limit)
      ensures r.CasThrew? ==> Consistent(db.View(), db.clock, Core().(uncertainFee := Some(UncertainFee(h, session))),
                                         previous, policy, limit)
      ensures db.hooked == old(db.hooked) && db.cleared == old(db.cleared)
      ensures db.entry == old(db.entry) || db.entry == Some(next)
    {
      ghost var v, c, m := db.View(), db.clock, state;
      r := db.CompareAndSetEntry(persisted, next, f);
      FeeWritten(v, c, Core(), previous, policy, m, pruned, h, session, fee, at, f, limit);
      ghost var u := db.View();
      Await();
      if r.CasTrue? {
        ReadKeeps(u, db.View(), c, db.clock, Core().(ownership := Certain(db.entry), lagging := false, lost := {}), m, state, policy, limit);
        EnvironmentKeepsMark(u, db.View(), session, limit);
      } else {
        ConsistentStable(u, db.View(), c, db.clock, Core().(uncertainFee := Some(UncertainFee(h, session))), previous, policy, limit);
      }
    }

    /** The read that follows a failed fee write. */
    method RecheckFee(readOk: bool) returns (ok: bool)
      requires Valid() && ownership.Certain? && uncertainFee.Some?
      modifies this`state, this`ownership, this`uncertainFee, this`lagging, this`lost, db`rows, db`clock
      ensures Valid()
      ensures db.hooked == old(db.hooked) && db.cleared == old(db.cleared)
      ensures ok ==> ownership.Certain? && uncertainFee.None? && !lagging && Marked(db.View(), old(uncertainFee).value.session)
      ensures db.entry == old(db.entry)
      ensures !ok && uncertainFee.None? ==> !lagging
    {
      AwaitConsistent();
      if !readOk || db.entry.None? { return false; }
      var u := uncertainFee.value;
      if u.txHash in db.entry.value.fees && db.entry.value.fees[u.txHash] != u.session { return false; }
      state, ownership, uncertainFee, lagging, lost := db.entry.value, Certain(db.entry), None, false, {};
      ok := u.txHash in db.entry.value.fees;
      assert MarkerConfirmed(db.View(), u.txHash);
    }

    // -------------------------------------------------------------- clean-up guard

    /** canCleanupSession of a finished session under runStateOperation; an error means no. */
    method CanCleanupSession(session: string, claim: Claim, reconcileRead: bool, readOk: bool) returns (allowed: bool)
      requires Valid() && claim.Confirmed?
      requires FinishedSlot(SlotAt(db.View(), session)) && SlotAt(db.View(), session).row.claim == Some(claim)
      modifies this`state, this`policy, this`ownership, this`lagging, this`lost, db`rows, db`clock, db`cleared
      ensures Valid()
      ensures db.cleared == (if allowed then old(db.cleared) + {session} else old(db.cleared)) && db.hooked == old(db.hooked)
      ensures allowed ==> !Marked(db.View(), session)
      ensures db.entry == old(db.entry) && uncertainFee == old(uncertainFee)
      ensures old(ownership).Certain? ==> lagging == old(lagging) && ownership == old(ownership)
    {
      ghost var w := db.View();
      var certain := ReconcileWriteOwnership(reconcileRead);
      if !certain { return false; }
      ghost var v := db.View();
      AwaitConsistent();
      EnvironmentMoveTransitive(w, v, db.View());
      FinishedStays(w, db.View(), session);
      if !readOk { return false; }
      if db.entry.Some? {
        var markers, h := db.entry.value.fees, claim.tx.txHash;
        if h in markers && markers[h] != session { return false; }
        if exists g :: g in markers && markers[g] == session && g != h { return false; }
        if h in markers { return false; }
      }
      allowed := true;
      ClearKeepsAccounts(db.View(), session, limit);
      ClearConsistent(db.View(), db.clock, Core(), state, policy, session, limit);
      db.cleared := db.cleared + {session};
    }

    // -------------------------------------------------------------- start and other turns

    /** startModule of a new process: load or create the state, install the policy, prune, persist. */
    method StartModule(readOk: bool, f: SaveFaults) returns (ok: bool)
      requires Accounted(db.View(), limit) && HistoryOk(db.View()) && PolicyOk(policy) && Canonical(state)
      requires ownership == Certain(None) && uncertainFee.None? && !lagging && lost == {}
      modifies this`state, this`policy, this`ownership, this`lagging, this`lost, db`entry, db`rows, db`clock
      ensures Accounted(db.View(), limit) && HistoryOk(db.View())
      ensures ok ==> Valid() && ownership.Certain? && !lagging
      ensures db.hooked == old(db.hooked) && db.cleared == old(db.cleared)
      ensures MarkersFrom(old(db.View()), db.View(), map[])
    {
      Await();
      if !readOk { return false; }
      LoadOutflowState();
      ok := InstallAndSave(f);
    }

    method LoadOutflowState()
      requires Accounted(db.View(), limit) && HistoryOk(db.View()) && PolicyOk(policy)
      requires uncertainFee.None? && !lagging && lost == {}
      modifies this`state, this`ownership
      ensures Valid() && ownership == Certain(db.entry)
    {
      WholeCanonical(0);
      ownership := Certain(db.entry);
      state := if db.entry.None? then OutflowState(0, 1, db.clock, policy.amount, policy.duration, map[], multiset{})
               else db.entry.value;
    }

    method InstallAndSave(f: SaveFaults) returns (ok: bool)
      requires Valid() && ownership.Certain? && uncertainFee.None? && !lagging
      modifies this`state, this`policy, this`ownership, this`lagging, this`lost, db`entry, db`rows, db`clock
      ensures Accounted(db.View(), limit) && HistoryOk(db.View())
      ensures ok ==> Valid() && ownership.Certain? && !lagging
      ensures db.hooked == old(db.hooked) && db.cleared == old(db.cleared)
      ensures db.entry == old(db.entry) || SubMarkers(Fees(db.View()), old(state).fees)
    {
      var previous := Runtime(state, policy);
      InstallStart();
      ok := PruneAndSave(previous, f);
    }

    method PruneAndSave(previous: Runtime, f: SaveFaults) returns (ok: bool)
      requires ConsistentWith(previous.state, previous.policy) && ownership.Certain? && uncertainFee.None? && !lagging
      requires Canonical(state) && PolicyOk(policy) && state.fees == previous.state.fees && state.paid == previous.state.paid
      modifies this`state, this`policy, this`ownership, this`lagging, this`lost, db`entry, db`rows, db`clock
      ensures Accounted(db.View(), limit) && HistoryOk(db.View())
      ensures ok ==> Valid() && ownership.Certain? && !lagging
      ensures db.hooked == old(db.hooked) && db.cleared == old(db.cleared)
      ensures db.entry == old(db.entry) || SubMarkers(Fees(db.View()), old(state).fees)
    {
      ok := PruneInstalled(previous, f.pruneReads);
      // A failed write already restores memory, so restoring it again changes nothing.
      if ok { ok := PersistOrRestore(previous, f); }
    }

    method InstallStart()
      requires Valid() && ownership.Certain?
      modifies this`state, this`policy
      ensures ConsistentWith(old(state), old(policy)) && Canonical(state) && policy == old(policy)
      ensures state.fees == old(state).fees && state.paid == old(state).paid
    {
      InstallPolicy(policy);
    }

    method PruneInstalled(previous: Runtime, readsOk: bool) returns (ok: bool)
      requires ConsistentWith(previous.state, previous.policy) && ownership.Certain? && uncertainFee.None? && Canonical(state)
      requires state.fees == previous.state.fees && state.paid == previous.state.paid
      modifies this`state, db`rows, db`clock
      ensures ConsistentWith(previous.state, previous.policy) && Canonical(state)
      ensures Books(db.View(), state, lost, limit)
      ensures db.hooked == old(db.hooked) && db.cleared == old(db.cleared)
      ensures SubMarkers(state.fees, old(state).fees) && db.entry == old(db.entry)
    {
      ghost var w, c := db.View(), db.clock;
      var pruned: map<string, string>;
      ok, pruned := PruneFinalizedClaimFees(state.fees, readsOk);
      ConsistentStable(w, db.View(), c, db.clock, Core(), previous.state, previous.policy, limit);
      PrunedBooks(db.View(), db.clock, Core(), previous, state, pruned, limit);
      state := state.(fees := pruned);
    }

    /** Turns of the event loop between two state operations. */
    method Idle()
      requires Valid()
      modifies this`state, db`rows, db`clock
      ensures Valid() && EnvironmentMove(old(db.View()), db.View()) && Core() == old(Core())
    {
      if ownership.Certain? {
        AwaitConsistent();
      } else {
        ghost var w, c := db.View(), db.clock;
        db.OtherTurns(limit);
        ConsistentStable(w, db.View(), c, db.clock, Core(), state, policy, limit);
      }
    }
  }

  /** A value held between the limits of a policy. */
  ghost function Confine(v: real, p: Policy): real {
    if v > p.upperLimit as real then p.upperLimit as real
    else if v < p.lowerLimit as real then p.lowerLimit as real else v
  }

  lemma LowerValue(s: OutflowState, lower: int)
    requires s.den > 0
    ensures Value(s) < lower as real <==> s.num - lower * s.den < 0
  {
    RealMul(lower, s.den);
    var x, l, d := Value(s), lower as real, s.den as real;
    assert (x - l) * d == (s.num - lower * s.den) as real;
    assert (x - l) * d < 0.0 <==> x - l < 0.0;
  }

  /** Pruned markers are still books that follow the entry. */
  lemma PrunedBooks(w: World, c: nat, k: Control, previous: Runtime, m: OutflowState, pruned: map<string, string>, limit: nat)
    requires Accounted(w, limit) && MemoryOk(w, c, k, previous.state, previous.policy, limit)
    requires m.fees == previous.state.fees && m.paid == previous.state.paid
    requires PrunedFrom(w, m.fees, pruned)
    ensures Books(w, m.(fees := pruned), k.lost, limit)
  {
    FollowsBooks(w, c, k, previous.state, previous.policy, limit);
    SubsetSize(pruned.Keys, m.fees.Keys);
  }

  /** A read in an await keeps consistency. */
  lemma ReadKeeps(w: World, v: World, c: nat, e: nat, k: Control, m: OutflowState, n: OutflowState, p: Policy, limit: nat)
    requires Consistent(w, c, k, m, p, limit) && k.ownership.Certain? && EnvironmentMove(w, v) && c <= e
    requires n == m || ReadBetween(m, n, c, e, p.upperLimit)
    ensures Consistent(v, e, k, n, p, limit)
  {
    if n != m {
      var t: nat :| c <= t <= e && AccruedAt(n, m, t, p.upperLimit);
      ReaderKeepsConsistent(w, c, t, e, k, m, p, limit);
      ConsistentStable(w, v, e, e, k, n, p, limit);
    } else {
      ConsistentStable(w, v, c, e, k, m, p, limit);
    }
  }

  lemma ReadBetweenTransitive(a: OutflowState, b: OutflowState, d: OutflowState, c: nat, e: nat, g: nat, upper: int)
    requires Canonical(a) && c <= e <= g
    requires b == a || ReadBetween(a, b, c, e, upper)
    requires d == b || ReadBetween(b, d, e, g, upper)
    ensures d == a || ReadBetween(a, d, c, g, upper)
  {
    if b != a && d != b {
      var t: nat :| c <= t <= e && AccruedAt(b, a, t, upper);
      var u: nat :| e <= u <= g && AccruedAt(d, b, u, upper);
      PathIndependent(a, t, u, upper);
      assert AccruedAt(d, a, u, upper);
    } else if b != a {
      var t: nat :| c <= t <= e && AccruedAt(b, a, t, upper);
      assert AccruedAt(d, a, t, upper);
    } else if d != b {
      var u: nat :| e <= u <= g && AccruedAt(d, b, u, upper);
      assert AccruedAt(d, a, u, upper);
    }
  }

  /** Clearing an unknown fee once the entry has been read. When the fee had been committed,
      memory that is not replaced stays behind by that fee. */
  lemma ResolveFee(w: World, c: nat, k: Control, m: OutflowState, p: Policy, limit: nat)
    requires Consistent(w, c, k, m, p, limit) && k.ownership.Certain? && k.uncertainFee.Some?
    ensures var d := k.ownership.durable;
            var k' := if w.entry == d then k.(uncertainFee := None)
                      else Control(Certain(w.entry), None, true, k.lost + {k.uncertainFee.value.session});
            Consistent(w, c, k', m, p, limit)
  {}

  lemma FeeReadyCanonical(w: World, pruned: map<string, string>, h: string, s: string, limit: nat)
    requires Accounted(w, limit) && FeeReady(w, pruned, h, s, limit)
    ensures Canonical(w.entry.value)
  {}

  predicate ClaimingWith(w: World, s: string, claim: Claim) {
    SlotAt(w, s).Live? && SlotAt(w, s).row.status == StatusClaiming && SlotAt(w, s).row.claim == Some(claim)
  }

  lemma NotCleared(w: World, s: string)
    requires HistoryOk(w) && SlotAt(w, s).Live? && SlotAt(w, s).row.status == StatusClaiming
    ensures s !in w.cleared
  {}

  /** A confirmed claim whose fee is not accounted for cannot be finalized by anyone else. */
  lemma ClaimingStable(w: World, v: World, s: string, claim: Claim, limit: nat)
    requires Accounted(w, limit) && EnvironmentMove(w, v) && claim.Confirmed?
    requires ClaimingWith(w, s, claim) && claim.tx.txHash !in Fees(w)
    ensures ClaimingWith(v, s, claim)
  {
    assert SessionAccounted(w, s);
    assert RowMove(w, SlotAt(w, s), SlotAt(v, s), s);
  }

  /** The entry is there, and its marker of the unknown fee, if it has one, is the right one. */
  predicate Resolvable(entry: Option<OutflowState>, u: Option<UncertainFee>) {
    entry.Some? && !(u.Some? && u.value.txHash in entry.value.fees && entry.value.fees[u.value.txHash] != u.value.session)
  }

  /** The row has confirmed the claim and is not one that may be deleted while the hook runs, and
      the entry has the claim's marker or room for it. */
  predicate Foreseen(w: World, s: string, claim: Claim, limit: nat) {
    var c := SlotAt(w, s);
    && claim.Confirmed? && c.HasClaim() && c.Claimed() == claim
    && (c.Live? && FinishedSlot(c) ==> s !in w.cleared)
    && (claim.tx.txHash in Fees(w) || |Fees(w)| < limit)
  }

  /** What stops such a hook between its first read and its write: the marker of another session,
      a row that cannot be read or is deleted, a marker's row that pruning cannot read. */
  predicate Stops(w: World, s: string, claim: Claim, f: FeeFaults)
    requires claim.Confirmed?
  {
    var c, h := SlotAt(w, s), claim.tx.txHash;
    if h in Fees(w) then Fees(w)[h] != s
    else if FinishedSlot(c) then !f.sessionRead || c.Erased?
    else !(f.sessionRead && (f.pruneReads || Fees(w) == map[]))
  }

  /** What the faults of a hook and the state before it tell about its outcome. */
  ghost predicate HookTells(ok: bool, attempted: bool, w: World, k: Control, after: Control, s: string, claim: Claim,
                            f: FeeFaults, limit: nat)
  {
    var resolved := claim.Confirmed? && f.entryRead && Resolvable(w.entry, k.uncertainFee);
    && (Foreseen(w, s, claim, limit) ==> (ok || attempted <==> resolved && !Stops(w, s, claim, f)))
    && (!attempted ==> after.ownership.Certain? && after.uncertainFee == if resolved then None else k.uncertainFee)
  }

  /** Others leave both as they are. */
  lemma ForeseenStable(w: World, v: World, s: string, claim: Claim, f: FeeFaults, limit: nat)
    requires Accounted(w, limit) && HistoryOk(w) && EnvironmentMove(w, v)
    ensures Foreseen(w, s, claim, limit) ==> Foreseen(v, s, claim, limit) && (Stops(v, s, claim, f) <==> Stops(w, s, claim, f))
  {
    assert SessionAccounted(w, s);
    assert RowMove(w, SlotAt(w, s), SlotAt(v, s), s);
  }

  lemma FinishedStays(w: World, v: World, s: string)
    requires EnvironmentMove(w, v) && FinishedSlot(SlotAt(w, s)) && ConfirmedSlot(SlotAt(w, s))
    ensures FinishedSlot(SlotAt(v, s)) && SlotAt(v, s).row.claim == SlotAt(w, s).row.claim
  {
    assert RowMove(w, SlotAt(w, s), SlotAt(v, s), s);
  }

  lemma EnvironmentKeepsMark(w: World, v: World, s: string, limit: nat)
    requires Accounted(w, limit) && EnvironmentMove(w, v) && Marked(w, s)
    ensures Marked(v, s)
  {
    MoveKeepsSession(w, v, s, limit);
  }

  lemma FeeNextIs(cur: OutflowState, pruned: map<string, string>, h: string, s: string, fee: nat, now: nat, upper: int)
    requires cur.den > 0 && cur.rateDuration > 0
    ensures cur.(fees := pruned).den > 0
    ensures Accrue(cur.(fees := pruned), now, upper).den > 0
    ensures Debit(Accrue(cur.(fees := pruned), now, upper), fee).(fees := pruned[h := s], paid := cur.paid + multiset{s})
            == FeeNext(cur, pruned, h, s, fee, now, upper)
  {
    AccrueDen(cur, now, upper);
    AccrueDen(cur.(fees := pruned), now, upper);
    assert Accrue(cur.(fees := pruned), now, upper) == Accrue(cur, now, upper).(fees := pruned);
  }

  /** An acknowledged fee write leaves memory in step with the entry. */
  lemma FeeAcknowledged(w: World, c: nat, k: Control, p: Policy, m: OutflowState, pruned: map<string, string>,
                        h: string, s: string, fee: nat, at: nat, limit: nat)
    requires Accounted(w, limit) && HistoryOk(w) && k.uncertainFee.None? && PolicyOk(p)
    requires FeeReady(w, pruned, h, s, limit) && Canonical(w.entry.value) && Canonical(m)
    requires Follows(m, Some(FeeNext(w.entry.value, pruned, h, s, fee, at, p.upperLimit)), p.upperLimit, c)
    ensures var v := w.(entry := Some(FeeNext(w.entry.value, pruned, h, s, fee, at, p.upperLimit)));
            Marked(v, s) && Consistent(v, c, k.(ownership := Certain(v.entry), lagging := false, lost := {}), m, p, limit)
  {
    FeeWriteKeepsAccounts(w, pruned, h, s, fee, at, p.upperLimit, limit);
    hide Accounted, Books, MarkersOwned, Marked, FeeReady, FeeNext;
  }

  lemma FeeNextMarks(w: World, pruned: map<string, string>, h: string, s: string, fee: nat, at: nat, upper: int, limit: nat)
      returns (n: OutflowState)
    requires FeeReady(w, pruned, h, s, limit) && Canonical(w.entry.value)
    ensures w.entry.Some? && n == FeeNext(w.entry.value, pruned, h, s, fee, at, upper)
    ensures h in n.fees && n.fees[h] == s && h !in Fees(w)
  {
    n := FeeNext(w.entry.value, pruned, h, s, fee, at, upper);
  }

  lemma EntryKeepsHistory(w: World, entry: Option<OutflowState>)
    requires HistoryOk(w)
    ensures HistoryOk(w.(entry := entry))
  {
    assert forall s: string :: SlotAt(w.(entry := entry), s) == SlotAt(w, s);
  }

  /** An unknown one leaves the fee unknown. */
  lemma FeeUnanswered(w: World, c: nat, k: Control, previous: OutflowState, p: Policy, pruned: map<string, string>,
                      h: string, s: string, fee: nat, at: nat, limit: nat)
    requires Consistent(w, c, k, previous, p, limit) && k.uncertainFee.None? && k.ownership == Certain(w.entry)
    requires FeeReady(w, pruned, h, s, limit) && Canonical(w.entry.value)
    ensures var v := w.(entry := Some(FeeNext(w.entry.value, pruned, h, s, fee, at, p.upperLimit)));
            Consistent(v, c, k.(uncertainFee := Some(UncertainFee(h, s))), previous, p, limit)
  {
    hide Accounted, HistoryOk, Books, MarkersOwned, Marked, FeeReady, FeeNext, MemoryOk;
    var n := FeeNextMarks(w, pruned, h, s, fee, at, p.upperLimit, limit);
    FollowsBooks(w, c, k, previous, p, limit);
    FeeWriteKeepsAccounts(w, pruned, h, s, fee, at, p.upperLimit, limit);
    FeeWriteLeavesLag(w, previous, k.lost, pruned, h, s, fee, at, p.upperLimit, limit);
    EntryKeepsHistory(w, Some(n));
  }

  /** Both outcomes of the fee write: acknowledged, or unknown with memory put back. */
  lemma FeeWritten(w: World, c: nat, k: Control, previous: OutflowState, p: Policy, m: OutflowState, pruned: map<string, string>,
                   h: string, s: string, fee: nat, at: nat, f: Fault, limit: nat)
    requires Consistent(w, c, k, previous, p, limit) && k.uncertainFee.None? && k.ownership == Certain(w.entry)
    requires FeeReady(w, pruned, h, s, limit) && Canonical(w.entry.value) && Canonical(m)
    requires Follows(m, Some(FeeNext(w.entry.value, pruned, h, s, fee, at, p.upperLimit)), p.upperLimit, c)
    ensures var v := if f == NoEffect then w else w.(entry := Some(FeeNext(w.entry.value, pruned, h, s, fee, at, p.upperLimit)));
            && (f == Ack ==> Marked(v, s) && Consistent(v, c, k.(ownership := Certain(v.entry), lagging := false, lost := {}), m, p, limit))
            && (f != Ack ==> Consistent(v, c, k.(uncertainFee := Some(UncertainFee(h, s))), previous, p, limit))
  {
    if f == Ack { FeeAcknowledged(w, c, k, p, m, pruned, h, s, fee, at, limit); }
    if f == LostAck { FeeUnanswered(w, c, k, previous, p, pruned, h, s, fee, at, limit); }
  }

  lemma HookConsistent(w: World, c: nat, k: Control, m: OutflowState, p: Policy, s: string, limit: nat)
    requires Consistent(w, c, k, m, p, limit) && k.ownership.Certain? && k.uncertainFee.None? && !k.lagging
    requires Marked(w, s) || FinishedSlot(SlotAt(w, s))
    ensures Consistent(w.(hooked := w.hooked + {s}), c, k, m, p, limit)
  {
    HookKeepsAccounts(w, s, limit);
  }

  lemma ClearConsistent(w: World, c: nat, k: Control, m: OutflowState, p: Policy, s: string, limit: nat)
    requires Consistent(w, c, k, m, p, limit) && k.ownership.Certain?
    requires FinishedSlot(SlotAt(w, s)) && !Marked(w, s)
    ensures Consistent(w.(cleared := w.cleared + {s}), c, k, m, p, limit)
  {
    ClearKeepsAccounts(w, s, limit);
    BooksIgnoreCleared(w, m, k.lost, s, limit);
    if k.uncertainFee.Some? { BooksIgnoreCleared(w, m, k.lost + {k.uncertainFee.value.session}, s, limit); }
  }

  lemma BooksIgnoreCleared(w: World, m: OutflowState, lost: set<string>, s: string, limit: nat)
    ensures Books(w, m, lost, limit) ==> Books(w.(cleared := w.cleared + {s}), m, lost, limit)
  {
    assert forall x: string :: SlotAt(w.(cleared := w.cleared + {s}), x) == SlotAt(w, x);
  }

  /** Learning that an uncertain write took effect. */
  lemma ResolveNext(w: World, c: nat, k: Control, m0: OutflowState, m: OutflowState, p0: Policy, p: Policy, limit: nat)
    requires Consistent(w, c, k, m0, p0, limit) && k.ownership.Uncertain? && w.entry == Some(k.ownership.next)
    requires PolicyOk(p) && Canonical(m) && Follows(m, w.entry, p.upperLimit, c)
    ensures Consistent(w, c, k.(ownership := Certain(w.entry), lagging := false, lost := {}), m, p, limit)
  {}

  /** Whatever a blind write did, treating it as uncertain is consistent. */
  lemma WriteLeavesUncertain(w: World, c: nat, k: Control, prev: Runtime, next: Runtime, f: Fault, m: OutflowState, limit: nat)
    requires Consistent(w, c, k, prev.state, prev.policy, limit) && k.ownership.Certain? && k.uncertainFee.None?
    requires Books(w, next.state, k.lost, limit)
    requires Canonical(next.state) && PolicyOk(next.policy) && Canonical(m)
    ensures var v := if f == NoEffect then w else w.(entry := Some(next.state));
            var k' := k.(ownership := Uncertain(w.entry, next.state, prev, next));
            Consistent(v, c, k', m, next.policy, limit)
  {
    if SameJson(w.entry, Some(next.state)) { JsonTellsBooks(w, next.state, k.lost, limit); }
    if f != NoEffect {
      BlindWriteKeepsAccounts(w, next.state, k.lost, limit);
    }
  }

  lemma ReadFollows(d: OutflowState, m: OutflowState, n: OutflowState, c: nat, e: nat, upper: int)
    requires Canonical(d) && Follows(m, Some(d), upper, c) && c <= e
    requires n == m || ReadBetween(m, n, c, e, upper)
    ensures Follows(n, Some(d), upper, e)
  {
    if n != m {
      var t: nat :| c <= t <= e && AccruedAt(n, m, t, upper);
      if m != d {
        var u: nat :| u <= c && AccruedAt(m, d, u, upper);
        PathIndependent(d, u, t, upper);
      }
      assert AccruedAt(n, d, t, upper);
    }
  }

  lemma EnvironmentReflexive(w: World, limit: nat)
    requires Accounted(w, limit)
    ensures EnvironmentMove(w, w)
  {
    forall s: string ensures RowMove(w, SlotAt(w, s), SlotAt(w, s), s) { assert SessionAccounted(w, s); }
  }

  lemma PrunedStable(w: World, v: World, a: map<string, string>, b: map<string, string>, limit: nat)
    requires Accounted(w, limit) && EnvironmentMove(w, v) && PrunedFrom(w, a, b)
    ensures PrunedFrom(v, a, b)
  {
    forall s: string, h: string ensures Finalized(w, s, h) ==> Finalized(v, s, h) { MoveKeepsSession(w, v, s, limit); }
  }
}
