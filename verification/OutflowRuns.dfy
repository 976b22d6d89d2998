/** Any sequence of FaucetOutflowModule's operations with any faults, other turns in between, and
    processes that end anywhere: fees stay accounted for exactly once, and for every operation,
    exactly when it leaves memory behind the entry and when it puts back a marker without a row. */
module OutflowRuns {
  import opened Wrappers
  import opened ClaimData
  import opened OutflowLedger
  import opened FeeAccounting
  import opened FaucetOutflow
  import opened OutflowService
  import opened OutflowLag

  datatype Operation =
    | Save(reconcileRead: bool, save: SaveFaults)
    | Reward(amount: nat, reconcileRead: bool, save: SaveFaults)
    | Reload(policy: Policy, reconcileRead: bool, save: SaveFaults)
    | FeeHook(session: string, claim: Claim, reconcileRead: bool, fee: FeeFaults)
    | Guard(session: string, reconcileRead: bool, readOk: bool)
    | ReadRestriction
    | Restart(policy: Policy, readOk: bool, save: SaveFaults)

  predicate Writes(op: Operation) { !op.Guard? && !op.ReadRestriction? }

  // ------------------------------------------------------------------ markers and their rows

  /** The entry has a marker that it had not before, that memory still held, and that names a
      session cleared for deletion. */
  ghost predicate PutsBack(w: World, v: World, mem: map<string, string>) {
    exists h :: h in Fees(v) && !(h in Fees(w) && Fees(w)[h] == Fees(v)[h]) && h in mem && mem[h] == Fees(v)[h] && mem[h] in v.cleared
  }

  /** What an operation may do to the entry and to what is cleared. */
  ghost predicate OperationMoves(w: World, v: World, mem: map<string, string>) {
    && (forall h :: h in Fees(v) ==>
          (h in Fees(w) && Fees(w)[h] == Fees(v)[h]) || (h in mem && mem[h] == Fees(v)[h]) || Fees(v)[h] !in v.cleared)
    && (forall s: string :: s in v.cleared && s !in w.cleared ==> !Marked(v, s))
  }

  /** From markers that all have their rows, an operation leads to one without a row if and only
      if it puts one back. */
  lemma OwnersAfter(w: World, v: World, mem: map<string, string>, limit: nat)
    requires Accounted(w, limit) && Accounted(v, limit) && HistoryOk(v)
    requires OperationMoves(w, v, mem) && MarkersOwned(w)
    ensures MarkersOwned(v) <==> !PutsBack(w, v, mem)
  {
    OwnedExactly(v, limit);
    forall h | h in Fees(v) && (Fees(v)[h] in v.cleared || SlotAt(v, Fees(v)[h]).Erased?) ensures PutsBack(w, v, mem) {
      var s := Fees(v)[h];
      if s !in v.cleared { NamedErased(v, h, limit); }
      assert MarkerConfirmed(v, h) && MarkerConfirmed(w, h);
      assert Marked(v, s) && (h in Fees(w) && Fees(w)[h] == s ==> Marked(w, s));
    }
  }

  /** mem names no session that is cleared for deletion; deleted sessions are among those. */
  predicate NamesNone(w: World, mem: map<string, string>) { forall h :: h in mem ==> mem[h] !in w.cleared }

  /** mem names a session whose row is deleted. */
  predicate NamesDeleted(w: World, mem: map<string, string>) {
    exists h :: h in mem && mem[h] in w.cleared && SlotAt(w, mem[h]).Erased?
  }

  /** A write of markers from memory: every marker has its row afterwards if memory named no
      cleared session before the operation; and not, if one that it named is written. */
  lemma WrittenOwners(w: World, v: World, mem: map<string, string>, limit: nat)
    requires Accounted(v, limit) && HistoryOk(v) && SubMarkers(Fees(v), mem) && v.cleared == w.cleared
    ensures NamesNone(w, mem) ==> MarkersOwned(v)
    ensures (exists h :: h in Fees(v) && Fees(v)[h] in w.cleared) ==> !MarkersOwned(v)
  {
    OwnedExactly(v, limit);
    forall h | h in Fees(v) && SlotAt(v, Fees(v)[h]).Erased? ensures Fees(v)[h] in w.cleared { NamedErased(v, h, limit); }
  }

  /** When all of memory is written, that is exact. */
  lemma WrittenOwnersExactly(w: World, v: World, mem: map<string, string>, limit: nat)
    requires Accounted(v, limit) && HistoryOk(v) && Fees(v) == mem && v.cleared == w.cleared
    ensures MarkersOwned(v) <==> NamesNone(w, mem)
  {
    WrittenOwners(w, v, mem, limit);
  }

  // ------------------------------------------------------------------ one operation

  datatype Snapshot = Snapshot(world: World, clock: nat, control: Control, memory: OutflowState, policy: Policy)

  ghost predicate SnapshotOk(s: Snapshot, limit: nat) { Consistent(s.world, s.clock, s.control, s.memory, s.policy, limit) }

  function Markers(s: Snapshot): map<string, string> {
    if s.control.ownership.Certain? then s.memory.fees else s.control.ownership.previousRuntime.state.fees
  }

  ghost function SnapshotOf(m: FaucetOutflowModule): Snapshot
    reads m, m.db
  {
    Snapshot(m.db.View(), m.db.clock, m.Core(), m.state, m.policy)
  }

  /** Memory does not follow the entry. */
  ghost predicate Behind(s: Snapshot) { !Follows(s.memory, s.world.entry, s.policy.upperLimit, s.clock) }

  /** The module takes memory for what the entry holds. */
  predicate Trusted(s: Snapshot) { s.control.ownership.Certain? && s.control.uncertainFee.None? }

  datatype Record = Record(op: Operation, before: Snapshot, ok: bool, attempted: bool, after: Snapshot)

  /** ok tells whether the operation returned normally, attempted whether a fee hook reached its
      compare-and-set. An operation that leaves trusted memory found it behind and neither
      returned from writing nor attempted a fee write: so memory comes to be trusted while behind
      only by a fee hook that fails on the way to its write, after reading an entry with an unknown
      fee in it; and every operation that writes and returns ends that. */
  ghost predicate RecordOk(r: Record, limit: nat) {
    && SnapshotOk(r.before, limit) && SnapshotOk(r.after, limit)
    && (MarkersOwned(r.before.world) ==>
          (MarkersOwned(r.after.world) <==> !PutsBack(r.before.world, r.after.world, Markers(r.before))))
    && (r.before.control.ownership.Certain? && Trusted(r.after) ==>
          (Behind(r.after) <==> Behind(r.before) && !r.attempted && !(r.ok && Writes(r.op))))
    && (r.before.control.ownership.Certain? && Trusted(r.after) && !Trusted(r.before) ==> r.op.FeeHook?)
    && (r.op.FeeHook? && r.before.control.ownership.Certain? ==> HookRecord(r, limit))
  }

  ghost predicate HookRecord(r: Record, limit: nat)
    requires r.op.FeeHook?
  {
    HookTells(r.ok, r.attempted, r.before.world, r.before.control, r.after.control, r.op.session, r.op.claim, r.op.fee, limit)
  }

  /** What RecordOk needs of an operation. */
  ghost predicate Performed(r: Record, limit: nat) {
    && SnapshotOk(r.before, limit) && SnapshotOk(r.after, limit)
    && OperationMoves(r.before.world, r.after.world, Markers(r.before))
    && (r.before.control.ownership.Certain? && Trusted(r.after) ==>
          && (r.after.control.lagging <==>
                && !r.attempted && !(r.ok && Writes(r.op))
                && (r.before.control.lagging
                    || (r.before.control.uncertainFee.Some? && r.before.world.entry != r.before.control.ownership.durable)))
          && (!Trusted(r.before) ==> r.op.FeeHook?))
    && (r.op.FeeHook? && r.before.control.ownership.Certain? ==> HookRecord(r, limit))
  }

  lemma PerformedOk(r: Record, limit: nat)
    requires Performed(r, limit)
    ensures RecordOk(r, limit)
  {
    var b, a := r.before, r.after;
    if MarkersOwned(b.world) { OwnersAfter(b.world, a.world, Markers(b), limit); }
    if b.control.ownership.Certain? && Trusted(a) {
      BehindExactly(b.world, b.clock, b.control, b.memory, b.policy, limit);
      BehindExactly(a.world, a.clock, a.control, a.memory, a.policy, limit);
    }
  }

  /** A fee is unknown, the entry is not the one that ownership names, and a fee hook reads it but
      is stopped before its own write. */
  predicate StartsStale(b: Snapshot, op: Operation) {
    && op.FeeHook? && op.claim.Confirmed? && b.control.ownership.Certain?
    && b.control.uncertainFee.Some? && b.world.entry != b.control.ownership.durable
    && op.fee.entryRead && Stops(b.world, op.session, op.claim, op.fee)
  }

  /** From a state where memory follows the entry that ownership names, memory comes to be trusted
      while behind exactly in this case, which the state and the faults decide before the call. */
  lemma StaleStartsExactly(r: Record, limit: nat)
    requires RecordOk(r, limit) && r.before.control.ownership.Certain? && !r.before.control.lagging
    requires r.op.FeeHook? && r.op.claim.Confirmed? ==> Foreseen(r.before.world, r.op.session, r.op.claim, limit)
    ensures Trusted(r.after) && Behind(r.after) <==> StartsStale(r.before, r.op)
  {
    var b := r.before;
    BehindExactly(b.world, b.clock, b.control, b.memory, b.policy, limit);
  }

  /** When the hook is called for a claiming session whose fee is not accounted for and there is
      room for its marker, only the hook's three reads matter. */
  lemma ClaimingStartsStale(r: Record, limit: nat)
    requires RecordOk(r, limit) && r.before.control.ownership.Certain? && !r.before.control.lagging
    requires r.op.FeeHook? && r.op.claim.Confirmed? && ClaimingWith(r.before.world, r.op.session, r.op.claim)
    requires r.op.claim.tx.txHash !in Fees(r.before.world) && |Fees(r.before.world)| < limit
    ensures Trusted(r.after) && Behind(r.after) <==>
              && r.before.control.uncertainFee.Some? && r.before.world.entry != r.before.control.ownership.durable
              && r.op.fee.entryRead && !(r.op.fee.sessionRead && r.op.fee.pruneReads)
  {
    StaleStartsExactly(r, limit);
  }

  lemma BlindMoves(w: World, v: World, mem: map<string, string>)
    requires MarkersFrom(w, v, mem) && v.cleared == w.cleared
    ensures OperationMoves(w, v, mem)
  {}

  lemma HookMoves(w: World, v: World, mem: map<string, string>, s: string)
    requires MarkedFor(w, v, s) && v.cleared == w.cleared
    ensures OperationMoves(w, v, mem)
  {}

  /** A save drops the markers whose rows it finds finished; those of deleted sessions it keeps. */
  method PerformSave(m: FaucetOutflowModule, op: Operation) returns (ok: bool)
    requires m.Valid() && op.Save?
    modifies m, m.db
    ensures Performed(Record(op, old(SnapshotOf(m)), ok, false, SnapshotOf(m)), m.limit)
    ensures ok && old(m.ownership).Certain? && NamesNone(old(m.db.View()), old(m.state).fees) ==> MarkersOwned(m.db.View())
    ensures ok && old(m.ownership).Certain? && NamesDeleted(old(m.db.View()), old(m.state).fees) ==> !MarkersOwned(m.db.View())
  {
    ghost var w, mem, certain := m.db.View(), m.Memory(), m.ownership.Certain?;
    ok := m.SaveOutflowState(op.reconcileRead, op.save);
    BlindMoves(w, m.db.View(), mem);
    if ok && certain { WrittenOwners(w, m.db.View(), mem, m.limit); }
  }

  method PerformReward(m: FaucetOutflowModule, op: Operation) returns (ok: bool)
    requires m.Valid() && op.Reward?
    modifies m, m.db
    ensures Performed(Record(op, old(SnapshotOf(m)), ok, false, SnapshotOf(m)), m.limit)
    ensures ok && old(m.ownership).Certain? ==> (MarkersOwned(m.db.View()) <==> NamesNone(old(m.db.View()), old(m.state).fees))
  {
    hide Accrue, Debit, MarkersOwned, Accounted, HistoryOk;
    ghost var w, mem, certain := m.db.View(), m.Memory(), m.ownership.Certain?;
    ok := m.UpdateState(op.amount, op.reconcileRead, op.save);
    BlindMoves(w, m.db.View(), mem);
    if ok && certain { WrittenOwnersExactly(w, m.db.View(), mem, m.limit); }
  }

  method PerformReload(m: FaucetOutflowModule, op: Operation) returns (ok: bool)
    requires m.Valid() && op.Reload? && PolicyOk(op.policy)
    modifies m, m.db
    ensures Performed(Record(op, old(SnapshotOf(m)), ok, false, SnapshotOf(m)), m.limit)
    ensures ok && old(m.ownership).Certain? ==> (MarkersOwned(m.db.View()) <==> NamesNone(old(m.db.View()), old(m.state).fees))
  {
    ghost var w, mem, certain := m.db.View(), m.Memory(), m.ownership.Certain?;
    ok := m.OnConfigReload(op.policy, op.reconcileRead, op.save);
    BlindMoves(w, m.db.View(), mem);
    if ok && certain { WrittenOwnersExactly(w, m.db.View(), mem, m.limit); }
  }

  method PerformHook(m: FaucetOutflowModule, op: Operation) returns (ok: bool, ghost attempted: bool)
    requires m.Valid() && op.FeeHook? && op.claim.Confirmed?
    modifies m, m.db
    ensures Performed(Record(op, old(SnapshotOf(m)), ok, attempted, SnapshotOf(m)), m.limit)
  {
    ghost var w, mem := m.db.View(), m.Memory();
    ok, attempted := m.AccountConfirmedNativeClaimFee(op.session, op.claim, op.reconcileRead, op.fee);
    HookMoves(w, m.db.View(), mem, op.session);
  }

  method PerformGuard(m: FaucetOutflowModule, op: Operation) returns (ok: bool)
    requires m.Valid() && op.Guard?
    modifies m, m.db
    ensures Performed(Record(op, old(SnapshotOf(m)), ok, false, SnapshotOf(m)), m.limit)
  {
    ok := false;
    var slot := if op.session in m.db.rows then m.db.rows[op.session] else Absent;
    if !slot.Absent? && slot.row.status == StatusFinished && slot.row.claim.Some? && slot.row.claim.value.Confirmed? {
      ok := m.CanCleanupSession(op.session, slot.row.claim.value, op.reconcileRead, op.readOk);
    }
  }

  /** One operation of a running module. */
  method Perform(m: FaucetOutflowModule, op: Operation) returns (ok: bool, ghost attempted: bool)
    requires m.Valid() && !op.Restart?
    modifies m, m.db
    ensures m.Valid()
    ensures RecordOk(Record(op, old(SnapshotOf(m)), ok, attempted, SnapshotOf(m)), m.limit)
  {
    ghost var before := SnapshotOf(m);
    ok, attempted := false, false;
    match op {
      case Save(_, _) => ok := PerformSave(m, op);
      case Reward(_, _, _) => ok := PerformReward(m, op);
      case Reload(p, _, _) => if PolicyOk(p) { ok := PerformReload(m, op); }
      case FeeHook(_, claim, _, _) => if claim.Confirmed? { ok, attempted := PerformHook(m, op); }
      case Guard(_, _, _) => ok := PerformGuard(m, op);
      case ReadRestriction => var _ := m.GetOutflowRestriction();
    }
    PerformedOk(Record(op, before, ok, attempted, SnapshotOf(m)), m.limit);
  }

  // ------------------------------------------------------------------ whole runs

  ghost predicate AllRecordsOk(log: seq<Record>, limit: nat) { forall i :: 0 <= i < |log| ==> RecordOk(log[i], limit) }

  ghost predicate NonePutsBack(log: seq<Record>) {
    forall i :: 0 <= i < |log| ==> !PutsBack(log[i].before.world, log[i].after.world, Markers(log[i].before))
  }

  lemma NoRecords(limit: nat)
    ensures AllRecordsOk([], limit)
  {}

  lemma AppendRecord(log: seq<Record>, r: Record, limit: nat)
    requires AllRecordsOk(log, limit) && RecordOk(r, limit)
    ensures AllRecordsOk(log + [r], limit)
    ensures NonePutsBack(log + [r]) ==> NonePutsBack(log) && !PutsBack(r.before.world, r.after.world, Markers(r.before))
  {
    hide RecordOk, PutsBack;
    assert (log + [r])[|log|] == r && forall i :: 0 <= i < |log| ==> (log + [r])[i] == log[i];
  }

  /** From accounts that are in order: fees stay accounted for, every operation is as RecordOk
      says, and markers keep their rows as long as no operation puts one back. */
  method RunOperations(db: OutflowDatabase, start: Policy, ethMaxPending: nat, ops: seq<Operation>) returns (ghost log: seq<Record>)
    requires Accounted(db.View(), MarkerLimit(ethMaxPending)) && HistoryOk(db.View()) && PolicyOk(start)
    modifies db
    ensures Accounted(db.View(), MarkerLimit(ethMaxPending)) && HistoryOk(db.View())
    ensures AllRecordsOk(log, MarkerLimit(ethMaxPending))
    ensures old(MarkersOwned(db.View())) && NonePutsBack(log) ==> MarkersOwned(db.View())
  {
    hide RecordOk, PutsBack, AllRecordsOk, NonePutsBack, Accounted, HistoryOk, MarkersOwned;
    NoRecords(MarkerLimit(ethMaxPending));
    var m := new FaucetOutflowModule(db, start, ethMaxPending);
    var running := false;
    log := [];
    for i := 0 to |ops|
      invariant m.db == db && m.limit == MarkerLimit(ethMaxPending) && fresh(m)
      invariant Accounted(db.View(), m.limit) && HistoryOk(db.View())
      invariant running ==> m.Valid()
      invariant AllRecordsOk(log, MarkerLimit(ethMaxPending))
      invariant old(MarkersOwned(db.View())) && NonePutsBack(log) ==> MarkersOwned(db.View())
    {
      if ops[i].Restart? {
        if PolicyOk(ops[i].policy) {
          m := new FaucetOutflowModule(db, ops[i].policy, ethMaxPending);
          running := Start(m, ops[i].readOk, ops[i].save);
        }
      } else if running {
        var r := Next(m, ops[i]);
        AppendRecord(log, r, m.limit);
        log := log + [r];
      }
    }
  }

  method Start(m: FaucetOutflowModule, readOk: bool, f: SaveFaults) returns (running: bool)
    requires Accounted(m.db.View(), m.limit) && HistoryOk(m.db.View()) && PolicyOk(m.policy) && Canonical(m.state)
    requires m.ownership == Certain(None) && m.uncertainFee.None? && !m.lagging && m.lost == {}
    modifies m, m.db
    ensures Accounted(m.db.View(), m.limit) && HistoryOk(m.db.View())
    ensures running ==> m.Valid()
    ensures old(MarkersOwned(m.db.View())) ==> MarkersOwned(m.db.View())
  {
    ghost var w := m.db.View();
    running := m.StartModule(readOk, f);
    if MarkersOwned(w) {
      BlindMoves(w, m.db.View(), map[]);
      OwnersAfter(w, m.db.View(), map[], m.limit);
    }
  }

  /** Other turns, then one operation; the record of it is history. */
  method Next(m: FaucetOutflowModule, op: Operation) returns (ghost r: Record)
    requires m.Valid() && !op.Restart?
    modifies m, m.db
    ensures m.Valid() && RecordOk(r, m.limit) && r.op == op && r.after == SnapshotOf(m)
    ensures old(MarkersOwned(m.db.View())) && !PutsBack(r.before.world, r.after.world, Markers(r.before)) ==> MarkersOwned(m.db.View())
  {
    ghost var w := m.db.View();
    m.Idle();
    EnvironmentKeepsAccounts(w, m.db.View(), m.limit);
    ghost var before := SnapshotOf(m);
    ghost var attempted;
    var ok;
    ok, attempted := Perform(m, op);
    r := Record(op, before, ok, attempted, SnapshotOf(m));
  }
}
