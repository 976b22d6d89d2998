/** The state operations of src/modules/dynamic-outflow/DynamicOutflowModule.ts as methods over
    its mutable fields. State operations run one after another (runStateOperation); readers of
    the restriction may run in every await. Each operation takes its database outcomes. */
module DynamicOutflow {
  import opened Wrappers
  import opened DynamicBudget

  datatype Runtime = Runtime(state: Budget, rate: Option<nat>, rateTime: nat)

  datatype WriteOwnership =
    | Certain(durable: Option<Budget>)
    | Uncertain(previous: Option<Budget>, next: Budget, previousRuntime: Runtime, nextRuntime: Runtime)

  /** Durations in seconds, as validateDynamicOutflowConfig admits them. */
  datatype Config = Config(drainTime: nat, refreshInterval: nat, burst: nat, cutoff: nat)

  predicate ConfigOk(c: Config) { c.drainTime > 0 && c.refreshInterval > 0 && c.burst > 0 && c.cutoff > 0 }

  /** Outcomes of one state operation: the read that resolves an uncertain write, the write, the
      read after a failed write. */
  datatype Faults = Faults(resolve: bool, write: Fault, recheck: bool)

  function Debited(b: Option<Budget>): nat { if b.Some? then b.value.debited else 0 }

  /** serializeState keeps the budget and the time only, so this is all a comparison can see. */
  predicate SameJson(a: Option<Budget>, b: Option<Budget>) {
    && a.Some? == b.Some?
    && (a.Some? ==> a.value.budget == b.value.budget && a.value.updateTime == b.value.updateTime)
  }

  /** m is d with amount debited, after whatever accrual and clamping. */
  predicate Ahead(d: Option<Budget>, m: Budget, amount: nat) {
    && m.debited == Debited(d) + amount
    && (d.Some? ==> d.value.updateTime <= m.updateTime
                    && (d.value.updateTime == m.updateTime ==> m.budget + amount <= d.value.budget))
  }

  predicate RuntimeOk(r: Runtime, peak: nat, clock: nat) {
    BudgetOk(r.state, peak) && r.state.updateTime <= clock && (r.rate.Some? ==> r.rate.value <= peak)
  }

  predicate Stores(entry: Option<Budget>, d: Option<Budget>) { SameJson(entry, d) && Debited(entry) == Debited(d) }

  /** What is known of the entry, and what memory becomes once more is known. */
  predicate OwnershipOk(o: WriteOwnership, entry: Option<Budget>, m: Budget, acked: nat, asked: nat, peak: nat, clock: nat) {
    match o
    case Certain(d) => Stores(entry, d) && Ahead(d, m, 0)
    case Uncertain(p, n, pr, nr) =>
      && (Stores(entry, p) || entry == Some(n))
      && acked <= Debited(p) <= n.debited <= asked
      && RuntimeOk(pr, peak, clock) && Ahead(p, pr.state, 0)
      && RuntimeOk(nr, peak, clock) && nr.state == n && Ahead(p, n, n.debited - Debited(p))
  }

  lemma AccrueAhead(d: Option<Budget>, m: Budget, amount: nat, rate: Option<nat>, now: nat, burst: nat)
    requires Ahead(d, m, amount)
    ensures Ahead(d, Accrue(m, rate, now, burst), amount)
  {}

  lemma PeakRises(b: Budget, low: nat, high: nat)
    requires BudgetOk(b, low) && low <= high
    ensures BudgetOk(b, high)
  {
    MulLe(low, high, b.updateTime - b.since);
  }

  /** Both halves of an unresolved write look different unless they debited the same. */
  lemma JsonTellsDebits(p: Option<Budget>, n: Budget)
    requires Debited(p) <= n.debited && Ahead(p, n, n.debited - Debited(p)) && SameJson(p, Some(n))
    ensures Debited(p) == n.debited
  {}

  /** The KeyValueStore entry and the clock; they outlive every restart. acked and asked add up
      the rewards acknowledged and announced, peak is the highest rate that was in force. */
  class StateStore {
    var entry: Option<Budget>
    var clock: nat
    ghost var acked: nat
    ghost var asked: nat
    ghost var peak: nat

    constructor (clock: nat)
      ensures entry.None? && this.clock == clock && acked == 0 && asked == 0 && peak == 0 && Valid()
    {
      entry, this.clock, acked, asked, peak := None, clock, 0, 0, 0;
    }

    ghost predicate Valid()
      reads this
    {
      && acked <= Debited(entry) <= asked
      && (entry.Some? ==> BudgetOk(entry.value, peak) && entry.value.updateTime <= clock)
    }

    method Tick()
      modifies this`clock
      ensures clock >= old(clock)
    {
      var later: nat := *;
      if later > clock { clock := later; }
    }

    method SetEntry(n: Budget, f: Fault) returns (acknowledged: bool)
      modifies this`entry
      ensures entry == (if f == NoEffect then old(entry) else Some(n))
      ensures acknowledged == (f == Ack)
    {
      if f != NoEffect { entry := Some(n); }
      acknowledged := f == Ack;
    }
  }

  class DynamicOutflowModule {
    const db: StateStore
    var config: Config
    var loaded: bool
    var state: Budget
    var rate: Option<nat>
    var rateTime: nat
    var ownership: WriteOwnership

    constructor (db: StateStore, config: Config)
      requires db.Valid() && ConfigOk(config)
      ensures Valid() && this.db == db && !loaded && this.config == config
    {
      this.db, this.config, loaded, state := db, config, false, Fresh(0);
      rate, rateTime, ownership := None, 0, Certain(None);
    }

    function Snapshot(): Runtime
      reads this
    {
      Runtime(state, rate, rateTime)
    }

    ghost predicate Valid()
      reads this, db
    {
      && db.Valid() && ConfigOk(config)
      && (if loaded then MemoryOk() && OwnershipOk(ownership, db.entry, state, db.acked, db.asked, db.peak, db.clock)
          else ownership == Certain(None) && rate.None?)
    }

    ghost predicate MemoryOk()
      reads this, db
    {
      RuntimeOk(Snapshot(), db.peak, db.clock)
    }

    method SetRuntimeSnapshot(r: Runtime)
      modifies this`state, this`rate, this`rateTime
      ensures Snapshot() == r
    {
      state, rate, rateTime := r.state, r.rate, r.rateTime;
    }

    method UpdateOutflowBudget()
      modifies this`state
      ensures state == if ownership.Uncertain? then old(state) else Accrue(old(state), rate, db.clock, config.burst)
    {
      if ownership.Uncertain? { return; }
      var timeDiff := db.clock - state.updateTime;
      if timeDiff <= 0 { return; }
      state := state.(updateTime := db.clock);
      if rate.None? { return; }
      state := state.(budget := state.budget + rate.value * timeDiff, credited := state.credited + rate.value * timeDiff);
      var upperLimit := rate.value * config.burst;
      if state.budget > upperLimit {
        state := state.(budget := upperLimit, forfeited := state.forfeited + (state.budget - upperLimit));
      }
    }

    predicate IsRateStale()
      reads this, db
    {
      db.clock - rateTime > config.refreshInterval * 2 + 30
    }

    /** getOutflowRestriction, in ten-thousandths: it fails closed while a write is unresolved,
        before the first rate, when the rate is stale and when nothing is left to pay out. */
    method GetOutflowRestriction() returns (bp: int)
      requires Valid() && loaded
      modifies this`state
      ensures Valid() && 0 <= bp <= 10000
      ensures ownership.Uncertain? || rate.None? || IsRateStale() ==> bp == 0
      ensures ownership.Uncertain? ==> state == old(state)
      ensures ownership.Certain? ==> state == Accrue(old(state), rate, db.clock, config.burst)
      ensures ownership.Certain? && rate.Some? && !IsRateStale() ==> bp == RestrictionOf(state.budget, rate.value, config.cutoff)
    {
      if ownership.Uncertain? { return 0; }
      AccrueKeeps(state, rate, db.clock, config.burst, db.peak);
      AccrueAhead(ownership.durable, state, 0, rate, db.clock, config.burst);
      UpdateOutflowBudget();
      if rate.None? { return 0; }
      if rate.value > 0 { RestrictionIsOne(state.budget, rate.value, config.cutoff); }
      if IsRateStale() { return 0; }
      if rate.value == 0 { return 0; }
      if state.budget >= 0 { return 10000; }
      var cutoffBudget := rate.value * config.cutoff;
      var overdraft := state.budget * -1;
      if overdraft >= cutoffBudget { return 0; }
      bp := 10000 - 10000 * overdraft / cutoffBudget;
    }

    /** An await: time passes, and readers may bring the budget up to date. */
    method Await() returns (ghost read: Option<nat>)
      modifies this`state, db`clock
      ensures db.clock >= old(db.clock)
      ensures read.Some? ==> ownership.Certain? && old(db.clock) <= read.value <= db.clock
      ensures state == if read.Some? then Accrue(old(state), rate, read.value, config.burst) else old(state)
    {
      db.Tick();
      read := None;
      var readerRuns: bool := *;
      if ownership.Certain? && readerRuns {
        UpdateOutflowBudget();
        read := Some(db.clock);
      }
      db.Tick();
    }

    /** reconcileWriteOwnership. The stored entry always is one of the two candidates, so a read
        that succeeds resolves the write. */
    method ReconcileWriteOwnership(readOk: bool) returns (ok: bool)
      requires Valid() && loaded
      modifies this`state, this`rate, this`rateTime, this`ownership, db`clock
      ensures Valid() && db.clock >= old(db.clock)
      ensures ok <==> ownership.Certain?
      ensures ok <==> (old(ownership).Certain? || readOk)
      ensures old(ownership).Certain? ==> Snapshot() == old(Snapshot()) && ownership == old(ownership) && db.clock == old(db.clock)
      ensures old(ownership).Uncertain? && ok ==>
                Snapshot() == if SameJson(db.entry, Some(old(ownership).next)) then old(ownership).nextRuntime
                              else old(ownership).previousRuntime
    {
      if ownership.Certain? { return true; }
      ghost var idle := Await();
      if !readOk { return false; }
      var observed := db.entry;
      if SameJson(observed, Some(ownership.next)) {
        if observed != Some(ownership.next) { JsonTellsDebits(ownership.previous, ownership.next); }
        SetRuntimeSnapshot(ownership.nextRuntime);
        ownership := Certain(Some(ownership.next));
        return true;
      }
      if SameJson(observed, ownership.previous) {
        SetRuntimeSnapshot(ownership.previousRuntime);
        ownership := Certain(ownership.previous);
        return true;
      }
      return false;
    }

    /** loadOutflowState: a stored debt is taken over, a stored surplus is not. */
    method LoadOutflowState(readOk: bool) returns (ok: bool)
      requires Valid() && !loaded
      modifies this`state, this`ownership, this`loaded, db`clock
      ensures Valid() && ok == loaded == readOk && db.clock >= old(db.clock)
      ensures ok ==> state.budget <= 0 && state.debited == Debited(db.entry)
      ensures ok && db.entry.Some? ==>
                state.budget <= db.entry.value.budget && state.budget == (if db.entry.value.budget > 0 then 0 else db.entry.value.budget)
    {
      db.Tick();
      if !readOk { return false; }
      var stored := db.entry;
      ownership := Certain(stored);
      RestoreKeeps(stored, db.clock, db.peak);
      if stored.Some? {
        var d := stored.value;
        var cut := if d.budget > 0 then d.budget else 0;
        state := d.(budget := if d.budget > 0 then 0 else d.budget, forfeited := d.forfeited + cut, updateTime := db.clock);
      } else {
        state := Fresh(db.clock);
      }
      loaded, ok := true, true;
    }

    /** Memory before a write: previous is what it falls back to, and amount has been debited
        since the entry was stored. */
    ghost predicate Ready(previous: Runtime, amount: nat)
      reads this, db
    {
      && loaded && db.Valid() && ConfigOk(config) && MemoryOk() && ownership.Certain?
      && Stores(db.entry, ownership.durable)
      && RuntimeOk(previous, db.peak, db.clock) && Ahead(ownership.durable, previous.state, 0)
      && Ahead(ownership.durable, state, amount) && Debited(ownership.durable) + amount <= db.asked
    }

    /** An await does not disturb this. */
    method AwaitReady(previous: Runtime, amount: nat)
      requires Ready(previous, amount)
      modifies this`state, db`clock
      ensures Ready(previous, amount) && db.clock >= old(db.clock)
    {
      ghost var m := state;
      ghost var read := Await();
      if read.Some? {
        AccrueKeeps(m, rate, read.value, config.burst, db.peak);
        AccrueAhead(ownership.durable, m, amount, rate, read.value, config.burst);
      }
    }

    /** The awaited setKeyValueEntry: readers may run before and after it takes effect. */
    method AwaitWrite(previous: Runtime, amount: nat, f: Fault) returns (acknowledged: bool, next: Runtime)
      requires Ready(previous, amount)
      modifies this`state, db`entry, db`clock
      ensures acknowledged == (f == Ack) && next == old(Snapshot()) && db.clock >= old(db.clock)
      ensures db.entry == if f == NoEffect then old(db.entry) else Some(next.state)
      ensures MemoryOk() && db.Valid() && Ahead(Some(next.state), state, 0)
    {
      next := Snapshot();
      ghost var read := Await();
      if read.Some? {
        AccrueKeeps(next.state, rate, read.value, config.burst, db.peak);
        AccrueAhead(Some(next.state), next.state, 0, rate, read.value, config.burst);
      }
      acknowledged := db.SetEntry(next.state, f);
      ghost var m := state;
      read := Await();
      if read.Some? {
        AccrueKeeps(m, rate, read.value, config.burst, db.peak);
        AccrueAhead(Some(next.state), m, 0, rate, read.value, config.burst);
      }
    }

    /** persistOutflowState, once ownership is certain: the callers have reconciled it and no
        other state operation runs in between. */
    method PersistOutflowState(previous: Runtime, amount: nat, f: Faults) returns (ok: bool)
      requires Ready(previous, amount)
      modifies this`state, this`rate, this`rateTime, this`ownership, db`entry, db`clock
      ensures Valid() && loaded && db.clock >= old(db.clock)
      ensures ok ==> ownership.Certain? && Debited(db.entry) == old(Debited(db.entry)) + amount
                     && rate == old(rate) && rateTime == old(rateTime)
      ensures !ok && ownership.Certain? ==> db.entry == old(db.entry) && Snapshot() == previous
      ensures !ok && ownership.Uncertain? ==>
                !f.recheck && Debited(db.entry) in {old(Debited(db.entry)), old(Debited(db.entry)) + amount}
      ensures f.write == Ack ==> ok
    {
      var before := ownership.durable;
      var acknowledged, next := AwaitWrite(previous, amount, f.write);
      if acknowledged {
        ownership := Certain(Some(next.state));
        return true;
      }
      ownership := Uncertain(before, next.state, previous, next);
      ok := CheckFailedWrite(f.recheck);
    }

    /** The read after a failed write: a write found in the store has succeeded. */
    method CheckFailedWrite(readOk: bool) returns (ok: bool)
      requires Valid() && loaded && ownership.Uncertain?
      modifies this`state, this`rate, this`rateTime, this`ownership, db`clock
      ensures Valid() && db.clock >= old(db.clock)
      ensures readOk <==> ownership.Certain?
      ensures ok <==> readOk && SameJson(db.entry, Some(old(ownership).next))
      ensures ok ==> Snapshot() == old(ownership).nextRuntime && Debited(db.entry) == old(ownership).next.debited
      ensures readOk && !ok ==> Snapshot() == old(ownership).previousRuntime && Debited(db.entry) == Debited(old(ownership).previous)
    {
      ghost var idle := Await();
      if !readOk { return false; }
      var observed := db.entry;
      if SameJson(observed, Some(ownership.next)) {
        if observed != Some(ownership.next) { JsonTellsDebits(ownership.previous, ownership.next); }
        SetRuntimeSnapshot(ownership.nextRuntime);
        ownership := Certain(Some(ownership.next));
        return true;
      }
      if SameJson(observed, ownership.previous) {
        SetRuntimeSnapshot(ownership.previousRuntime);
        ownership := Certain(ownership.previous);
      }
      return false;
    }

    /** saveOutflowState. */
    method SaveOutflowState(f: Faults) returns (ok: bool)
      requires Valid()
      modifies this`state, this`rate, this`rateTime, this`ownership, db`entry, db`clock
      ensures Valid() && loaded == old(loaded) && db.clock >= old(db.clock)
      ensures Debited(db.entry) == old(Debited(db.entry))
      ensures ok && loaded ==> ownership.Certain? && Debited(db.entry) == state.debited
    {
      if !loaded { return true; }
      var certain := ReconcileWriteOwnership(f.resolve);
      if !certain { return false; }
      var previous := Snapshot();
      ok := PersistOutflowState(previous, 0, f);
    }

    /** The budget brought up to date and amount, possibly nothing, taken out of it. */
    method DebitBudget(amount: nat)
      requires Valid() && loaded && ownership.Certain? && Debited(ownership.durable) + amount <= db.asked
      modifies this`state
      ensures Ready(old(Snapshot()), amount)
    {
      AccrueKeeps(state, rate, db.clock, config.burst, db.peak);
      AccrueAhead(ownership.durable, state, 0, rate, db.clock, config.burst);
      UpdateOutflowBudget();
      DebitKeeps(state, amount, db.peak);
      state := state.(budget := state.budget - amount, debited := state.debited + amount);
    }

    /** processSessionRewarded: it succeeds only if the debit is stored; if it fails and the write
        is resolved, nothing was debited. */
    method ProcessSessionRewarded(amount: int, f: Faults) returns (ok: bool)
      requires Valid() && loaded
      modifies this`state, this`rate, this`rateTime, this`ownership, db`entry, db`clock, db`acked, db`asked
      ensures Valid() && loaded && db.clock >= old(db.clock)
      ensures var due := if amount > 0 then amount else 0;
              && db.asked == old(db.asked) + due
              && db.acked == old(db.acked) + (if ok then due else 0)
              && (ok ==> Debited(db.entry) == old(Debited(db.entry)) + due)
              && (!ok && ownership.Certain? ==> Debited(db.entry) == old(Debited(db.entry)))
              && (!ok ==> Debited(db.entry) in {old(Debited(db.entry)), old(Debited(db.entry)) + due})
    {
      if amount <= 0 { return true; }
      var certain := ReconcileWriteOwnership(f.resolve);
      db.asked := db.asked + amount;
      if !certain { return false; }
      var previous := Snapshot();
      DebitBudget(amount);
      ok := PersistOutflowState(previous, amount, f);
      if ok {
        db.acked := db.acked + amount;
      } else if ownership.Certain? {
        SetRuntimeSnapshot(previous);
      }
    }

    /** computeOutflowRate. The rate drains no more than the unencumbered balance over the target
        time; a failed refresh leaves the old rate in force. */
    method ComputeOutflowRate(balance: Option<nat>, unclaimed: Option<int>, queued: int, spare: int, f: Faults) returns (ok: bool)
      requires Valid() && loaded
      modifies this`state, this`rate, this`rateTime, this`ownership, db`entry, db`clock, db`peak
      ensures Valid() && loaded && db.clock >= old(db.clock) && db.peak >= old(db.peak)
      ensures Debited(db.entry) == old(Debited(db.entry))
      ensures ok && balance.Some? ==>
                && unclaimed.Some? && ownership.Certain? && rate.Some? && old(db.clock) <= rateTime <= db.clock
                && DrainsIn(rate.value, balance.value - unclaimed.value - queued - spare, config.drainTime)
      ensures db.peak == old(db.peak)
              || (balance.Some? && unclaimed.Some?
                  && DrainsIn(db.peak, balance.value - unclaimed.value - queued - spare, config.drainTime))
      ensures !ok && old(ownership).Certain? && ownership.Certain? ==> Snapshot() == old(Snapshot()) && db.entry == old(db.entry)
    {
      var certain := ReconcileWriteOwnership(f.resolve);
      if !certain { return false; }
      if balance.None? { return true; }
      ok := RefreshRate(balance.value, unclaimed, queued, spare, f);
    }

    /** Accrual at the old rate, then the new rate from the unencumbered balance, which takes
        another awaited read. */
    method AdoptRate(balance: nat, unclaimed: Option<int>, queued: int, spare: int) returns (ok: bool)
      requires Valid() && loaded && ownership.Certain?
      modifies this`state, this`rate, this`rateTime, db`clock, db`peak
      ensures db.clock >= old(db.clock) && db.peak >= old(db.peak) && ok == unclaimed.Some?
      ensures ok ==>
                && Ready(old(Snapshot()), 0) && rate.Some? && old(db.clock) <= rateTime <= db.clock
                && DrainsIn(rate.value, balance - unclaimed.value - queued - spare, config.drainTime)
      ensures db.peak == old(db.peak) || (rate.Some? && ok && db.peak == rate.value)
      ensures !ok ==> Valid() && Snapshot() == old(Snapshot())
    {
      var previous := Snapshot();
      DebitBudget(0);
      AwaitReady(previous, 0);
      if unclaimed.None? {
        SetRuntimeSnapshot(previous);
        return false;
      }
      var effectiveBalance := balance - unclaimed.value - queued - spare;
      if effectiveBalance < 0 { effectiveBalance := 0; }
      InstallRate(effectiveBalance / config.drainTime, previous);
      DivisionBounds(effectiveBalance, config.drainTime);
      ok := true;
    }

    /** The refresh once ownership is certain and the balance is known. */
    method RefreshRate(balance: nat, unclaimed: Option<int>, queued: int, spare: int, f: Faults) returns (ok: bool)
      requires Valid() && loaded && ownership.Certain?
      modifies this`state, this`rate, this`rateTime, this`ownership, db`entry, db`clock, db`peak
      ensures Valid() && loaded && db.clock >= old(db.clock) && db.peak >= old(db.peak)
      ensures Debited(db.entry) == old(Debited(db.entry))
      ensures ok ==>
                && unclaimed.Some? && ownership.Certain? && rate.Some? && old(db.clock) <= rateTime <= db.clock
                && DrainsIn(rate.value, balance - unclaimed.value - queued - spare, config.drainTime)
      ensures db.peak == old(db.peak)
              || (unclaimed.Some? && DrainsIn(db.peak, balance - unclaimed.value - queued - spare, config.drainTime))
      ensures !ok && ownership.Certain? ==> Snapshot() == old(Snapshot()) && db.entry == old(db.entry)
    {
      var previous := Snapshot();
      ok := AdoptRate(balance, unclaimed, queued, spare);
      if !ok { return; }
      ok := PersistOutflowState(previous, 0, f);
      if !ok && ownership.Certain? { SetRuntimeSnapshot(previous); }
    }

    method InstallRate(computed: nat, previous: Runtime)
      requires Ready(previous, 0)
      modifies this`rate, this`rateTime, db`peak
      ensures Ready(previous, 0) && rate == Some(computed) && rateTime == db.clock
      ensures db.peak == if computed > old(db.peak) then computed else old(db.peak)
    {
      rate := Some(computed);
      rateTime := db.clock;
      if computed > db.peak {
        PeakRises(state, db.peak, computed);
        PeakRises(previous.state, db.peak, computed);
        if db.entry.Some? { PeakRises(db.entry.value, db.peak, computed); }
        db.peak := computed;
      }
    }

    /** onConfigReload, up to the refresh it triggers. */
    method InstallConfig(c: Config)
      requires Valid()
      modifies this`config
      ensures Valid() && config == if ConfigOk(c) then c else old(config)
    {
      if ConfigOk(c) { config := c; }
    }
  }

  /** At this rate what is free is drained in drainTime, and at no higher rate. */
  predicate DrainsIn(rate: nat, free: int, drainTime: nat) {
    if free < 0 then rate == 0 else rate * drainTime <= free < (rate + 1) * drainTime
  }

  lemma DivisionBounds(a: nat, b: nat)
    requires b > 0
    ensures a / b * b <= a < (a / b + 1) * b
  {}

  // ------------------------------------------------------------------ whole runs

  datatype Operation =
    | Reward(amount: int, faults: Faults)
    | Refresh(balance: Option<nat>, unclaimed: Option<int>, queued: int, spare: int, faults: Faults)
    | Save(faults: Faults)
    | Read
    | Reload(config: Config)
    | Restart(config: Config, readOk: bool)

  /** The rewards of a run that were acknowledged. */
  function AcknowledgedSum(ops: seq<Operation>, answers: seq<bool>): nat
    requires |ops| == |answers|
  {
    if ops == [] then 0
    else
      var last := |ops| - 1;
      AcknowledgedSum(ops[..last], answers[..last])
      + if answers[last] && ops[last].Reward? && ops[last].amount > 0 then ops[last].amount else 0
  }

  /** No refresh sees more than cap seconds' worth of free balance, for any configured drain time. */
  predicate Within(op: Operation, cap: nat, minDrain: nat) {
    match op
    case Refresh(balance, unclaimed, queued, spare, _) =>
      balance.Some? && unclaimed.Some? ==> balance.value - unclaimed.value - queued - spare <= cap * minDrain
    case Reload(c) => c.drainTime >= minDrain
    case Restart(c, _) => c.drainTime >= minDrain
    case _ => true
  }

  lemma DrainCap(rate: nat, free: int, drainTime: nat, cap: nat, minDrain: nat)
    requires DrainsIn(rate, free, drainTime) && free <= cap * minDrain && 0 < minDrain <= drainTime
    ensures rate <= cap
  {
    if rate > cap {
      MulLe(minDrain, drainTime, rate);
      MulLe(cap + 1, rate, minDrain);
    }
  }

  /** One operation. A crash inside an operation is a failed write, committed or not, whose check
      fails too, followed by a restart. */
  method Perform(db: StateStore, m: DynamicOutflowModule, op: Operation, ghost cap: nat, ghost minDrain: nat)
      returns (current: DynamicOutflowModule, ok: bool)
    requires m.Valid() && m.db == db && Within(op, cap, minDrain) && 0 < minDrain <= m.config.drainTime && db.peak <= cap
    modifies m, db
    ensures current.Valid() && current.db == db && (current == m || fresh(current)) && db.clock >= old(db.clock)
    ensures db.acked == old(db.acked) + (if ok && op.Reward? && op.amount > 0 then op.amount else 0)
    ensures minDrain <= current.config.drainTime && db.peak <= cap
  {
    current, ok := m, false;
    match op
    case Reward(amount, f) => if m.loaded { ok := m.ProcessSessionRewarded(amount, f); }
    case Refresh(balance, unclaimed, queued, spare, f) =>
      if m.loaded {
        ghost var before := db.peak;
        ok := m.ComputeOutflowRate(balance, unclaimed, queued, spare, f);
        if db.peak != before {
          DrainCap(db.peak, balance.value - unclaimed.value - queued - spare, m.config.drainTime, cap, minDrain);
        }
      }
    case Save(f) => ok := m.SaveOutflowState(f);
    case Read => if m.loaded { var bp := m.GetOutflowRestriction(); }
    case Reload(c) => m.InstallConfig(c);
    case Restart(c, readOk) =>
      if ConfigOk(c) {
        current := new DynamicOutflowModule(db, c);
        ok := current.LoadOutflowState(readOk);
      }
  }

  /** No run of operations, failed writes, crashes and restarts loses an acknowledged reward, and
      none creates budget: what is stored, plus every acknowledged reward, never exceeds what
      accrues at the highest rate the balances allow. */
  method RunOperations(config: Config, start: nat, ops: seq<Operation>, ghost cap: nat, ghost minDrain: nat)
      returns (db: StateStore, answers: seq<bool>)
    requires ConfigOk(config) && 0 < minDrain <= config.drainTime
    requires forall i :: 0 <= i < |ops| ==> Within(ops[i], cap, minDrain)
    ensures |answers| == |ops|
    ensures AcknowledgedSum(ops, answers) <= Debited(db.entry)
    ensures db.entry.Some? ==>
              && db.entry.value.since <= db.entry.value.updateTime <= db.clock
              && db.entry.value.budget + AcknowledgedSum(ops, answers) <= cap * (db.entry.value.updateTime - db.entry.value.since)
  {
    db := new StateStore(start);
    var m := new DynamicOutflowModule(db, config);
    answers := [];
    for i := 0 to |ops|
      invariant m.Valid() && m.db == db && fresh(m) && fresh(db)
      invariant minDrain <= m.config.drainTime && db.peak <= cap
      invariant |answers| == i
      invariant db.acked == AcknowledgedSum(ops[..i], answers)
    {
      var ok: bool;
      ghost var before := answers;
      m, ok := Perform(db, m, ops[i], cap, minDrain);
      answers := answers + [ok];
      assert ops[..i + 1][..i] == ops[..i] && answers[..i] == before;
    }
    assert ops[..|ops|] == ops;
    if db.entry.Some? { PeakRises(db.entry.value, db.peak, cap); }
  }
}
