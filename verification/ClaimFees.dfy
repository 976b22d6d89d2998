/** The claim protocol of one session beside the fee accounts: the claim hooks of ClaimSession are
    the ones whose return FeeAccounting records, and every event of a claim moves its row as the
    fee accounts allow. */
module ClaimFees {
  import opened Wrappers
  import opened ClaimData
  import opened ClaimSession
  import opened ClaimServing
  import L = OutflowLedger
  import F = FeeAccounting

  /** The session with this id has the row that the accounts see, and its hooks have returned
      only if the fee hook has. */
  ghost predicate Joined(w: F.World, a: Session, id: string, limit: nat) {
    && Inv(a) && F.Accounted(w, limit) && F.HistoryOk(w)
    && F.SlotAt(w, id) == a.slot && (a.hooked ==> id in w.hooked)
  }

  /** processActionHooks returns only after every hook, the fee hook among them, and clean-up
      deletes a finished row only after the guard. */
  predicate FeeOrder(w: F.World, a: Session, e: Event, id: string) {
    && Allowed(e)
    && (e == HooksEnd(true) && a.completion == HooksRunning ==> id in w.hooked)
    && (e.Cleanup? && e.candidate.status == StatusFinished ==> id in w.cleared)
  }

  lemma HookedBy(a: Session, e: Event)
    ensures Apply(a, e).hooked ==> a.hooked || (e == HooksEnd(true) && a.completion == HooksRunning)
  {
    hide ApplyResume, InsertRunning, TransitionSession, TryTimeout, CleanupCandidate, FinalizeConfirmedClaim, ReadSlot, CasEffect;
    if e.Resume? { ResumeKeepsHooked(a, e.task); }
  }

  lemma ResumeKeepsHooked(a: Session, task: Task)
    ensures Apply(a, Resume(task)).hooked == a.hooked
  {
    hide ResumeTransition, Learn;
    if task.QueueT? && a.queue.QueueWriting? { LearnKeepsHooked(a, ResumeTransition(a.queue.qt)); }
    if task.BroadcastT? && a.broadcast.BroadcastMark? { LearnKeepsHooked(a, ResumeTransition(a.broadcast.bt)); }
    if task.ReceiptT? && a.receipt.Settling? { LearnKeepsHooked(a, ResumeTransition(a.receipt.rt)); }
  }

  lemma LearnKeepsHooked(a: Session, r: Resumed)
    ensures Learn(a, r).hooked == a.hooked
  {}

  lemma DeletedBy(a: Session, e: Event)
    requires Apply(a, e).slot.Erased? && !a.slot.Erased?
    ensures e.Cleanup? && Apply(a, e).slot.row.status == e.candidate.status
  {
    if e.Cas? { CasKeepsLive(a, e.task, e.fault); }
    else if !e.FinalCas? && !e.Restart? && !UnclaimedEvent(e) && !e.Cleanup? && !e.CreateWrite? { RowUntouched(a, e); }
    else { hide ApplyCas, ApplyRead, ApplyResume; }
  }

  lemma CasKeepsLive(a: Session, task: Task, f: Fault)
    requires Apply(a, Cas(task, f)).slot.Erased?
    ensures a.slot.Erased?
  {}

  /** Every event of the claim is a move that the fee accounts allow, and stays joined. */
  lemma EventIsMove(w: F.World, a: Session, e: Event, id: string, limit: nat)
    requires Joined(w, a, id, limit) && FeeOrder(w, a, e, id)
    ensures var b, v := Apply(a, e), w.(rows := w.rows[id := Apply(a, e).slot]);
            F.EnvironmentMove(w, v) && Joined(v, b, id, limit)
  {
    var b, v := Apply(a, e), w.(rows := w.rows[id := Apply(a, e).slot]);
    StepInv(a, e);
    HookedBy(a, e);
    if b.slot.Erased? && !a.slot.Erased? { DeletedBy(a, e); }
    hide Apply;
    EventRow(w, a, b, id, limit);
    forall s: string ensures F.RowMove(w, F.SlotAt(w, s), F.SlotAt(v, s), s) {
      if s != id { OtherRow(w, s, limit); }
    }
    F.EnvironmentKeepsAccounts(w, v, limit);
  }

  lemma OtherRow(w: F.World, s: string, limit: nat)
    requires F.Accounted(w, limit)
    ensures F.RowMove(w, F.SlotAt(w, s), F.SlotAt(w, s), s)
  {
    assert F.SessionAccounted(w, s);
  }

  lemma EventRow(w: F.World, a: Session, b: Session, id: string, limit: nat)
    requires Joined(w, a, id, limit) && Inv(b) && SlotLeq(a.slot, b.slot) && (b.hooked ==> id in w.hooked)
    requires b.slot.Erased? && !a.slot.Erased? && b.slot.row.status == StatusFinished ==> id in w.cleared
    ensures F.RowMove(w, a.slot, b.slot, id)
  {}

  /** The two halves of exactly-once: a finished claim has sent one transaction at most, the one
      its row holds, and its fee has been debited once; while the claim is not finished its fee is
      debited exactly if its marker is in the entry. */
  lemma FinishedOnceEach(w: F.World, a: Session, id: string, limit: nat)
    requires Joined(w, a, id, limit)
    ensures F.FinishedSlot(a.slot) ==>
              F.Paid(w, id) == 1 && a.slot.HasClaim() && a.slot.Claimed().Confirmed? && a.sent <= {a.slot.Claimed().tx}
    ensures !F.FinishedSlot(a.slot) ==> F.Paid(w, id) == if F.Marked(w, id) then 1 else 0
  {
    assert F.SessionAccounted(w, id);
    assert a.slot.HasClaim() && a.slot.Claimed().Signed() ==> a.prepared == Some(a.slot.Claimed().tx);
  }

  // ------------------------------------------------------------------ whole runs

  /** What happens to one session and to the fee accounts: an event of its claim, a move of another
      session's row, the fee write and the blind writes of FaucetOutflowModule, a fee hook that
      returns, and a consent of the clean-up guard. */
  datatype Move =
    | Claim(event: Event)
    | Row(other: string, slot: Slot)
    | FeeWrite(pruned: map<string, string>, txHash: string, payer: string, fee: nat, now: nat, upper: int)
    | BlindWrite(next: L.OutflowState, lost: set<string>)
    | HookReturns(hooked: string)
    | GuardClears(cleared: string)

  datatype Joint = Joint(world: F.World, session: Session)

  ghost predicate Enabled(j: Joint, m: Move, id: string, limit: nat) {
    var w := j.world;
    match m
    case Claim(e) => FeeOrder(w, j.session, e, id)
    case Row(s, slot) => s != id && F.RowMove(w, F.SlotAt(w, s), slot, s)
    case FeeWrite(pruned, h, s, _, _, _) => F.FeeReady(w, pruned, h, s, limit) && L.Canonical(w.entry.value)
    case BlindWrite(n, lost) => F.Books(w, n, lost, limit) && L.Canonical(n)
    case HookReturns(s) => F.Marked(w, s) || F.FinishedSlot(F.SlotAt(w, s))
    case GuardClears(s) => F.FinishedSlot(F.SlotAt(w, s)) && !F.Marked(w, s)
  }

  ghost function Do(j: Joint, m: Move, id: string, limit: nat): Joint
    requires Enabled(j, m, id, limit)
  {
    var w := j.world;
    match m
    case Claim(e) => Joint(w.(rows := w.rows[id := Apply(j.session, e).slot]), Apply(j.session, e))
    case Row(s, slot) => j.(world := w.(rows := w.rows[s := slot]))
    case FeeWrite(pruned, h, s, fee, now, upper) =>
      j.(world := w.(entry := Some(L.FeeNext(w.entry.value, pruned, h, s, fee, now, upper))))
    case BlindWrite(n, _) => j.(world := w.(entry := Some(n)))
    case HookReturns(s) => j.(world := w.(hooked := w.hooked + {s}))
    case GuardClears(s) => j.(world := w.(cleared := w.cleared + {s}))
  }

  lemma RowKeepsJoined(w: F.World, a: Session, s: string, slot: Slot, id: string, limit: nat)
    requires Joined(w, a, id, limit) && s != id && F.RowMove(w, F.SlotAt(w, s), slot, s)
    ensures Joined(w.(rows := w.rows[s := slot]), a, id, limit)
  {
    var v := w.(rows := w.rows[s := slot]);
    forall x: string ensures F.RowMove(w, F.SlotAt(w, x), F.SlotAt(v, x), x) {
      if x != s { OtherRow(w, x, limit); }
    }
    F.EnvironmentKeepsAccounts(w, v, limit);
  }

  /** Another entry with the accounts in order. */
  lemma EntryKeepsJoined(w: F.World, v: F.World, a: Session, id: string, limit: nat)
    requires Joined(w, a, id, limit) && v == w.(entry := v.entry) && F.Accounted(v, limit)
    ensures Joined(v, a, id, limit)
  {
    assert forall s: string :: F.SlotAt(v, s) == F.SlotAt(w, s);
  }

  lemma MoveKeepsJoined(j: Joint, m: Move, id: string, limit: nat)
    requires Joined(j.world, j.session, id, limit) && Enabled(j, m, id, limit)
    ensures var k := Do(j, m, id, limit);
            Joined(k.world, k.session, id, limit) && SlotLeq(j.session.slot, k.session.slot)
  {
    var w, k := j.world, Do(j, m, id, limit);
    hide Apply, Inv, F.Accounted, F.HistoryOk, F.FeeReady, F.Books, F.RowMove;
    match m {
      case Claim(e) => EventIsMove(w, j.session, e, id, limit); StepInv(j.session, e);
      case Row(s, slot) => RowKeepsJoined(w, j.session, s, slot, id, limit);
      case FeeWrite(pruned, h, s, fee, now, upper) =>
        F.FeeWriteKeepsAccounts(w, pruned, h, s, fee, now, upper, limit);
        EntryKeepsJoined(w, k.world, j.session, id, limit);
      case BlindWrite(n, lost) =>
        F.BlindWriteKeepsAccounts(w, n, lost, limit);
        EntryKeepsJoined(w, k.world, j.session, id, limit);
      case HookReturns(s) => F.HookKeepsAccounts(w, s, limit);
      case GuardClears(s) => F.ClearKeepsAccounts(w, s, limit);
    }
  }

  ghost predicate Possible(j: Joint, ms: seq<Move>, id: string, limit: nat)
    decreases |ms|
  {
    ms == [] || (Enabled(j, ms[0], id, limit) && Possible(Do(j, ms[0], id, limit), ms[1..], id, limit))
  }

  ghost function Run(j: Joint, ms: seq<Move>, id: string, limit: nat): Joint
    requires Possible(j, ms, id, limit)
    decreases |ms|
  {
    if ms == [] then j else Run(Do(j, ms[0], id, limit), ms[1..], id, limit)
  }

  /** Every run keeps the two together, and the session's row only moves forward. */
  lemma {:induction false} RunKeepsJoined(j: Joint, ms: seq<Move>, id: string, limit: nat)
    requires Joined(j.world, j.session, id, limit) && Possible(j, ms, id, limit)
    ensures var k := Run(j, ms, id, limit);
            Joined(k.world, k.session, id, limit) && SlotLeq(j.session.slot, k.session.slot)
    decreases |ms|
  {
    hide Enabled, Do, Joined;
    if ms == [] {
    } else {
      var k := Do(j, ms[0], id, limit);
      MoveKeepsJoined(j, ms[0], id, limit);
      RunKeepsJoined(k, ms[1..], id, limit);
      SlotLeqTransitive(j.session.slot, k.session.slot, Run(j, ms, id, limit).session.slot);
    }
  }

  /** In every run from a session without a row, beside accounts that are in order: a finished
      claim has sent one transaction at most, and its fee is debited once, from then on; an
      unfinished one has its fee debited exactly if its marker is in the entry. */
  lemma FinishedOnceInEveryRun(w: F.World, ms: seq<Move>, more: seq<Move>, id: string, limit: nat)
    requires F.Accounted(w, limit) && F.HistoryOk(w) && F.SlotAt(w, id).Absent?
    requires Possible(Joint(w, Fresh(false)), ms, id, limit) && Possible(Run(Joint(w, Fresh(false)), ms, id, limit), more, id, limit)
    ensures var j := Run(Joint(w, Fresh(false)), ms, id, limit);
            var k := Run(j, more, id, limit);
            && (F.FinishedSlot(j.session.slot) ==>
                  && F.Paid(j.world, id) == 1 && F.Paid(k.world, id) == 1
                  && j.session.slot.HasClaim() && j.session.slot.Claimed().Confirmed?
                  && k.session.sent <= {j.session.slot.Claimed().tx})
            && (!F.FinishedSlot(j.session.slot) ==> F.Paid(j.world, id) == if F.Marked(j.world, id) then 1 else 0)
  {
    FreshInv(false);
    var j := Run(Joint(w, Fresh(false)), ms, id, limit);
    RunKeepsJoined(Joint(w, Fresh(false)), ms, id, limit);
    RunKeepsJoined(j, more, id, limit);
    FinishedOnceEach(j.world, j.session, id, limit);
    var k := Run(j, more, id, limit);
    FinishedOnceEach(k.world, k.session, id, limit);
    hide Possible, Run, Joined;
  }
}
