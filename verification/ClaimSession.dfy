/** One session's part of the claim protocol (src/eth/EthClaimManager.ts): its durable
    row, the in-memory claim object, and the four tasks that work on it. Code between two
    awaits is one event; a database call is two events, its effect and the resumption of
    the caller, so every other event may fall between them. */
module ClaimSession {
  import opened Wrappers
  import opened ClaimData

  datatype CasReply = CasTrue | CasFalse | CasError

  datatype ReadReply = ReadError | ReadNone | ReadRow(row: Row)

  /** Where transitionClaim stands between two awaits. */
  datatype Phase =
    | CasCall
    | CasReplied(cas: CasReply)
    | ReadCall(casFailed: bool)
    | ReadReplied(casThrew: bool, read: ReadReply)

  datatype Transition = Transition(expected: Claim, next: Claim, phase: Phase)

  datatype QueueTask =
    | QueueOff
    | QueueWaiting
    | QueuePreparing(nonce: nat)
    | QueueWriting(prepare: bool, qt: Transition)

  datatype BroadcastTask =
    | BroadcastOff
    | BroadcastLoop
    | BroadcastSend(sending: SignedTx)
    | BroadcastReplied(replied: SignedTx, acknowledged: bool)
    | BroadcastMark(bt: Transition)

  datatype Receipt = Receipt(status: bool, block: nat, fee: nat)

  datatype ReceiptTask =
    | ReceiptOff
    | ReceiptLoop
    | ReceiptWatch(watching: SignedTx)
    | Settling(attempt: nat, receipt: Receipt, rt: Transition)
    | SettleReturned
    | SettleExhausted

  datatype FinalPhase = FinalCall | FinalReplied(finalCas: CasReply) | FinalRead | FinalReadReplied(finalRead: ReadReply)

  /** HooksSucceeded is also where finalizeConfirmedClaim starts another round. */
  datatype CompletionTask =
    | CompletionOff
    | CompletionLoop
    | HooksRunning
    | HooksSucceeded
    | Finalizing(claim: Claim, phase: FinalPhase)

  /** mem is claimTx.claim; owned and pending are the entries of claimTxDict and
      pendingTxQueue; reserved is the wallet reservation made for this claim.
      prepared, sent and hooked are history: the signed transaction first made durable,
      every transaction handed to the network, and a successful run of the claim hooks. */
  datatype Session = Session(
    up: bool,
    slot: Slot,
    creating: Option<Claim>,
    mem: Option<Claim>,
    owned: bool,
    pending: bool,
    reserved: Option<SignedTx>,
    queue: QueueTask,
    broadcast: BroadcastTask,
    receipt: ReceiptTask,
    completion: CompletionTask,
    prepared: Option<SignedTx>,
    sent: set<SignedTx>,
    hooked: bool)

  function Fresh(up: bool): Session {
    Session(up, Absent, None, None, false, false, None, QueueOff, BroadcastOff, ReceiptOff, CompletionOff, None, {}, false)
  }

  datatype Task = QueueT | BroadcastT | ReceiptT

  datatype Event =
    // the session side and clean-up
    | Insert(amount: nat)
    | MakeClaimable(amount: nat)
    | FailUnclaimed(from: SessionStatus, amount: nat)
    | Timeout(readStatus: SessionStatus)
    | Cleanup(candidate: Row)
    // createSessionClaimInternal
    | CreateWrite(idx: nat, time: nat, amount: nat, fault: Fault)
    | CreateReturn
    // processQueueTx
    | TakeFromQueue(ready: bool, nonce: nat)
    | Signed(signed: Option<SignedTx>, affordable: bool)
    // transitionClaim, for each caller
    | Cas(task: Task, fault: Fault)
    | Read(task: Task, fails: bool)
    | Resume(task: Task)
    // rebroadcastClaim
    | BroadcastCheck
    | BroadcastSent(ack: bool)
    | BroadcastResume
    // awaitTxReceipt
    | ReceiptCheck
    | ReceiptArrived(result: Receipt)
    | ReceiptFailed
    // completeConfirmedClaim and finalizeConfirmedClaim
    | CompletionCheck
    | HooksEnd(ok: bool)
    | StartFinalize
    | FinalCas(fault: Fault)
    | FinalReadStep(fails: bool)
    | FinalResume
    // the process
    | Crash
    | Restart

  // ------------------------------------------------------------- transitionClaim

  /** The database effect and the reply of compareAndSetClaim. */
  function CasEffect(s: Slot, t: Transition, f: Fault): (Slot, Transition) {
    var fires := CasMatches(s, t.expected);
    var written := CompareAndSetClaim(s, t.expected, t.next);
    match f
    case Ack => (written, t.(phase := CasReplied(if fires then CasTrue else CasFalse)))
    case NoEffect => (s, t.(phase := CasReplied(CasError)))
    case LostAck => (written, t.(phase := CasReplied(CasError)))
  }

  function ReadSlot(s: Slot, fails: bool): ReadReply {
    if fails then ReadError else if s.Live? then ReadRow(s.row) else ReadNone
  }

  datatype Verdict = Again(t: Transition) | Returned(ok: bool) | Threw

  /** The code after each await of transitionClaim; the new value of claimTx.claim and
      whether an observed claim must be reconciled come with the verdict. */
  datatype Resumed = Resumed(verdict: Verdict, learned: Option<Claim>, reconcile: bool)

  function ResumeTransition(t: Transition): Resumed {
    match t.phase
    case CasReplied(CasTrue) => Resumed(Returned(true), Some(t.next), false)
    case CasReplied(c) => Resumed(Again(t.(phase := ReadCall(c == CasError))), None, false)
    case ReadReplied(threw, ReadError) => Resumed(Again(t.(phase := CasCall)), None, false)
    case ReadReplied(threw, ReadNone) => Resumed(if threw then Threw else Returned(false), None, false)
    case ReadReplied(threw, ReadRow(row)) =>
      if row.claim.None? then Resumed(if threw then Threw else Returned(false), None, false)
      else
        var c := row.claim.value;
        if c == t.next && !(t.next.Confirmed? && row.status == StatusFinished) then
          Resumed(Returned(true), Some(c), false)
        else if row.status == StatusClaiming && c == t.expected then
          Resumed(Again(t.(phase := CasCall)), Some(c), false)
        else
          Resumed(if threw then Threw else Returned(false), Some(c), true)
    case CasCall => Resumed(Again(t), None, false)
    case ReadCall(_) => Resumed(Again(t), None, false)
  }

  /** finishClaimReconciliation, without the log, history and notification parts. */
  function Finish(a: Session): Session {
    a.(pending := false, owned := false, reserved := None)
  }

  function StartCompletion(a: Session): Session {
    if a.completion == CompletionOff then a.(completion := CompletionLoop) else a
  }

  /** reconcileObservedTerminal. */
  function ReconcileObserved(a: Session, c: Claim): Session {
    if c.Confirmed? then (if a.owned then StartCompletion(a) else a)
    else if c.Reverted? then (if a.owned || a.pending then Finish(a) else a)
    else if c.Failed? && a.owned then
      a.(owned := false, queue := if a.queue == QueueWaiting then QueueOff else a.queue)
    else a
  }

  function Learn(a: Session, r: Resumed): Session {
    var b := if r.learned.Some? then a.(mem := r.learned) else a;
    if r.reconcile && r.learned.Some? then ReconcileObserved(b, r.learned.value) else b
  }

  function Awaiting(t: Transition): bool { t.phase.CasReplied? || t.phase.ReadReplied? }

  // ------------------------------------------------------------------ task code

  function FailedClaim(c: Claim): Claim { Failed(c.claimIdx, c.claimTime, "failed") }

  function PreparedClaim(c: Claim, tx: SignedTx): Claim { Prepared(c.claimIdx, c.claimTime, tx) }

  function TerminalClaim(c: Claim, r: Receipt): Claim
    requires c.Active()
  {
    if r.status then Confirmed(c.claimIdx, c.claimTime, c.tx, r.block, r.fee)
    else Reverted(c.claimIdx, c.claimTime, c.tx, r.block, r.fee, "Transaction reverted")
  }

  function StartFail(a: Session): Session
    requires a.mem.Some?
  {
    a.(queue := QueueWriting(false, Transition(a.mem.value, FailedClaim(a.mem.value), CasCall)))
  }

  /** One pass through the loop of settleClaim. */
  function SettleAttempt(a: Session, attempt: nat, r: Receipt): Session {
    if attempt >= 3 then a.(receipt := SettleExhausted)
    else if a.mem.None? || !a.mem.value.Active() then a.(receipt := SettleReturned)
    else a.(receipt := Settling(attempt, r, Transition(a.mem.value, TerminalClaim(a.mem.value, r), CasCall)))
  }

  function ResumeQueue(a: Session): Session
    requires a.queue.QueueWriting?
  {
    var r := ResumeTransition(a.queue.qt);
    AfterQueue(Learn(a, r), a.queue.prepare, r.verdict)
  }

  function AfterQueue(b: Session, prepare: bool, v: Verdict): Session {
    match v
    case Again(u) => b.(queue := QueueWriting(prepare, u))
    case Returned(ok) =>
      if prepare then
        if ok then b.(queue := QueueOff, pending := true, broadcast := BroadcastLoop, receipt := ReceiptLoop)
        else b.(queue := QueueOff, reserved := None)
      else b.(queue := QueueOff, owned := if ok then false else b.owned)
    case Threw =>
      if prepare then b.(queue := QueueOff, reserved := None) else b.(queue := QueueOff)
  }

  function ResumeBroadcastMark(a: Session): Session
    requires a.broadcast.BroadcastMark?
  {
    var r := ResumeTransition(a.broadcast.bt);
    AfterMark(Learn(a, r), r.verdict)
  }

  function AfterMark(b: Session, v: Verdict): Session {
    match v
    case Again(u) => b.(broadcast := BroadcastMark(u))
    case Returned(_) => b.(broadcast := BroadcastOff)
    case Threw => b.(broadcast := BroadcastLoop)
  }

  function ResumeSettle(a: Session): Session
    requires a.receipt.Settling?
  {
    var r := ResumeTransition(a.receipt.rt);
    AfterSettle(Learn(a, r), a.receipt, r.verdict)
  }

  function AfterSettle(b: Session, task: ReceiptTask, v: Verdict): Session
    requires task.Settling?
  {
    match v
    case Again(u) => b.(receipt := task.(rt := u))
    case Returned(true) =>
      if task.rt.next.Confirmed? then StartCompletion(b).(receipt := SettleReturned)
      else Finish(b).(receipt := SettleReturned)
    case Returned(false) => SettleAttempt(b, task.attempt + 1, task.receipt)
    case Threw => b.(receipt := ReceiptLoop)
  }

  function ResumeFinal(a: Session): Session
    requires a.completion.Finalizing?
  {
    var c := a.completion.claim;
    match a.completion.phase
    case FinalReplied(CasTrue) => Finish(a).(completion := CompletionOff)
    case FinalReplied(_) => a.(completion := Finalizing(c, FinalRead))
    case FinalReadReplied(ReadError) => a.(completion := HooksSucceeded)
    case FinalReadReplied(ReadNone) => a.(completion := CompletionOff)
    case FinalReadReplied(ReadRow(row)) =>
      if row.claim.None? then a.(completion := CompletionOff) else FinalObserved(a, row)
    case _ => a
  }

  function FinalObserved(a: Session, row: Row): Session
    requires row.claim.Some?
  {
    var b := a.(mem := row.claim);
    if row.claim.value.Confirmed? && row.status == StatusFinished then Finish(b).(completion := CompletionOff)
    else if row.claim.value.Confirmed? && row.status == StatusClaiming then b.(completion := HooksSucceeded)
    else ReconcileObserved(b, row.claim.value).(completion := CompletionOff)
  }

  /** The loop head of finalizeConfirmedClaim. */
  function StartFinal(a: Session): CompletionTask {
    if a.mem.Some? && a.mem.value.Confirmed? then Finalizing(a.mem.value, FinalCall) else CompletionOff
  }

  // ------------------------------------------------------------------ the events

  function ApplyCas(a: Session, task: Task, f: Fault): Session {
    match task
    case QueueT =>
      if a.queue.QueueWriting? && a.queue.qt.phase.CasCall? then
        var (s, u) := CasEffect(a.slot, a.queue.qt, f);
        Remember(a.(slot := s, queue := QueueWriting(a.queue.prepare, u)))
      else a
    case BroadcastT =>
      if a.broadcast.BroadcastMark? && a.broadcast.bt.phase.CasCall? then
        var (s, u) := CasEffect(a.slot, a.broadcast.bt, f);
        Remember(a.(slot := s, broadcast := BroadcastMark(u)))
      else a
    case ReceiptT =>
      if a.receipt.Settling? && a.receipt.rt.phase.CasCall? then
        var (s, u) := CasEffect(a.slot, a.receipt.rt, f);
        Remember(a.(slot := s, receipt := Settling(a.receipt.attempt, a.receipt.receipt, u)))
      else a
  }

  /** History: the first signed transaction that the durable row holds. */
  function Remember(a: Session): Session {
    if a.prepared.None? && a.slot.HasClaim() && a.slot.Claimed().Signed()
    then a.(prepared := Some(a.slot.Claimed().tx)) else a
  }

  function ApplyRead(a: Session, task: Task, fails: bool): Session {
    var r := ReadSlot(a.slot, fails);
    match task
    case QueueT =>
      if a.queue.QueueWriting? && a.queue.qt.phase.ReadCall? then
        a.(queue := QueueWriting(a.queue.prepare, a.queue.qt.(phase := ReadReplied(a.queue.qt.phase.casFailed, r))))
      else a
    case BroadcastT =>
      if a.broadcast.BroadcastMark? && a.broadcast.bt.phase.ReadCall? then
        a.(broadcast := BroadcastMark(a.broadcast.bt.(phase := ReadReplied(a.broadcast.bt.phase.casFailed, r))))
      else a
    case ReceiptT =>
      if a.receipt.Settling? && a.receipt.rt.phase.ReadCall? then
        a.(receipt := a.receipt.(rt := a.receipt.rt.(phase := ReadReplied(a.receipt.rt.phase.casFailed, r))))
      else a
  }

  function ApplyResume(a: Session, task: Task): Session {
    match task
    case QueueT => if a.queue.QueueWriting? && Awaiting(a.queue.qt) then ResumeQueue(a) else a
    case BroadcastT => if a.broadcast.BroadcastMark? && Awaiting(a.broadcast.bt) then ResumeBroadcastMark(a) else a
    case ReceiptT => if a.receipt.Settling? && Awaiting(a.receipt.rt) then ResumeSettle(a) else a
  }

  /** The loop condition shared by rebroadcastClaim and awaitTxReceipt. */
  predicate StillActive(a: Session) { a.owned && a.mem.Some? && a.mem.value.Active() }

  function ApplyFinalCas(a: Session, f: Fault): Session {
    if a.completion.Finalizing? && a.completion.phase.FinalCall? then
      var c := a.completion.claim;
      var fires := CasMatches(a.slot, c);
      match f
      case Ack => a.(slot := FinalizeConfirmedClaim(a.slot, c),
                     completion := Finalizing(c, FinalReplied(if fires then CasTrue else CasFalse)))
      case NoEffect => a.(completion := Finalizing(c, FinalReplied(CasError)))
      case LostAck => a.(slot := FinalizeConfirmedClaim(a.slot, c), completion := Finalizing(c, FinalReplied(CasError)))
    else a
  }

  /** initialize: what one stored CLAIMING session becomes after a restart. */
  function RestartSession(a: Session): Session {
    if !(a.slot.Live? && a.slot.row.status == StatusClaiming && a.slot.row.claim.Some?) then a.(up := true)
    else
      var c := a.slot.row.claim.value;
      match c
      case Queue(_, _) => a.(up := true, mem := Some(c), owned := true, queue := QueueWaiting)
      case Prepared(_, _, tx) =>
        a.(up := true, mem := Some(c), owned := true, pending := true, reserved := Some(tx),
           broadcast := BroadcastLoop, receipt := ReceiptLoop)
      case Pending(_, _, tx) =>
        a.(up := true, mem := Some(c), owned := true, pending := true, reserved := Some(tx),
           broadcast := BroadcastLoop, receipt := ReceiptLoop)
      case Confirmed(_, _, _, _, _) => a.(up := true, mem := Some(c), owned := true, completion := CompletionLoop)
      case _ => a.(up := true)
  }

  function CrashSession(a: Session): Session {
    a.(up := false, creating := None, mem := None, owned := false, pending := false, reserved := None,
       queue := QueueOff, broadcast := BroadcastOff, receipt := ReceiptOff, completion := CompletionOff)
  }

  /** The status arguments that the callers of transitionSession and tryTimeoutSession pass. */
  predicate Allowed(e: Event) {
    match e
    case FailUnclaimed(from, _) => from == StatusRunning || from == StatusClaimable
    case Timeout(status) => status == StatusRunning || status == StatusClaimable
    case _ => true
  }

  function Apply(a: Session, e: Event): Session {
    match e
    case Insert(amount) => a.(slot := InsertRunning(a.slot, amount))
    case MakeClaimable(amount) => a.(slot := TransitionSession(a.slot, StatusClaimable, StatusRunning, amount))
    case FailUnclaimed(from, amount) => a.(slot := TransitionSession(a.slot, StatusFailed, from, amount))
    case Timeout(status) => a.(slot := TryTimeout(a.slot, status))
    case Cleanup(candidate) => a.(slot := CleanupCandidate(a.slot, candidate))
    case CreateWrite(idx, time, amount, f) =>
      if !a.up then a
      else
        var c := Queue(idx, time);
        var s := TryCreateClaim(a.slot, amount, c);
        if f == NoEffect then a
        else if f == Ack && s != a.slot then a.(slot := s, creating := Some(c))
        else a.(slot := s)
    case CreateReturn =>
      if a.creating.Some? then a.(creating := None, mem := a.creating, owned := true, queue := QueueWaiting) else a
    case TakeFromQueue(ready, nonce) =>
      if a.queue != QueueWaiting || a.mem.None? then a
      else if !a.mem.value.Queue? then a.(queue := QueueOff)
      else if !ready then StartFail(a)
      else a.(queue := QueuePreparing(nonce))
    case Signed(None, _) => if a.queue.QueuePreparing? && a.mem.Some? then StartFail(a) else a
    case Signed(Some(tx), affordable) =>
      if !a.queue.QueuePreparing? || a.mem.None? || tx.txNonce != a.queue.nonce then a
      else if !affordable then StartFail(a)
      else a.(reserved := Some(tx),
              queue := QueueWriting(true, Transition(a.mem.value, PreparedClaim(a.mem.value, tx), CasCall)))
    case Cas(task, f) => ApplyCas(a, task, f)
    case Read(task, fails) => ApplyRead(a, task, fails)
    case Resume(task) => ApplyResume(a, task)
    case BroadcastCheck =>
      if a.broadcast != BroadcastLoop then a
      else if StillActive(a) then a.(broadcast := BroadcastSend(a.mem.value.tx))
      else a.(broadcast := BroadcastOff)
    case BroadcastSent(ack) =>
      if !a.broadcast.BroadcastSend? then a
      else a.(sent := a.sent + {a.broadcast.sending}, broadcast := BroadcastReplied(a.broadcast.sending, ack))
    case BroadcastResume =>
      if !a.broadcast.BroadcastReplied? then a
      else if !a.broadcast.acknowledged then a.(broadcast := BroadcastLoop)
      else if a.mem.Some? && a.mem.value.Prepared? then
        var p := a.mem.value;
        a.(broadcast := BroadcastMark(Transition(p, Pending(p.claimIdx, p.claimTime, p.tx), CasCall)))
      else a.(broadcast := BroadcastOff)
    case ReceiptCheck =>
      if a.receipt != ReceiptLoop then a
      else if StillActive(a) then a.(receipt := ReceiptWatch(a.mem.value.tx))
      else a.(receipt := ReceiptOff)
    case ReceiptArrived(r) => if a.receipt.ReceiptWatch? then SettleAttempt(a, 0, r) else a
    case ReceiptFailed => if a.receipt.ReceiptWatch? then a.(receipt := ReceiptLoop) else a
    case CompletionCheck =>
      if a.completion != CompletionLoop then a
      else if a.mem.Some? && a.mem.value.Confirmed? then a.(completion := HooksRunning)
      else a.(completion := CompletionOff)
    case HooksEnd(ok) =>
      if a.completion != HooksRunning then a
      else if ok then a.(hooked := true, completion := HooksSucceeded)
      else a.(completion := CompletionLoop)
    case StartFinalize => if a.completion == HooksSucceeded then a.(completion := StartFinal(a)) else a
    case FinalCas(f) => ApplyFinalCas(a, f)
    case FinalReadStep(fails) =>
      if a.completion.Finalizing? && a.completion.phase.FinalRead? then
        a.(completion := Finalizing(a.completion.claim, FinalReadReplied(ReadSlot(a.slot, fails))))
      else a
    case FinalResume => if a.completion.Finalizing? then ResumeFinal(a) else a
    case Crash => CrashSession(a)
    case Restart => if a.up then a else RestartSession(a)
  }

  // ---------------------------------------------------------------- the invariant

  predicate Below(c: Claim, s: Slot) { s.HasClaim() && Leq(c, s.Claimed()) }

  predicate IsConfirmed(s: Slot) { s.HasClaim() && s.Claimed().Confirmed? }

  predicate ReadOk(r: ReadReply, expected: Claim, s: Slot) {
    match r
    case ReadError => true
    case ReadNone => s.Erased?
    case ReadRow(row) =>
      RowOk(row) && row.claim.Some? && Leq(expected, row.claim.value) && Below(row.claim.value, s)
  }

  predicate TransitionOk(t: Transition, s: Slot) {
    && Below(t.expected, s)
    && t.expected != t.next && Leq(t.expected, t.next)
    && (t.phase == CasReplied(CasTrue) ==> Below(t.next, s))
    && (t.phase.ReadReplied? ==> ReadOk(t.phase.read, t.expected, s))
  }

  predicate Quiet(a: Session) {
    a.broadcast == BroadcastOff && a.receipt == ReceiptOff && a.completion == CompletionOff && !a.pending
  }

  /** The queue task is alone with a claim it has taken: the row is as it was or as it writes it. */
  predicate QueueOk(a: Session) {
    match a.queue
    case QueueOff => true
    case QueueWaiting => HoldsQueued(a) && a.reserved.None?
    case QueuePreparing(_) => HoldsQueued(a) && a.reserved.None?
    case QueueWriting(prepare, t) =>
      && Quiet(a) && a.mem.Some? && TransitionOk(t, a.slot) && t.expected.Queue?
      && (if prepare then t.next.Prepared? && a.reserved == Some(t.next.tx) && a.slot.Live?
                          && a.slot.row.status == StatusClaiming && OneOf(a.slot.row.claim, t)
                          && a.slot.row.claim == Some(if t.phase == CasReplied(CasTrue) then t.next else a.slot.Claimed())
                          && (t.phase.ReadReplied? && t.phase.read.ReadRow? ==>
                                OneOf(t.phase.read.row.claim, t) && t.phase.read.row.status == StatusClaiming)
          else t.next.Failed? && a.reserved.None?)
  }

  predicate OneOf(c: Option<Claim>, t: Transition) { c == Some(t.expected) || c == Some(t.next) }

  predicate HoldsQueued(a: Session) {
    Quiet(a) && a.mem.Some? && a.mem.value.Queue? && a.slot.Live? && a.slot.row == Row(StatusClaiming, a.slot.row.dropAmount, a.mem)
  }

  predicate BroadcastOk(a: Session) {
    match a.broadcast
    case BroadcastSend(tx) => a.prepared == Some(tx)
    case BroadcastReplied(tx, _) => a.prepared == Some(tx)
    case BroadcastMark(t) => TransitionOk(t, a.slot) && t.expected.Prepared? && t.next.Pending?
    case _ => true
  }

  /** At attempt 1 the expected claim is already PENDING, unless clean-up has deleted the
      decided row; attempt 2 happens only after such a deletion. */
  predicate ReceiptOk(a: Session) {
    match a.receipt
    case Settling(n, _, t) =>
      && TransitionOk(t, a.slot) && t.expected.Active() && (t.next.Confirmed? || t.next.Reverted?)
      && n <= 2
      && (n == 1 ==> t.expected.Pending? || a.slot.Erased?)
      && (n == 2 ==> a.slot.Erased?)
    case SettleExhausted => a.slot.Erased?
    case _ => true
  }

  /** A reply from which finalizeConfirmedClaim concludes that the session is FINISHED. */
  predicate SaysFinished(p: FinalPhase) {
    p == FinalReplied(CasTrue) || (p.FinalReadReplied? && p.finalRead.ReadRow? && p.finalRead.row.status == StatusFinished)
  }

  predicate CompletionOk(a: Session) {
    match a.completion
    case HooksRunning => IsConfirmed(a.slot)
    case HooksSucceeded => a.hooked
    case Finalizing(c, p) =>
      && a.hooked && c.Confirmed? && Below(c, a.slot)
      && (p.FinalReadReplied? ==> ReadOk(p.finalRead, c, a.slot))
      && (SaysFinished(p) ==> a.slot.row.status == StatusFinished)
    case _ => true
  }

  /** While the process runs, an undecided signed row has its wallet reservation, and a
      reservation belongs either to the row or to the write being attempted. */
  predicate ReservationOk(a: Session) {
    && (a.up && a.slot.HasActive() ==> a.reserved == Some(a.slot.row.claim.value.tx))
    && (!a.up ==> a.reserved.None?)
  }

  predicate HistoryOk(a: Session) {
    && a.prepared == (if a.slot.HasClaim() && a.slot.Claimed().Signed() then Some(a.slot.Claimed().tx) else None)
    && (forall t :: t in a.sent ==> a.prepared == Some(t))
    && (a.slot.HasClaim() && a.slot.row.status == StatusFinished ==> a.hooked)
    && (a.hooked ==> IsConfirmed(a.slot))
  }

  predicate MemoryOk(a: Session) {
    && (a.mem.Some? ==> Below(a.mem.value, a.slot))
    && (a.creating.Some? ==> a.mem.None? && a.slot.Live? && a.creating.value.Queue?
                             && a.slot.row.status == StatusClaiming && a.slot.row.claim == a.creating)
    && (a.mem.None? ==> a.queue == QueueOff && Quiet(a) && a.reserved.None?)
    && (!a.up ==> a.mem.None? && a.creating.None? && !a.owned)
    && ((a.broadcast != BroadcastOff || a.receipt.ReceiptLoop? || a.receipt.ReceiptWatch? || a.receipt.Settling?)
        ==> a.prepared.Some? && a.mem.Some? && a.mem.value.Signed())
  }

  predicate Inv(a: Session) {
    && SlotOk(a.slot)
    && HistoryOk(a)
    && MemoryOk(a)
    && ReservationOk(a)
    && QueueOk(a) && BroadcastOk(a) && ReceiptOk(a) && CompletionOk(a)
  }

  lemma FreshInv(up: bool)
    ensures Inv(Fresh(up))
  {}

  // --------------------------------------------------- every event keeps the invariant

  /** A write of transitionClaim moves the row forward and leaves the caller consistent. */
  lemma CasEffectOk(s: Slot, t: Transition, f: Fault)
    requires SlotOk(s) && TransitionOk(t, s) && t.phase.CasCall?
    ensures var (s', u) := CasEffect(s, t, f);
            && SlotOk(s') && SlotLeq(s, s') && TransitionOk(u, s')
            && u.expected == t.expected && u.next == t.next && u.phase.CasReplied?
            && (s' == s || (CasMatches(s, t.expected) && s' == Live(Row(CasStatus(t.next), s.row.dropAmount, Some(t.next)))))
            && (u.phase == CasReplied(CasTrue) ==> s' != s && CasMatches(s, t.expected))
  {}

  lemma EnvironmentInv(a: Session, s: Slot)
    requires Inv(a) && SlotOk(s) && SlotLeq(a.slot, s)
    requires !a.slot.HasClaim() && !s.HasClaim()
    ensures Inv(a.(slot := s))
  {}

  lemma CleanupInv(a: Session, candidate: Row)
    requires Inv(a)
    ensures Inv(Apply(a, Cleanup(candidate))) && SlotLeq(a.slot, Apply(a, Cleanup(candidate)).slot)
  {}

  lemma CreateInv(a: Session, idx: nat, time: nat, amount: nat, f: Fault)
    requires Inv(a)
    ensures var b := Apply(a, CreateWrite(idx, time, amount, f)); Inv(b) && SlotLeq(a.slot, b.slot)
  {}

  lemma CasQueueInv(a: Session, f: Fault)
    requires Inv(a)
    ensures var b := ApplyCas(a, QueueT, f); Inv(b) && SlotLeq(a.slot, b.slot)
  {
    hide CasEffect, TransitionOk;
    if a.queue.QueueWriting? && a.queue.qt.phase.CasCall? {
      CasEffectOk(a.slot, a.queue.qt, f);
    }
  }

  lemma CasBroadcastInv(a: Session, f: Fault)
    requires Inv(a)
    ensures var b := ApplyCas(a, BroadcastT, f); Inv(b) && SlotLeq(a.slot, b.slot)
  {
    if a.broadcast.BroadcastMark? && a.broadcast.bt.phase.CasCall? {
      CasEffectOk(a.slot, a.broadcast.bt, f);
    }
  }

  lemma CasReceiptInv(a: Session, f: Fault)
    requires Inv(a)
    ensures var b := ApplyCas(a, ReceiptT, f); Inv(b) && SlotLeq(a.slot, b.slot)
  {
    hide CasEffect;
    if a.receipt.Settling? && a.receipt.rt.phase.CasCall? {
      CasEffectOk(a.slot, a.receipt.rt, f);
    }
  }

  lemma ReadInv(a: Session, task: Task, fails: bool)
    requires Inv(a)
    ensures Inv(ApplyRead(a, task, fails))
  {}

  /** What the code after an await of transitionClaim may conclude about the row. */
  lemma ResumeTransitionOk(t: Transition, s: Slot)
    requires SlotOk(s) && TransitionOk(t, s) && Awaiting(t)
    ensures var r := ResumeTransition(t);
            && (r.learned.Some? ==> Below(r.learned.value, s) && (r.learned.value == t.next || Leq(t.expected, r.learned.value)))
            && (r.reconcile ==> r.learned.Some? && !r.verdict.Again? && r.verdict != Returned(true))
            && (r.verdict.Again? ==> TransitionOk(r.verdict.t, s) && !Awaiting(r.verdict.t)
                                     && r.verdict.t.expected == t.expected && r.verdict.t.next == t.next)
            && (r.verdict == Returned(true) ==> r.learned == Some(t.next))
            && (r.verdict == Returned(false) || r.verdict == Threw ==>
                  s.Erased? || (r.learned.Some? && r.reconcile && Leq(t.expected, r.learned.value)
                                && (r.learned.value == t.expected ==> !t.expected.Queue? && !t.expected.Active())))
  {}

  lemma ReconcileInv(a: Session, c: Claim)
    requires Inv(a) && Below(c, a.slot) && a.queue == QueueOff && a.mem.Some?
    ensures Inv(ReconcileObserved(a, c))
  {}

  /** Learning a later stage of the claim; used by tasks that run beside no queue task. */
  lemma LearnInv(a: Session, r: Resumed)
    requires Inv(a) && a.queue == QueueOff && a.mem.Some? && a.mem.value.Signed()
    requires r.learned.Some? ==> Below(r.learned.value, a.slot) && r.learned.value.Signed()
    ensures var b := Learn(a, r);
            Inv(b) && b.queue == QueueOff && b.slot == a.slot && b.broadcast == a.broadcast && b.receipt == a.receipt
            && b.mem == (if r.learned.Some? then r.learned else a.mem)
  {
    if r.learned.Some? {
      var b := a.(mem := r.learned);
      assert Inv(b);
      if r.reconcile { ReconcileInv(b, r.learned.value); }
    }
  }

  lemma QueueGoesOn(a: Session, r: Resumed)
    requires Inv(a) && a.queue.QueueWriting? && Awaiting(a.queue.qt) && r == ResumeTransition(a.queue.qt) && r.verdict.Again?
    ensures Inv(ResumeQueue(a))
  {
    ResumeTransitionOk(a.queue.qt, a.slot);
  }

  lemma QueueDone(a: Session, r: Resumed)
    requires Inv(a) && a.queue.QueueWriting? && Awaiting(a.queue.qt) && r == ResumeTransition(a.queue.qt) && !r.verdict.Again?
    ensures Inv(ResumeQueue(a))
  {
    hide TransitionOk, SlotOk;
    ResumeTransitionOk(a.queue.qt, a.slot);
  }

  lemma ResumeQueueInv(a: Session)
    requires Inv(a) && a.queue.QueueWriting? && Awaiting(a.queue.qt)
    ensures Inv(ResumeQueue(a)) && ResumeQueue(a).slot == a.slot
  {
    var r := ResumeTransition(a.queue.qt);
    if r.verdict.Again? { QueueGoesOn(a, r); } else { QueueDone(a, r); }
    QueueSlot(a);
  }

  lemma QueueSlot(a: Session)
    requires a.queue.QueueWriting?
    ensures ResumeQueue(a).slot == a.slot
  {}

  lemma AfterMarkInv(b: Session, v: Verdict)
    requires Inv(b) && b.broadcast.BroadcastMark?
    requires v.Again? ==> TransitionOk(v.t, b.slot) && v.t.expected == b.broadcast.bt.expected && v.t.next == b.broadcast.bt.next
    ensures Inv(AfterMark(b, v)) && AfterMark(b, v).slot == b.slot
  {}

  lemma ResumeBroadcastInv(a: Session)
    requires Inv(a) && a.broadcast.BroadcastMark? && Awaiting(a.broadcast.bt)
    ensures Inv(ResumeBroadcastMark(a)) && ResumeBroadcastMark(a).slot == a.slot
  {
    var r := ResumeTransition(a.broadcast.bt);
    ResumeTransitionOk(a.broadcast.bt, a.slot);
    LearnInv(a, r);
    AfterMarkInv(Learn(a, r), r.verdict);
  }

  /** Moving the receipt task on from a place where it runs. */
  lemma ReceiptPlaceInv(a: Session, p: ReceiptTask)
    requires Inv(a) && (a.receipt.ReceiptLoop? || a.receipt.ReceiptWatch? || a.receipt.Settling?) && ReceiptOk(a.(receipt := p))
    ensures Inv(a.(receipt := p))
  {}

  lemma SettleAttemptInv(a: Session, attempt: nat, r: Receipt)
    requires Inv(a) && (a.receipt.ReceiptWatch? || a.receipt.Settling?)
    requires attempt <= 2 || a.slot.Erased?
    requires attempt == 0 || a.slot.Erased? || (a.mem.Some? && (a.mem.value.Active() ==> a.mem.value.Pending? && attempt == 1))
    ensures Inv(SettleAttempt(a, attempt, r)) && SettleAttempt(a, attempt, r).slot == a.slot
  {
    ReceiptPlaceInv(a, SettleAttempt(a, attempt, r).receipt);
  }

  lemma AfterSettleInv(b: Session, v: Verdict)
    requires Inv(b) && b.receipt.Settling? && b.queue == QueueOff
    requires v.Again? ==> TransitionOk(v.t, b.slot) && v.t.expected == b.receipt.rt.expected && v.t.next == b.receipt.rt.next
    requires v == Returned(true) ==> b.mem == Some(b.receipt.rt.next)
    requires v == Returned(false) ==>
      b.slot.Erased? || (b.mem.Some? && (b.mem.value.Active() ==> b.mem.value.Pending? && b.receipt.attempt == 0))
    ensures Inv(AfterSettle(b, b.receipt, v)) && AfterSettle(b, b.receipt, v).slot == b.slot
  {
    if v == Returned(false) { SettleAttemptInv(b, b.receipt.attempt + 1, b.receipt.receipt); }
  }

  lemma ResumeSettleInv(a: Session)
    requires Inv(a) && a.receipt.Settling? && Awaiting(a.receipt.rt)
    ensures Inv(ResumeSettle(a)) && ResumeSettle(a).slot == a.slot
  {
    var r := ResumeTransition(a.receipt.rt);
    ResumeTransitionOk(a.receipt.rt, a.slot);
    LearnInv(a, r);
    AfterSettleInv(Learn(a, r), r.verdict);
  }

  lemma FinalObservedInv(a: Session, row: Row)
    requires Inv(a) && a.completion.Finalizing? && row.claim.Some? && RowOk(row)
    requires row.claim.value == a.completion.claim && Below(row.claim.value, a.slot)
    ensures Inv(FinalObserved(a, row)) && FinalObserved(a, row).slot == a.slot
  {
    assert a.queue == QueueOff;
    assert Inv(a.(mem := row.claim));
  }

  lemma ResumeFinalInv(a: Session)
    requires Inv(a) && a.completion.Finalizing?
    ensures Inv(ResumeFinal(a)) && ResumeFinal(a).slot == a.slot
  {
    hide Inv, FinalObserved;
    match a.completion.phase
    case FinalReadReplied(ReadRow(row)) =>
      FinalRowFacts(a, row);
      if row.claim.Some? { FinalObservedInv(a, row); } else { CompletionInv(a, CompletionOff); }
    case _ => FinalRepliedInv(a);
  }

  /** What completion may rely on of a row that it has read. */
  lemma FinalRowFacts(a: Session, row: Row)
    requires Inv(a) && a.completion.Finalizing? && a.completion.phase == FinalReadReplied(ReadRow(row))
    ensures RowOk(row) && (row.claim.Some? ==> row.claim.value == a.completion.claim && Below(row.claim.value, a.slot))
  {}

  lemma FinalRepliedInv(a: Session)
    requires Inv(a) && a.completion.Finalizing? && !(a.completion.phase.FinalReadReplied? && a.completion.phase.finalRead.ReadRow?)
    ensures Inv(ResumeFinal(a)) && ResumeFinal(a).slot == a.slot
  {
    hide Inv;
    match a.completion.phase {
      case FinalReplied(CasTrue) => FinishInv(a);
      case FinalReplied(_) => FinalAgainInv(a); CompletionInv(a, Finalizing(a.completion.claim, FinalRead));
      case FinalReadReplied(ReadError) => FinalAgainInv(a); CompletionInv(a, HooksSucceeded);
      case FinalReadReplied(ReadNone) => CompletionInv(a, CompletionOff);
      case _ =>
    }
  }

  lemma FinalAgainInv(a: Session)
    requires Inv(a) && a.completion.Finalizing?
    ensures CompletionOk(a.(completion := HooksSucceeded)) && CompletionOk(a.(completion := Finalizing(a.completion.claim, FinalRead)))
  {}

  lemma FinishInv(a: Session)
    requires Inv(a) && a.completion.Finalizing? && SaysFinished(a.completion.phase)
    ensures Inv(Finish(a).(completion := CompletionOff))
  {}

  lemma CompletionInv(a: Session, c: CompletionTask)
    requires Inv(a) && CompletionOk(a.(completion := c)) && a.completion != CompletionOff
    ensures Inv(a.(completion := c))
  {}

  lemma FinalCasInv(a: Session, f: Fault)
    requires Inv(a)
    ensures Inv(ApplyFinalCas(a, f)) && SlotLeq(a.slot, ApplyFinalCas(a, f).slot)
  {}

  lemma RestartInv(a: Session)
    requires Inv(a) && !a.up
    ensures Inv(RestartSession(a)) && RestartSession(a).slot == a.slot
  {}

  lemma CrashInv(a: Session)
    requires Inv(a)
    ensures Inv(CrashSession(a)) && CrashSession(a).slot == a.slot
  {}

  predicate QueueEvent(e: Event) { e.CreateReturn? || e.TakeFromQueue? || e.Signed? }

  predicate BroadcastEvent(e: Event) { e.BroadcastCheck? || e.BroadcastSent? || e.BroadcastResume? }

  predicate CompletionEvent(e: Event) { e.CompletionCheck? || e.HooksEnd? || e.StartFinalize? || e.FinalReadStep? }

  predicate UnclaimedEvent(e: Event) { e.Insert? || e.MakeClaimable? || e.FailUnclaimed? || e.Timeout? }

  lemma TakeInv(a: Session, ready: bool, nonce: nat)
    requires Inv(a)
    ensures Inv(Apply(a, TakeFromQueue(ready, nonce))) && Apply(a, TakeFromQueue(ready, nonce)).slot == a.slot
  {}

  lemma QueueEventInv(a: Session, e: Event)
    requires Inv(a) && QueueEvent(e)
    ensures Inv(Apply(a, e)) && Apply(a, e).slot == a.slot
  {
    if e.TakeFromQueue? { TakeInv(a, e.ready, e.nonce); }
  }

  lemma BroadcastInv(a: Session, b: BroadcastTask)
    requires Inv(a) && BroadcastOk(a.(broadcast := b)) && (b != BroadcastOff ==> a.broadcast != BroadcastOff)
    ensures Inv(a.(broadcast := b))
  {
    hide TransitionOk, SlotOk, ReadOk, Below, IsConfirmed, OneOf, SaysFinished;
  }

  /** The signed transaction of an undecided claim in memory is the one that is stored. */
  lemma MemoryPrepared(a: Session)
    requires Inv(a) && a.mem.Some? && a.mem.value.Active()
    ensures a.prepared == Some(a.mem.value.tx)
  {}

  lemma BroadcastCheckInv(a: Session)
    requires Inv(a)
    ensures Inv(Apply(a, BroadcastCheck)) && Apply(a, BroadcastCheck).slot == a.slot
  {
    hide Inv;
    if a.broadcast == BroadcastLoop {
      if StillActive(a) {
        MemoryPrepared(a);
        BroadcastInv(a, BroadcastSend(a.mem.value.tx));
      } else {
        BroadcastInv(a, BroadcastOff);
      }
    }
  }

  lemma BroadcastSentInv(a: Session, ack: bool)
    requires Inv(a)
    ensures Inv(Apply(a, BroadcastSent(ack))) && Apply(a, BroadcastSent(ack)).slot == a.slot
  {}

  lemma BroadcastResumeInv(a: Session)
    requires Inv(a)
    ensures Inv(Apply(a, BroadcastResume)) && Apply(a, BroadcastResume).slot == a.slot
  {
    if a.broadcast.BroadcastReplied? && a.broadcast.acknowledged && a.mem.value.Prepared? {
      var p := a.mem.value;
      MarkInv(a, Transition(p, Pending(p.claimIdx, p.claimTime, p.tx), CasCall));
    }
  }

  lemma MarkInv(a: Session, t: Transition)
    requires Inv(a) && a.broadcast.BroadcastReplied?
    requires TransitionOk(t, a.slot) && t.expected.Prepared? && t.next.Pending? && t.phase.CasCall?
    ensures Inv(a.(broadcast := BroadcastMark(t)))
  {}

  lemma BroadcastEventInv(a: Session, e: Event)
    requires Inv(a) && BroadcastEvent(e)
    ensures Inv(Apply(a, e)) && Apply(a, e).slot == a.slot
  {
    match e
    case BroadcastCheck => BroadcastCheckInv(a);
    case BroadcastSent(ack) => BroadcastSentInv(a, ack);
    case BroadcastResume => BroadcastResumeInv(a);
  }

  /** Moving the completion task on from a place where it runs. */
  lemma CompletionPlaceInv(a: Session, p: CompletionTask)
    requires Inv(a) && a.completion != CompletionOff && CompletionOk(a.(completion := p))
    ensures Inv(a.(completion := p))
  {}

  lemma CompletionCheckInv(a: Session)
    requires Inv(a)
    ensures Inv(Apply(a, CompletionCheck)) && Apply(a, CompletionCheck).slot == a.slot
  {
    if a.completion == CompletionLoop { CompletionPlaceInv(a, Apply(a, CompletionCheck).completion); }
  }

  lemma HooksInv(a: Session, ok: bool)
    requires Inv(a)
    ensures Inv(Apply(a, HooksEnd(ok))) && Apply(a, HooksEnd(ok)).slot == a.slot
  {}

  lemma StartFinalizeInv(a: Session)
    requires Inv(a)
    ensures Inv(Apply(a, StartFinalize)) && Apply(a, StartFinalize).slot == a.slot
  {}

  lemma FinalReadInv(a: Session, fails: bool)
    requires Inv(a)
    ensures Inv(Apply(a, FinalReadStep(fails))) && Apply(a, FinalReadStep(fails)).slot == a.slot
  {}

  lemma CompletionEventInv(a: Session, e: Event)
    requires Inv(a) && CompletionEvent(e)
    ensures Inv(Apply(a, e)) && Apply(a, e).slot == a.slot
  {
    match e
    case StartFinalize => StartFinalizeInv(a);
    case FinalReadStep(fails) => FinalReadInv(a, fails);
    case CompletionCheck => CompletionCheckInv(a);
    case HooksEnd(ok) => HooksInv(a, ok);
  }

  lemma UnclaimedEventInv(a: Session, e: Event)
    requires Inv(a) && Allowed(e) && UnclaimedEvent(e)
    ensures Inv(Apply(a, e)) && SlotLeq(a.slot, Apply(a, e).slot)
  {
    var s := Apply(a, e).slot;
    if s != a.slot { EnvironmentInv(a, s); }
  }

  lemma StepInv(a: Session, e: Event)
    requires Inv(a) && Allowed(e)
    ensures Inv(Apply(a, e))
    ensures SlotLeq(a.slot, Apply(a, e).slot)
  {
    if QueueEvent(e) { QueueEventInv(a, e); }
    else if BroadcastEvent(e) { BroadcastEventInv(a, e); }
    else if CompletionEvent(e) { CompletionEventInv(a, e); }
    else if UnclaimedEvent(e) { UnclaimedEventInv(a, e); }
    else if TransitionEvent(e) { TransitionEventInv(a, e); }
    else { OtherEventInv(a, e); }
  }

  predicate TransitionEvent(e: Event) { e.Cas? || e.Read? || e.Resume? }

  lemma CasInv(a: Session, task: Task, f: Fault)
    requires Inv(a)
    ensures Inv(ApplyCas(a, task, f)) && SlotLeq(a.slot, ApplyCas(a, task, f).slot)
  {
    match task
    case QueueT => CasQueueInv(a, f);
    case BroadcastT => CasBroadcastInv(a, f);
    case ReceiptT => CasReceiptInv(a, f);
  }

  lemma ReadForward(a: Session, task: Task, fails: bool)
    requires Inv(a)
    ensures Inv(ApplyRead(a, task, fails)) && SlotLeq(a.slot, ApplyRead(a, task, fails).slot)
  {
    ReadInv(a, task, fails);
  }

  lemma TransitionEventInv(a: Session, e: Event)
    requires Inv(a) && TransitionEvent(e)
    ensures Inv(Apply(a, e)) && SlotLeq(a.slot, Apply(a, e).slot)
  {
    match e
    case Cas(task, f) => CasInv(a, task, f);
    case Read(task, fails) => ReadForward(a, task, fails);
    case Resume(task) => ResumeInv(a, task);
  }

  lemma ResumeInv(a: Session, task: Task)
    requires Inv(a)
    ensures Inv(ApplyResume(a, task)) && SlotLeq(a.slot, ApplyResume(a, task).slot)
  {
    match task
    case QueueT => if a.queue.QueueWriting? && Awaiting(a.queue.qt) { ResumeQueueInv(a); }
    case BroadcastT => if a.broadcast.BroadcastMark? && Awaiting(a.broadcast.bt) { ResumeBroadcastInv(a); }
    case ReceiptT => if a.receipt.Settling? && Awaiting(a.receipt.rt) { ResumeSettleInv(a); }
  }

  lemma OtherEventInv(a: Session, e: Event)
    requires Inv(a)
    requires !QueueEvent(e) && !BroadcastEvent(e) && !CompletionEvent(e) && !UnclaimedEvent(e) && !TransitionEvent(e)
    ensures Inv(Apply(a, e)) && SlotLeq(a.slot, Apply(a, e).slot)
  {
    match e
    case Cleanup(candidate) => CleanupInv(a, candidate);
    case CreateWrite(idx, time, amount, f) => CreateInv(a, idx, time, amount, f);
    case FinalCas(f) => FinalCasInv(a, f);
    case FinalResume => if a.completion.Finalizing? { ResumeFinalInv(a); }
    case ReceiptCheck => ReceiptCheckInv(a);
    case ReceiptFailed => ReceiptFailedInv(a);
    case ReceiptArrived(r) => if a.receipt.ReceiptWatch? { SettleAttemptInv(a, 0, r); }
    case Crash => CrashInv(a);
    case Restart => if !a.up { RestartInv(a); }
  }

  lemma ReceiptFailedInv(a: Session)
    requires Inv(a)
    ensures Inv(Apply(a, ReceiptFailed)) && Apply(a, ReceiptFailed).slot == a.slot
  {
    if a.receipt.ReceiptWatch? { ReceiptPlaceInv(a, ReceiptLoop); }
  }

  lemma ReceiptCheckInv(a: Session)
    requires Inv(a)
    ensures Inv(Apply(a, ReceiptCheck)) && Apply(a, ReceiptCheck).slot == a.slot
  {
    if a.receipt == ReceiptLoop { ReceiptPlaceInv(a, Apply(a, ReceiptCheck).receipt); }
  }
}
