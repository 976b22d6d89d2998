/** How a session object ends (src/session/FaucetSession.ts): its save chain and its terminal
    operations run concurrently; database calls can fail before or after they took effect, and
    other parties move the row. Executing a call and reading its answer are separate events. */
module SessionEnd {
  import opened Wrappers

  datatype Status = Starting | Running | Committing | Claimable | Claiming | Finished | Failed

  /** isTerminalStatus. */
  predicate Terminal(s: Status) { s == Claimable || s == Claiming || s == Finished || s == Failed }

  /** What sessionDataEquals compares; content stands for the columns besides the status. */
  datatype Data = Data(status: Status, content: nat)

  datatype Stored = Stored(data: Data, claimed: bool)

  /** Gone is a row deleted by clean-up. */
  datatype DbRow = NoRow | Present(stored: Stored) | Gone

  datatype Persistence = PAbsent | PUncertain(snapshot: Data) | PDurable

  datatype Failure =
    | FNone
    | FPreparing
    | FPending(expected: Status, already: bool, data: Data)
    | FComplete

  /** The await a task stands at. */
  datatype Pc =
    | RcInsert(snapshot: Data, data: Data)
    | InsertSent(data: Data)
    | RcAfter(snapshot: Data)
    | UpdateSent(data: Data)
    | UpdateSync
    | RcFail(snapshot: Data, f: Failure)
    | FailSent(f: Failure)
    | FailRead(f: Failure)
    | Callbacks
    | CompleteHooks
    | CompleteWait
    | ClaimSent(data: Data)
    | ClaimRead(data: Data)
    | ClaimSync
    | FailHooks(expected: Status, already: bool)
    | FailWait
    | TimeoutSave
    | TimeoutSent(content: nat)
    | TimeoutRead
    | TimeoutCheck
    | TimeoutSync

  datatype Answer = Done(matched: bool) | Threw | Read(row: Option<Stored>)

  datatype Task = Idle | At(pc: Pc, answer: Option<Answer>)

  datatype Who = Saver | Actor

  /** save runs the persistence chain, act the terminal operation (one at a time under
      runRewardOperation). held and ran are history: the statuses the row has held, and how often
      the registered start rollbacks were taken out and run. */
  datatype Session = Session(
    status: Status, content: nat, persistence: Persistence, failure: Failure, disposed: bool, released: bool,
    rollbacks: nat, ran: nat, save: Task, act: Task, row: DbRow, held: set<Status>)

  const TIMEOUT_CONTENT: nat := 0

  function TaskOf(s: Session, w: Who): Task { if w == Saver then s.save else s.act }

  function Put(s: Session, w: Who, t: Task): Session { if w == Saver then s.(save := t) else s.(act := t) }

  function Await(s: Session, w: Who, pc: Pc): Session { Put(s, w, At(pc, None)) }

  function Snapshot(s: Session): Data { Data(s.status, s.content) }

  predicate Equals(r: Option<Stored>, d: Data) { r.Some? && r.value.data == d && !r.value.claimed }

  predicate TerminalRow(r: Option<Stored>) { r.Some? && Terminal(r.value.data.status) }

  // ------------------------------------------------------------------ shared procedures

  /** synchronizeTerminalState with an observed row. */
  function Synchronize(s: Session, r: Stored): Session {
    s.(status := r.data.status, content := r.data.content, persistence := PDurable, failure := FComplete, released := true, disposed := true)
  }

  function FinalizeFailed(s: Session): Session { s.(failure := FComplete, released := true, disposed := true) }

  /** runStartRollbacks. */
  function RunRollbacks(s: Session, w: Who): Session {
    if s.rollbacks == 0 || !s.failure.FComplete? || s.persistence.PUncertain? then Put(s, w, Idle)
    else if s.persistence.PDurable? && s.status != Failed then
      Put(if Terminal(s.status) then s.(rollbacks := 0) else s, w, Idle)
    else Await(s.(rollbacks := 0, ran := s.ran + 1), w, Callbacks)
  }

  /** persistFailedSession up to its first await, and on. */
  function PersistFailed(s: Session, w: Who): Session {
    if !s.failure.FPending? then RunRollbacks(s, w)
    else if s.failure.already then RunRollbacks(FinalizeFailed(s.(persistence := PDurable)), w)
    else match s.persistence
      case PAbsent => RunRollbacks(FinalizeFailed(s), w)
      case PUncertain(snapshot) => Await(s, w, RcFail(snapshot, s.failure))
      case PDurable => Await(s, w, FailSent(s.failure))
  }

  /** An error out of persistFailedSession: the chain rejects; a failing finish still runs the
      rollbacks when the failure is complete. */
  function FailThrow(s: Session, w: Who): Session { if w == Saver then Put(s, w, Idle) else RunRollbacks(s, w) }

  /** finishFailedSession. */
  function BeginFail(s: Session, already: bool, hooks: bool, persisted: Option<Status>): Session {
    if s.disposed then s.(act := Idle)
    else if s.failure.FNone? then
      var expected := if persisted.Some? then persisted.value else if s.status == Committing then Running else s.status;
      var t := s.(failure := FPreparing, status := Failed);
      if hooks && (s.status == Running || s.status == Committing) then Await(t, Actor, FailHooks(expected, already))
      else FailPending(t, expected, already)
    else Await(s, Actor, FailWait)
  }

  function FailPending(s: Session, expected: Status, already: bool): Session {
    Await(s.(failure := FPending(expected, already, Snapshot(s))), Actor, FailWait)
  }

  function CatchComplete(s: Session): Session {
    BeginFail(s, false, false, Some(if s.status == Committing then Running else Claimable))
  }

  function CommitClaimable(s: Session): Session {
    s.(status := Claimable, persistence := PDurable, released := true, disposed := true, act := Idle)
  }

  // ------------------------------------------------------------------ the database

  predicate IsWait(pc: Pc) { pc.CompleteWait? || pc.FailWait? }

  predicate IsHook(pc: Pc) { pc.CompleteHooks? || pc.FailHooks? || pc.Callbacks? || pc.TimeoutSave? }

  function RowNow(s: Session): Option<Stored> { if s.row.Present? then Some(s.row.stored) else None }

  predicate RowIs(s: Session, expected: Status) {
    s.row.Present? && s.row.stored.data.status == expected && !s.row.stored.claimed
  }

  function Store(s: Session, d: Data): Session { s.(row := Present(Stored(d, false)), held := s.held + {d.status}) }

  /** The write a statement makes when its guard matches, else None. */
  function Write(s: Session, pc: Pc): Option<Data> {
    match pc
    case InsertSent(d) => if s.row.NoRow? then Some(d) else None
    case UpdateSent(d) => if RowIs(s, Running) then Some(d) else None
    case FailSent(f) => if f.FPending? && RowIs(s, f.expected) then Some(f.data) else None
    case ClaimSent(d) => if RowIs(s, Running) then Some(d) else None
    case TimeoutSent(content) =>
      if RowIs(s, Running) && s.row.stored.data.content == content then Some(Data(Failed, TIMEOUT_CONTENT)) else None
    case _ => None
  }

  predicate IsWrite(pc: Pc) { pc.InsertSent? || pc.UpdateSent? || pc.FailSent? || pc.ClaimSent? || pc.TimeoutSent? }

  /** The call of w takes place, with the given fault. */
  function Execute(s: Session, w: Who, fault: Fault): Session
    requires TaskOf(s, w).At?
  {
    var pc := TaskOf(s, w).pc;
    if IsWrite(pc) then
      var d := Write(s, pc);
      var t := if d.Some? && fault != NoEffect then Store(s, d.value) else s;
      var answer := if fault != Ack || (pc.InsertSent? && d.None?) then Threw else Done(d.Some?);
      Put(t, w, At(pc, Some(answer)))
    else if IsHook(pc) || IsWait(pc) then Put(s, w, At(pc, Some(if fault == Ack || IsWait(pc) then Done(true) else Threw)))
    else Put(s, w, At(pc, Some(if fault == Ack then Read(RowNow(s)) else Threw)))
  }

  // ------------------------------------------------------------------ continuing after an await

  function ContinueSave(s: Session, pc: Pc, a: Answer): Session {
    match pc
    case RcInsert(snapshot, d) =>
      if !a.Read? then s.(save := Idle)
      else if a.row.None? then Await(s.(persistence := PUncertain(d)), Saver, InsertSent(d))
      else if Equals(a.row, snapshot) then s.(persistence := PDurable, save := Idle)
      else if TerminalRow(a.row) then Synchronize(s, a.row.value).(save := Idle)
      else s.(save := Idle)
    case InsertSent(d) =>
      if a == Done(true) then s.(persistence := PDurable, save := Idle)
      else if s.persistence.PUncertain? then Await(s, Saver, RcAfter(s.persistence.snapshot)) else s.(save := Idle)
    case RcAfter(d) =>
      if !a.Read? then s.(save := Idle)
      else if a.row.None? then s.(persistence := PAbsent, save := Idle)
      else if Equals(a.row, d) then s.(persistence := PDurable, save := Idle)
      else if TerminalRow(a.row) then Synchronize(s, a.row.value).(save := Idle)
      else s.(save := Idle)
    case UpdateSent(d) =>
      if a == Done(false) then Await(s, Saver, UpdateSync) else s.(save := Idle)
    case UpdateSync =>
      if a.Read? && TerminalRow(a.row) then Synchronize(s, a.row.value).(save := Idle) else s.(save := Idle)
    case _ => ContinueFail(s, Saver, pc, a)
  }

  /** persistFailedSession after its awaits, in either task. */
  function ContinueFail(s: Session, w: Who, pc: Pc, a: Answer): Session {
    match pc
    case RcFail(snapshot, f) =>
      if !a.Read? then FailThrow(s, w)
      else if a.row.None? then RunRollbacks(FinalizeFailed(s.(persistence := PAbsent)), w)
      else if Equals(a.row, snapshot) then Await(s.(persistence := PDurable), w, FailSent(f))
      else if TerminalRow(a.row) then RunRollbacks(Synchronize(s, a.row.value), w)
      else FailThrow(s, w)
    case FailSent(f) =>
      if a == Done(true) then RunRollbacks(FinalizeFailed(s.(persistence := PDurable)), w) else Await(s, w, FailRead(f))
    case FailRead(f) =>
      if !a.Read? then FailThrow(s, w)
      else if f.FPending? && Equals(a.row, f.data) then RunRollbacks(FinalizeFailed(s.(persistence := PDurable)), w)
      else if TerminalRow(a.row) then RunRollbacks(Synchronize(s, a.row.value), w)
      else FailThrow(s, w)
    case _ => Put(s, w, Idle)
  }

  function ContinueAct(s: Session, pc: Pc, a: Answer): Session {
    match pc
    case CompleteHooks => if a == Done(true) then Await(s, Actor, CompleteWait) else CatchComplete(s)
    case CompleteWait => Await(s, Actor, ClaimSent(Data(Claimable, s.content)))
    case ClaimSent(d) =>
      if a == Done(true) then CommitClaimable(s)
      else if a == Threw then Await(s, Actor, ClaimRead(d)) else Await(s, Actor, ClaimSync)
    case ClaimRead(d) =>
      if !a.Read? then CatchComplete(s)
      else if Equals(a.row, d) then CommitClaimable(s)
      else if TerminalRow(a.row) then Synchronize(s, a.row.value).(act := Idle)
      else CatchComplete(s)
    case ClaimSync =>
      if a.Read? && TerminalRow(a.row) then Synchronize(s, a.row.value).(act := Idle) else CatchComplete(s)
    case FailHooks(expected, already) => FailPending(s, expected, already)
    case FailWait => PersistFailed(s, Actor)
    case TimeoutSave =>
      if a == Done(true) && s.status == Running then Await(s, Actor, TimeoutSent(s.content)) else s.(act := Idle)
    case TimeoutSent(_) =>
      if a == Done(true) then BeginFail(s, true, true, None)
      else if a == Threw then Await(s, Actor, TimeoutRead) else Await(s, Actor, TimeoutCheck)
    case TimeoutRead =>
      if !a.Read? then s.(act := Idle)
      else if Equals(a.row, Data(Failed, TIMEOUT_CONTENT)) then BeginFail(s.(persistence := PDurable), true, true, None)
      else if TerminalRow(a.row) then Synchronize(s, a.row.value).(act := Idle)
      else s.(act := Idle)
    case TimeoutCheck =>
      if a.Read? && a.row.Some? && a.row.value.data.status != Running then Await(s, Actor, TimeoutSync) else s.(act := Idle)
    case TimeoutSync =>
      if a.Read? && TerminalRow(a.row) then Synchronize(s, a.row.value).(act := Idle) else s.(act := Idle)
    case _ => ContinueFail(s, Actor, pc, a)
  }

  // ------------------------------------------------------------------ events

  datatype Event =
    | Register
    | Activate
    | ForgetRollbacks
    | Change(content: nat)
    | Save(dirty: bool)
    | Complete(enough: bool)
    | Fail
    | TimeOut
    | Call(who: Who, fault: Fault)
    | Resume(who: Who)
    | Outside(next: Stored)
    | Cleanup

  /** saveSession's turn in the chain: persistSession. */
  function StartSave(s: Session, dirty: bool): Session {
    if s.failure.FPending? then PersistFailed(s, Saver)
    else if s.failure.FComplete? then RunRollbacks(s, Saver)
    else if !dirty || s.disposed || s.status != Running then s
    else
      var d := Snapshot(s);
      match s.persistence
      case PUncertain(snapshot) => Await(s, Saver, RcInsert(snapshot, d))
      case PAbsent => Await(s.(persistence := PUncertain(d)), Saver, InsertSent(d))
      case PDurable => Await(s, Saver, UpdateSent(d))
  }

  /** The save chain is inside persistRunningSession. */
  predicate SavingRunning(s: Session) {
    s.save.At? && (s.save.pc.RcInsert? || s.save.pc.InsertSent? || s.save.pc.RcAfter? || s.save.pc.UpdateSent? || s.save.pc.UpdateSync?)
  }

  /** What others may do to the row: claim it, decide the claim, time it out. */
  predicate OutsideMove(a: Stored, b: Stored) {
    || (a.data.status == Claimable && !a.claimed && b == Stored(Data(Claiming, b.data.content), true))
    || (a.data.status == Claiming && b.claimed && (b.data.status == Finished || b.data.status == Failed))
    || ((a.data.status == Running || a.data.status == Claimable) && !a.claimed && b == Stored(Data(Failed, TIMEOUT_CONTENT), false))
  }

  predicate Enabled(s: Session, e: Event) {
    match e
    case Register => s.status == Starting
    case Activate => s.status == Starting && s.act.Idle?
    case ForgetRollbacks => s.status != Starting
    case Change(_) => true
    case Save(_) => s.save.Idle?
    case Complete(_) => s.act.Idle? && s.status == Running
    case Fail => s.act.Idle?
    case TimeOut => s.act.Idle? && s.status == Running && !s.failure.FPending?
    case Call(w, _) =>
      TaskOf(s, w).At? && TaskOf(s, w).answer.None? && (IsWait(TaskOf(s, w).pc) ==> !SavingRunning(s))
    case Resume(w) => TaskOf(s, w).At? && TaskOf(s, w).answer.Some?
    case Outside(next) => s.row.Present? && OutsideMove(s.row.stored, next)
    case Cleanup =>
      s.row.Present? && (s.row.stored.data.status == Finished || s.row.stored.data.status == Failed)
      && s.disposed && s.save.Idle? && s.act.Idle?
  }

  function Apply(s: Session, e: Event): Session
    requires Enabled(s, e)
  {
    match e
    case Register => s.(rollbacks := s.rollbacks + 1)
    case Activate => s.(status := Running)
    case ForgetRollbacks => s.(rollbacks := 0)
    case Change(content) => s.(content := content)
    case Save(dirty) => StartSave(s, dirty)
    case Complete(enough) =>
      if enough then Await(s.(status := Committing), Actor, CompleteHooks) else BeginFail(s, false, true, None)
    case Fail => BeginFail(s, false, true, None)
    case TimeOut => Await(s, Actor, TimeoutSave)
    case Call(w, fault) => Execute(s, w, fault)
    case Resume(w) =>
      if w == Saver then ContinueSave(s, s.save.pc, s.save.answer.value) else ContinueAct(s, s.act.pc, s.act.answer.value)
    case Outside(next) => s.(row := Present(next), held := s.held + {next.data.status})
    case Cleanup => s.(row := Gone)
  }

  /** A session being started, and one restored from its running row. */
  function Fresh(content: nat): Session {
    Session(Starting, content, PAbsent, FNone, false, false, 0, 0, Idle, Idle, NoRow, {})
  }

  function Restored(content: nat): Session {
    Session(Running, content, PDurable, FNone, false, false, 0, 0, Idle, Idle, Present(Stored(Data(Running, content), false)), {Running})
  }
}
