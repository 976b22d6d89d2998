/** In every run of a session object: what it ends as, that its admission is released, and that
    start rollbacks run at most once and only when the durable end is a failure. */
module SessionEndProof {
  import opened Wrappers
  import opened SessionEnd

  predicate DbStatus(s: Status) { s == Running || Terminal(s) }

  /** The row, and what it has been. A failed row stays failed. */
  predicate RowOk(s: Session) {
    && (s.row.NoRow? <==> s.held == {})
    && (s.row.Present? ==> s.row.stored.data.status in s.held)
    && (forall x :: x in s.held ==> DbStatus(x))
    && (Failed in s.held && s.row.Present? ==> s.row.stored.data.status == Failed)
    && (s.row.Present? && s.row.stored.claimed ==> s.row.stored.data.status in {Claiming, Finished, Failed})
    && (s.row.Present? && s.row.stored.data.status == Running ==> s.held == {Running})
  }

  /** The end state of a disposed session: a status its row has held, or FAILED without a row. */
  predicate EndOk(s: Session) { Terminal(s.status) && (s.status in s.held || (s.status == Failed && s.row.NoRow?)) }

  predicate RunningRow(s: Session) { s.row.Present? && s.row.stored.data.status == Running }

  predicate FailureOk(s: Session, f: Failure) {
    f.FPending? ==>
      && (s.disposed || f.data.status == Failed)
      && (f.already ==> Failed in s.held)
      && (f.expected == Starting || f.expected == Running)
  }

  predicate MemoryOk(s: Session) {
    && (s.persistence.PAbsent? ==> s.row.NoRow?)
    && (s.persistence.PDurable? ==> !s.row.NoRow?)
    && FailureOk(s, s.failure)
    && (!s.failure.FNone? && !s.disposed ==> s.status == Failed)
    && (s.failure.FComplete? ==> s.disposed)
    && (s.disposed ==> s.released && EndOk(s) && !RunningRow(s))
    && (s.disposed && s.row.NoRow? ==> !SavingRunning(s))
    && (s.status == Starting ==> s.failure.FNone?)
    && (s.failure.FNone? && !s.disposed ==> s.status == Starting || s.status == Running || s.status == Committing)
    && (s.disposed ==> !s.persistence.PUncertain?)
    && (s.row.Gone? ==> s.disposed)
  }

  predicate RollbacksOk(s: Session) {
    && s.ran <= 1
    && (s.ran > 0 ==> s.rollbacks == 0 && s.status != Starting && (Failed in s.held || (s.row.NoRow? && s.disposed)))
  }

  predicate Failing(pc: Pc) { pc.RcFail? || pc.FailSent? || pc.FailRead? || pc.Callbacks? }

  predicate Completing(pc: Pc) { pc.CompleteHooks? || pc.CompleteWait? || pc.ClaimSent? || pc.ClaimRead? || pc.ClaimSync? }

  predicate SaverPc(pc: Pc) { Failing(pc) || pc.RcInsert? || pc.InsertSent? || pc.RcAfter? || pc.UpdateSent? || pc.UpdateSync? }

  /** What a task standing at pc may rely on. */
  predicate PcOk(s: Session, pc: Pc) {
    match pc
    case RcInsert(_, d) => d.status == Running && !s.persistence.PAbsent? && !s.row.Gone?
    case InsertSent(d) => d.status == Running && !s.persistence.PAbsent? && !s.row.Gone?
    case RcAfter(_) => !s.persistence.PAbsent? && !s.row.Gone?
    case UpdateSent(d) => d.status == Running
    case RcFail(_, f) => f.FPending? && FailureOk(s, f) && !s.failure.FNone? && !s.row.Gone?
    case FailSent(f) => f.FPending? && FailureOk(s, f) && !s.row.NoRow? && !s.failure.FNone?
    case FailRead(f) => f.FPending? && FailureOk(s, f) && !s.row.NoRow? && !s.failure.FNone?
    case Callbacks => s.disposed
    case ClaimSent(d) => d.status == Claimable
    case ClaimRead(d) => d.status == Claimable
    case FailHooks(expected, already) =>
      (already ==> Failed in s.held) && (expected == Starting || expected == Running) && !s.failure.FNone?
    case FailWait => !s.failure.FNone?
    case _ => true
  }

  /** What an answer that has not been read yet says about the row now. */
  predicate AnswerOk(s: Session, pc: Pc, a: Answer) {
    && (a.Read? && a.row.Some? ==> a.row.value.data.status in s.held)
    && (a == Read(None) && (pc.RcInsert? || pc.RcAfter? || pc.RcFail?) ==> s.row.NoRow?)
    && (a == Done(true) ==>
          && (pc.InsertSent? ==> !s.row.NoRow?)
          && (pc.FailSent? || pc.TimeoutSent? ==> Failed in s.held)
          && (pc.ClaimSent? ==> Claimable in s.held))
  }

  predicate TaskOk(s: Session, t: Task) {
    t.At? ==> PcOk(s, t.pc) && (t.answer.Some? ==> AnswerOk(s, t.pc, t.answer.value))
  }

  /** The two tasks exclude each other where it matters. */
  predicate Excluded(s: Session) {
    && (s.save.At? ==> SaverPc(s.save.pc))
    && (s.act.At? && (Failing(s.act.pc) || (IsWait(s.act.pc) && s.act.answer.Some?)) ==> !SavingRunning(s))
    && (s.act.At? && Completing(s.act.pc) ==> s.status == Committing || s.disposed)
    && (s.act.At? ==> s.status != Starting)
    && (s.act.At? ==> !(s.act.pc.RcInsert? || s.act.pc.InsertSent? || s.act.pc.RcAfter? || s.act.pc.UpdateSent? || s.act.pc.UpdateSync?))
  }

  predicate Inv(s: Session) {
    RowOk(s) && MemoryOk(s) && RollbacksOk(s) && TaskOk(s, s.save) && TaskOk(s, s.act) && Excluded(s)
  }

  // ------------------------------------------------------------------ shared procedures

  /** s with task w taken out of its await. */
  function Out(s: Session, w: Who): Session { Put(s, w, Idle) }

  /** Synchronizing with a terminal row that has been held. */
  lemma SynchronizeKeeps(s: Session, r: Stored, w: Who)
    requires Inv(Out(s, w)) && r.data.status in s.held && Terminal(r.data.status)
    ensures Inv(Out(Synchronize(s, r), w)) && Synchronize(s, r).disposed
  {}

  /** Finalizing a failure that is durable, or that never had a row. */
  lemma FinalizeKeeps(s: Session, w: Who)
    requires Inv(Out(s, w)) && (s.status == Failed || s.disposed)
    requires !s.persistence.PUncertain?
    requires Failed in s.held || s.disposed || (s.row.NoRow? && !SavingRunning(Out(s, w)))
    ensures Inv(Out(FinalizeFailed(s), w))
  {}

  lemma RollbacksKeep(s: Session, w: Who)
    requires Inv(Out(s, w)) && (w == Actor ==> !SavingRunning(s) && s.status != Starting)
    ensures Inv(RunRollbacks(s, w))
  {}

  /** Where a task may go to stand. */
  predicate MayStand(s: Session, w: Who, pc: Pc) {
    && PcOk(s, pc)
    && (w == Saver ==> SaverPc(pc) && !(pc.RcInsert? || pc.InsertSent? || pc.RcAfter? || pc.UpdateSent? || pc.UpdateSync?))
    && (w == Actor ==>
          && s.status != Starting
          && !(pc.RcInsert? || pc.InsertSent? || pc.RcAfter? || pc.UpdateSent? || pc.UpdateSync?)
          && (Failing(pc) ==> !SavingRunning(s))
          && (Completing(pc) ==> s.status == Committing || s.disposed))
  }

  lemma StandKeeps(s: Session, w: Who, pc: Pc)
    requires Inv(Out(s, w)) && MayStand(s, w, pc)
    ensures Inv(Await(s, w, pc))
  {}

  /** What a pending failure finds when it is to be persisted. */
  lemma PendingFacts(s: Session, w: Who)
    requires Inv(Out(s, w)) && (w == Actor ==> !SavingRunning(s) && s.status != Starting) && s.failure.FPending?
    ensures s.status == Failed || s.disposed
    ensures s.failure.already ==> Failed in s.held && Inv(Out(s.(persistence := PDurable), w))
    ensures s.persistence.PAbsent? ==> s.row.NoRow? && (!s.disposed ==> !SavingRunning(Out(s, w)))
    ensures s.persistence.PUncertain? ==> MayStand(s, w, RcFail(s.persistence.snapshot, s.failure))
    ensures s.persistence.PDurable? ==> MayStand(s, w, FailSent(s.failure))
  {}

  lemma FailPersistKeeps(s: Session, w: Who)
    requires Inv(Out(s, w)) && (w == Actor ==> !SavingRunning(s) && s.status != Starting && !s.failure.FNone?)
    ensures Inv(PersistFailed(s, w))
  {
    hide Inv, MayStand, FinalizeFailed;
    if !s.failure.FPending? {
      RollbacksKeep(s, w);
      return;
    }
    PendingFacts(s, w);
    if s.failure.already {
      EndKeeps(s.(persistence := PDurable), w);
    } else {
      match s.persistence
      case PAbsent => EndKeeps(s, w);
      case PUncertain(snapshot) => StandKeeps(s, w, RcFail(snapshot, s.failure));
      case PDurable => StandKeeps(s, w, FailSent(s.failure));
    }
  }

  lemma EndKeeps(s: Session, w: Who)
    requires Inv(Out(s, w)) && (s.status == Failed || s.disposed) && (w == Actor ==> !SavingRunning(s) && s.status != Starting)
    requires !s.persistence.PUncertain?
    requires Failed in s.held || s.disposed || (s.row.NoRow? && !SavingRunning(Out(s, w)))
    ensures Inv(RunRollbacks(FinalizeFailed(s), w))
  {
    FinalizeKeeps(s, w);
    RollbacksKeep(FinalizeFailed(s), w);
  }

  lemma PendingKeeps(s: Session, expected: Status, already: bool)
    requires Inv(Out(s, Actor)) && !s.failure.FNone? && s.status != Starting && (s.disposed || s.status == Failed)
    requires (already ==> Failed in s.held) && (expected == Starting || expected == Running)
    ensures Inv(FailPending(s, expected, already))
  {
    var t := s.(failure := FPending(expected, already, Snapshot(s)));
    assert Inv(Out(t, Actor));
    StandKeeps(t, Actor, FailWait);
  }

  lemma FailingNow(s: Session)
    requires Inv(Out(s, Actor)) && s.failure.FNone? && !s.disposed
    ensures s.status == Starting || s.status == Running || s.status == Committing
    ensures Inv(Out(s.(failure := FPreparing, status := Failed), Actor))
  {}

  lemma FailedAlready(s: Session)
    requires Inv(Out(s, Actor)) && !s.failure.FNone? && !s.disposed
    ensures s.status == Failed
  {}

  lemma BeginFailKeeps(s: Session, already: bool, hooks: bool, persisted: Option<Status>)
    requires Inv(Out(s, Actor)) && (already ==> Failed in s.held)
    requires persisted.Some? ==> s.disposed || persisted.value == Running
    ensures Inv(BeginFail(s, already, hooks, persisted))
  {
    hide Inv, Await, FailPending;
    if s.disposed {
    } else if s.failure.FNone? {
      var expected := if persisted.Some? then persisted.value else if s.status == Committing then Running else s.status;
      var t := s.(failure := FPreparing, status := Failed);
      FailingNow(s);
      if hooks && (s.status == Running || s.status == Committing) { StandKeeps(t, Actor, FailHooks(expected, already)); }
      else { PendingKeeps(t, expected, already); }
    } else {
      FailedAlready(s);
      StandKeeps(s, Actor, FailWait);
    }
  }

  // ------------------------------------------------------------------ the database side

  /** A statement whose guard matches moves the row forward. */
  lemma StoreKeeps(s: Session, w: Who, d: Data)
    requires Inv(s) && TaskOf(s, w).At? && TaskOf(s, w).answer.None? && IsWrite(TaskOf(s, w).pc)
    requires Write(s, TaskOf(s, w).pc) == Some(d)
    ensures Inv(Store(s, d))
  {}

  lemma AnswerKeeps(s: Session, w: Who, a: Answer)
    requires Inv(s) && TaskOf(s, w).At? && AnswerOk(s, TaskOf(s, w).pc, a)
    requires IsWait(TaskOf(s, w).pc) ==> !SavingRunning(s)
    ensures Inv(Put(s, w, At(TaskOf(s, w).pc, Some(a))))
  {}

  lemma WriteAnswer(s: Session, pc: Pc, d: Data)
    requires Inv(s) && IsWrite(pc) && PcOk(s, pc) && Write(s, pc) == Some(d)
    ensures AnswerOk(Store(s, d), pc, Done(true)) && TaskOf(Store(s, d), Saver) == s.save && TaskOf(Store(s, d), Actor) == s.act
  {}

  lemma ExecuteKeeps(s: Session, w: Who, fault: Fault)
    requires Inv(s) && Enabled(s, Call(w, fault))
    ensures Inv(Apply(s, Call(w, fault)))
  {
    var pc := TaskOf(s, w).pc;
    if IsWrite(pc) {
      var d := Write(s, pc);
      var answer := if fault != Ack || (pc.InsertSent? && d.None?) then Threw else Done(d.Some?);
      if d.Some? && fault != NoEffect {
        StoreKeeps(s, w, d.value);
        WriteAnswer(s, pc, d.value);
        AnswerKeeps(Store(s, d.value), w, answer);
      } else {
        AnswerKeeps(s, w, answer);
      }
    } else if IsHook(pc) || IsWait(pc) {
      AnswerKeeps(s, w, if fault == Ack || IsWait(pc) then Done(true) else Threw);
    } else {
      AnswerKeeps(s, w, if fault == Ack then Read(RowNow(s)) else Threw);
    }
  }

  lemma OutsideKeeps(s: Session, next: Stored)
    requires Inv(s) && Enabled(s, Outside(next))
    ensures Inv(Apply(s, Outside(next)))
  {}

  lemma CleanupKeeps(s: Session)
    requires Inv(s) && Enabled(s, Cleanup)
    ensures Inv(Apply(s, Cleanup))
  {}

  // ------------------------------------------------------------------ requests

  lemma RegisterKeeps(s: Session)
    requires Inv(s) && Enabled(s, Register)
    ensures Inv(s.(rollbacks := s.rollbacks + 1))
  {}

  lemma ForgetKeeps(s: Session)
    requires Inv(s) && Enabled(s, ForgetRollbacks)
    ensures Inv(s.(rollbacks := 0))
  {}

  lemma ChangeKeeps(s: Session, content: nat)
    requires Inv(s) && Enabled(s, Change(content))
    ensures Inv(s.(content := content))
  {}

  lemma ActivateKeeps(s: Session)
    requires Inv(s) && Enabled(s, Activate)
    ensures Inv(s.(status := Running))
  {}

  lemma TimeOutKeeps(s: Session)
    requires Inv(s) && Enabled(s, TimeOut)
    ensures Inv(Apply(s, TimeOut))
  {
    StandKeeps(s, Actor, TimeoutSave);
  }

  lemma RequestKeeps(s: Session, e: Event)
    requires Inv(s) && Enabled(s, e)
    requires e.Register? || e.Activate? || e.ForgetRollbacks? || e.Change? || e.TimeOut?
    ensures Inv(Apply(s, e))
  {
    hide Inv, Enabled;
    match e {
      case Activate => ActivateKeeps(s);
      case TimeOut => TimeOutKeeps(s);
      case Register => RegisterKeeps(s);
      case ForgetRollbacks => ForgetKeeps(s);
      case Change(content) => ChangeKeeps(s, content);
    }
  }

  lemma SaveKeeps(s: Session, dirty: bool)
    requires Inv(s) && Enabled(s, Save(dirty))
    ensures Inv(Apply(s, Save(dirty)))
  {
    hide Inv, PersistFailed, RunRollbacks;
    assert Out(s, Saver) == s;
    if s.failure.FPending? { FailPersistKeeps(s, Saver); }
    else if s.failure.FComplete? { RollbacksKeep(s, Saver); }
    else { SaveStarts(s, dirty); }
  }

  lemma SaveStarts(s: Session, dirty: bool)
    requires Inv(s) && Enabled(s, Save(dirty)) && !s.failure.FPending? && !s.failure.FComplete?
    ensures Inv(StartSave(s, dirty))
  {
    hide Inv, ActWaits, Await;
    assert Out(s, Saver) == s;
    if dirty && !s.disposed && s.status == Running {
      StartFacts(s, dirty);
      match s.persistence {
        case PUncertain(snapshot) => SaverStands(s, RcInsert(snapshot, Snapshot(s)));
        case PAbsent => InsertNext(s, Snapshot(s));
        case PDurable => SaverStands(s, UpdateSent(Snapshot(s)));
      }
    }
  }

  lemma StartFacts(s: Session, dirty: bool)
    requires Inv(s) && Enabled(s, Save(dirty)) && !s.disposed && s.status == Running
    ensures ActWaits(s) && !s.row.Gone? && (s.persistence.PAbsent? ==> s.row.NoRow?)
  {}

  lemma EndRequestKeeps(s: Session, e: Event)
    requires Inv(s) && Enabled(s, e) && (e.Complete? || e.Fail?)
    ensures Inv(Apply(s, e))
  {
    if e.Fail? || !e.enough { BeginFailKeeps(s, false, true, None); }
  }

  // ------------------------------------------------------------------ resuming

  predicate RunningPc(pc: Pc) { pc.RcInsert? || pc.InsertSent? || pc.RcAfter? || pc.UpdateSent? || pc.UpdateSync? }

  /** No terminal operation has passed its wait for the save chain. */
  predicate ActWaits(s: Session) { s.act.At? ==> !Failing(s.act.pc) && !(IsWait(s.act.pc) && s.act.answer.Some?) }

  lemma SaveFacts(s: Session)
    requires Inv(s) && s.save.At? && s.save.answer.Some?
    ensures Inv(Out(s, Saver)) && PcOk(s, s.save.pc) && AnswerOk(s, s.save.pc, s.save.answer.value)
    ensures RunningPc(s.save.pc) ==> ActWaits(s) && !(s.disposed && s.row.NoRow?)
  {}

  /** Where the save chain may go on while the session is running. */
  lemma SaverStands(s: Session, pc: Pc)
    requires Inv(Out(s, Saver)) && RunningPc(pc) && PcOk(s, pc) && ActWaits(s) && !(s.disposed && s.row.NoRow?)
    ensures Inv(Await(s, Saver, pc))
  {}

  /** Learning about the row without ending: the insert is known to have happened. */
  lemma DurableKeeps(s: Session, w: Who)
    requires Inv(Out(s, w)) && (!s.row.NoRow? || s.held != {})
    ensures Inv(Out(s.(persistence := PDurable), w))
  {}

  lemma SaveResumes(s: Session)
    requires Inv(s) && Enabled(s, Resume(Saver)) && !Failing(s.save.pc)
    ensures Inv(ContinueSave(s, s.save.pc, s.save.answer.value))
  {
    SaveFacts(s);
    ResumeRunning(s, s.save.pc, s.save.answer.value);
  }

  lemma ResumeRunning(s: Session, pc: Pc, a: Answer)
    requires Inv(Out(s, Saver)) && RunningPc(pc) && PcOk(s, pc) && AnswerOk(s, pc, a)
    requires ActWaits(s) && !(s.disposed && s.row.NoRow?)
    ensures Inv(ContinueSave(s, pc, a))
  {
    if a.Read? && TerminalRow(a.row) { SynchronizeKeeps(s, a.row.value, Saver); }
    match pc
    case RcInsert(snapshot, d) =>
      if a.Read? && a.row.None? { InsertNext(s, d); }
      else if a.Read? && Equals(a.row, snapshot) { DurableKeeps(s, Saver); }
    case InsertSent(d) =>
      if a == Done(true) { DurableKeeps(s, Saver); }
      else if s.persistence.PUncertain? { SaverStands(s, RcAfter(s.persistence.snapshot)); }
    case RcAfter(snapshot) =>
      if a.Read? && a.row.None? { AbsentKeeps(s); }
      else if a.Read? && Equals(a.row, snapshot) { DurableKeeps(s, Saver); }
    case UpdateSent(d) => if a == Done(false) { SaverStands(s, UpdateSync); }
    case UpdateSync =>
  }

  lemma InsertNext(s: Session, d: Data)
    requires Inv(Out(s, Saver)) && s.row.NoRow? && d.status == Running && ActWaits(s) && !s.disposed
    ensures Inv(Await(s.(persistence := PUncertain(d)), Saver, InsertSent(d)))
  {
    var t := s.(persistence := PUncertain(d));
    assert Inv(Out(t, Saver));
    SaverStands(t, InsertSent(d));
  }

  lemma AbsentKeeps(s: Session)
    requires Inv(Out(s, Saver)) && s.row.NoRow? && ActWaits(s) && !s.disposed
    ensures Inv(Out(s.(persistence := PAbsent), Saver))
  {}

  lemma FailResumes(s: Session, w: Who)
    requires Inv(s) && Enabled(s, Resume(w)) && Failing(TaskOf(s, w).pc)
    ensures Inv(ContinueFail(s, w, TaskOf(s, w).pc, TaskOf(s, w).answer.value))
  {
    var a := TaskOf(s, w).answer.value;
    FailingFacts(s, w);
    match TaskOf(s, w).pc
    case RcFail(snapshot, f) => ResumeRcFail(s, w, snapshot, f, a);
    case FailSent(f) => ResumeFailSent(s, w, f, a);
    case FailRead(f) => ResumeFailRead(s, w, f, a);
    case Callbacks =>
  }

  lemma FailingFacts(s: Session, w: Who)
    requires Inv(s) && TaskOf(s, w).At? && Failing(TaskOf(s, w).pc)
    ensures Inv(Out(s, w)) && (w == Actor ==> !SavingRunning(s) && s.status != Starting) && !SavingRunning(Out(s, w))
    ensures PcOk(s, TaskOf(s, w).pc)
    ensures s.status == Failed || s.disposed || TaskOf(s, w).pc.Callbacks?
    ensures TaskOf(s, w).answer.Some? ==> AnswerOk(s, TaskOf(s, w).pc, TaskOf(s, w).answer.value)
  {}

  lemma ThrowKeeps(s: Session, w: Who)
    requires Inv(Out(s, w)) && (w == Actor ==> !SavingRunning(s) && s.status != Starting)
    ensures Inv(FailThrow(s, w))
  {
    if w == Actor { RollbacksKeep(s, w); }
  }

  lemma ObservedKeeps(s: Session, w: Who, r: Stored)
    requires Inv(Out(s, w)) && r.data.status in s.held && Terminal(r.data.status) && (w == Actor ==> !SavingRunning(s))
    ensures Inv(RunRollbacks(Synchronize(s, r), w))
  {
    SynchronizeKeeps(s, r, w);
    RollbacksKeep(Synchronize(s, r), w);
  }

  lemma InsertedKeeps(s: Session, w: Who, f: Failure)
    requires Inv(Out(s, w)) && (w == Actor ==> !SavingRunning(s) && s.status != Starting) && !s.row.NoRow?
    requires f.FPending? && FailureOk(s, f) && !s.failure.FNone?
    ensures Inv(Await(s.(persistence := PDurable), w, FailSent(f)))
  {
    DurableKeeps(s, w);
    StandKeeps(s.(persistence := PDurable), w, FailSent(f));
  }

  lemma ResumeRcFail(s: Session, w: Who, snapshot: Data, f: Failure, a: Answer)
    requires Inv(Out(s, w)) && (w == Actor ==> !SavingRunning(s) && s.status != Starting) && !SavingRunning(Out(s, w))
    requires PcOk(s, RcFail(snapshot, f)) && AnswerOk(s, RcFail(snapshot, f), a) && (s.status == Failed || s.disposed)
    ensures Inv(ContinueFail(s, w, RcFail(snapshot, f), a))
  {
    if !a.Read? { ThrowKeeps(s, w); }
    else if a.row.None? { EndKeeps(s.(persistence := PAbsent), w); }
    else if Equals(a.row, snapshot) { InsertedKeeps(s, w, f); }
    else if TerminalRow(a.row) { ObservedKeeps(s, w, a.row.value); }
    else { ThrowKeeps(s, w); }
  }

  lemma ResumeFailSent(s: Session, w: Who, f: Failure, a: Answer)
    requires Inv(Out(s, w)) && (w == Actor ==> !SavingRunning(s) && s.status != Starting) && !SavingRunning(Out(s, w))
    requires PcOk(s, FailSent(f)) && AnswerOk(s, FailSent(f), a) && (s.status == Failed || s.disposed)
    ensures Inv(ContinueFail(s, w, FailSent(f), a))
  {
    if a == Done(true) { EndKeeps(s.(persistence := PDurable), w); }
    else { StandKeeps(s, w, FailRead(f)); }
  }

  lemma ResumeFailRead(s: Session, w: Who, f: Failure, a: Answer)
    requires Inv(Out(s, w)) && (w == Actor ==> !SavingRunning(s) && s.status != Starting) && !SavingRunning(Out(s, w))
    requires PcOk(s, FailRead(f)) && AnswerOk(s, FailRead(f), a) && (s.status == Failed || s.disposed)
    ensures Inv(ContinueFail(s, w, FailRead(f), a))
  {
    if !a.Read? { ThrowKeeps(s, w); }
    else if Equals(a.row, f.data) { EndKeeps(s.(persistence := PDurable), w); }
    else if TerminalRow(a.row) { ObservedKeeps(s, w, a.row.value); }
    else { ThrowKeeps(s, w); }
  }

  /** The terminal operations outside persistFailedSession. */
  lemma ActResumes(s: Session)
    requires Inv(s) && Enabled(s, Resume(Actor)) && !Failing(s.act.pc)
    ensures Inv(ContinueAct(s, s.act.pc, s.act.answer.value))
  {
    var a := s.act.answer.value;
    ActFacts(s);
    var pc := s.act.pc;
    if Completing(pc) { ResumeComplete(s, pc, a); }
    else if pc.FailHooks? { PendingKeeps(s, pc.expected, pc.already); }
    else if pc.FailWait? { FailPersistKeeps(s, Actor); }
    else { ResumeTimeout(s, pc, a); }
  }

  lemma ActFacts(s: Session)
    requires Inv(s) && s.act.At? && s.act.answer.Some?
    ensures Inv(Out(s, Actor)) && PcOk(s, s.act.pc) && AnswerOk(s, s.act.pc, s.act.answer.value) && s.status != Starting
    ensures Completing(s.act.pc) ==> s.status == Committing || s.disposed
    ensures IsWait(s.act.pc) ==> !SavingRunning(s)
    ensures !s.failure.FNone? ==> s.disposed || s.status == Failed
    ensures !(s.act.pc.RcInsert? || s.act.pc.InsertSent? || s.act.pc.RcAfter? || s.act.pc.UpdateSent? || s.act.pc.UpdateSync?)
  {}

  lemma CommitKeeps(s: Session)
    requires Inv(Out(s, Actor)) && Claimable in s.held
    ensures Inv(CommitClaimable(s))
  {}

  lemma ResumeComplete(s: Session, pc: Pc, a: Answer)
    requires Inv(Out(s, Actor)) && Completing(pc) && PcOk(s, pc) && AnswerOk(s, pc, a) && s.status != Starting
    requires s.status == Committing || s.disposed
    ensures Inv(ContinueAct(s, pc, a))
  {
    hide Inv, CatchComplete, Synchronize, CommitClaimable, Await;
    CatchKeeps(s);
    if a.Read? && TerminalRow(a.row) { ObservedEnd(s, a.row.value); }
    match pc
    case CompleteHooks => if a == Done(true) { StandKeeps(s, Actor, CompleteWait); }
    case CompleteWait => StandKeeps(s, Actor, ClaimSent(Data(Claimable, s.content)));
    case ClaimSent(d) => ResumeClaimSent(s, d, a);
    case ClaimRead(d) => if a.Read? && Equals(a.row, d) { CommitKeeps(s); }
    case ClaimSync =>
  }

  lemma ResumeClaimSent(s: Session, d: Data, a: Answer)
    requires Inv(Out(s, Actor)) && PcOk(s, ClaimSent(d)) && AnswerOk(s, ClaimSent(d), a) && s.status != Starting
    requires s.status == Committing || s.disposed
    ensures Inv(ContinueAct(s, ClaimSent(d), a))
  {
    hide Inv, CommitClaimable, Await;
    if a == Done(true) { CommitKeeps(s); }
    else { StandKeeps(s, Actor, if a == Threw then ClaimRead(d) else ClaimSync); }
  }

  lemma CatchKeeps(s: Session)
    requires Inv(Out(s, Actor)) && s.status != Starting && (s.status == Committing || s.disposed)
    ensures Inv(CatchComplete(s))
  {
    BeginFailKeeps(s, false, false, Some(if s.status == Committing then Running else Claimable));
  }

  /** The act ends with the terminal row that it has read. */
  lemma ObservedEnd(s: Session, r: Stored)
    requires Inv(Out(s, Actor)) && r.data.status in s.held && Terminal(r.data.status)
    ensures Inv(Synchronize(s, r).(act := Idle))
  {
    SynchronizeKeeps(s, r, Actor);
  }

  predicate TimingOut(pc: Pc) { pc.TimeoutSave? || pc.TimeoutSent? || pc.TimeoutRead? || pc.TimeoutCheck? || pc.TimeoutSync? }

  lemma ResumeTimeout(s: Session, pc: Pc, a: Answer)
    requires Inv(Out(s, Actor)) && PcOk(s, pc) && AnswerOk(s, pc, a) && s.status != Starting && TimingOut(pc)
    ensures Inv(ContinueAct(s, pc, a))
  {
    hide Inv, BeginFail, Synchronize, Await;
    if pc.TimeoutRead? { ResumeTimeoutRead(s, a); }
    else if pc.TimeoutSent? {
      if a == Done(true) { BeginFailKeeps(s, true, true, None); }
      else { StandKeeps(s, Actor, if a == Threw then TimeoutRead else TimeoutCheck); }
    }
    else if pc.TimeoutSave? { if a == Done(true) && s.status == Running { StandKeeps(s, Actor, TimeoutSent(s.content)); } }
    else if pc.TimeoutCheck? { StandKeeps(s, Actor, TimeoutSync); }
    else if a.Read? && TerminalRow(a.row) { ObservedEnd(s, a.row.value); }
  }

  lemma ResumeTimeoutRead(s: Session, a: Answer)
    requires Inv(Out(s, Actor)) && AnswerOk(s, TimeoutRead, a) && s.status != Starting
    ensures Inv(ContinueAct(s, TimeoutRead, a))
  {
    hide Inv, BeginFail, Synchronize;
    if a.Read? && Equals(a.row, Data(Failed, TIMEOUT_CONTENT)) {
      DurableKeeps(s, Actor);
      BeginFailKeeps(s.(persistence := PDurable), true, true, None);
    } else if a.Read? && TerminalRow(a.row) {
      ObservedEnd(s, a.row.value);
    }
  }

  lemma ResumeKeeps(s: Session, w: Who)
    requires Inv(s) && Enabled(s, Resume(w))
    ensures Inv(Apply(s, Resume(w)))
  {
    hide Inv, ContinueFail;
    if Failing(TaskOf(s, w).pc) { FailResumes(s, w); }
    else if w == Saver { SaveResumes(s); }
    else { ActResumes(s); }
  }

  lemma StepKeeps(s: Session, e: Event)
    requires Inv(s) && Enabled(s, e)
    ensures Inv(Apply(s, e))
  {
    hide Inv, Apply, Enabled;
    match e
    case Save(dirty) => SaveKeeps(s, dirty);
    case Complete(_) => EndRequestKeeps(s, e);
    case Fail => EndRequestKeeps(s, e);
    case Call(w, fault) => ExecuteKeeps(s, w, fault);
    case Resume(w) => ResumeKeeps(s, w);
    case Outside(next) => OutsideKeeps(s, next);
    case Cleanup => CleanupKeeps(s);
    case _ => RequestKeeps(s, e);
  }

  // ------------------------------------------------------------------ runs

  predicate Possible(s: Session, es: seq<Event>)
    decreases |es|
  {
    es == [] || (Enabled(s, es[0]) && Possible(Apply(s, es[0]), es[1..]))
  }

  function Run(s: Session, es: seq<Event>): Session
    requires Possible(s, es)
    decreases |es|
  {
    if es == [] then s else Run(Apply(s, es[0]), es[1..])
  }

  lemma {:induction false} RunKeeps(s: Session, es: seq<Event>)
    requires Inv(s) && Possible(s, es)
    ensures Inv(Run(s, es))
    decreases |es|
  {
    if es != [] {
      StepKeeps(s, es[0]);
      RunKeeps(Apply(s, es[0]), es[1..]);
    }
  }

  /** In every run of a started or restored session: when the object is disposed, its status is
      one the row has held, or FAILED with no row ever; its admission has been released; and the
      start rollbacks ran at most once, and only if the durable end is a failure. */
  lemma SessionEndsWell(content: nat, restored: bool, es: seq<Event>)
    requires Possible(if restored then Restored(content) else Fresh(content), es)
    ensures var s := Run(if restored then Restored(content) else Fresh(content), es);
            && (s.disposed ==> s.released && (s.status in s.held || (s.status == Failed && s.row.NoRow?)))
            && s.ran <= 1
            && (s.ran > 0 ==> Failed in s.held || (s.row.NoRow? && s.status == Failed && s.disposed))
            && (Failed in s.held && s.row.Present? ==> s.row.stored.data.status == Failed)
  {
    RunKeeps(if restored then Restored(content) else Fresh(content), es);
  }
}
