/** Which confirmed claims keep a task that will finalize them: exactly when one loses it. */
module ClaimServing {
  import opened Wrappers
  import opened ClaimData
  import opened ClaimSession
  import opened ClaimRun

  /** The process is up and the row is CLAIMING with a CONFIRMED claim. */
  predicate ConfirmedRow(a: Session) { a.up && a.slot.Live? && a.slot.row.status == StatusClaiming && IsConfirmed(a.slot) }

  predicate SignedRow(a: Session) {
    a.up && a.slot.Live? && a.slot.row.status == StatusClaiming && a.slot.HasClaim() && a.slot.Claimed().Signed()
  }

  predicate Remembered(a: Session) { a.mem.Some? && a.mem.value.Confirmed? }

  /** The receipt task wrote the claim, or will find it written, and then start completion. */
  predicate SettleServes(a: Session) { a.receipt.Settling? }

  /** The rebroadcast mark has still to find out what the row holds; it will find the claim
      CONFIRMED, and then start completion. */
  predicate MarkServes(a: Session) {
    a.broadcast.BroadcastMark? && !(Awaiting(a.broadcast.bt) && LearnsPending(a.broadcast.bt))
  }

  /** The answer says PENDING: the mark was acknowledged, or the row was read when it was PENDING. */
  predicate LearnsPending(t: Transition) {
    || t.phase == CasReplied(CasTrue)
    || (t.phase.ReadReplied? && t.phase.read.ReadRow? && t.phase.read.row.claim.Some? && t.phase.read.row.claim.value.Pending?)
  }

  predicate Served(a: Session) { (a.completion != CompletionOff && Remembered(a)) || SettleServes(a) || MarkServes(a) }

  /** The mark resumes with an answer from before the claim was confirmed. */
  predicate LateAnswer(a: Session, e: Event) {
    e == Resume(BroadcastT) && a.broadcast.BroadcastMark? && Awaiting(a.broadcast.bt) && LearnsPending(a.broadcast.bt)
  }

  // ------------------------------------------------------------------ what holds besides Inv

  /** Signed claims of a running process are in claimTxDict, and only the receipt task confirms. */
  predicate Tended(a: Session) {
    && (SignedRow(a) ==> a.owned && a.mem.Some?)
    && (a.queue.QueueWaiting? || a.queue.QueuePreparing? || (a.queue.QueueWriting? && a.queue.prepare) ==> a.owned)
    && (a.queue.QueueWriting? ==> !IsConfirmed(a.slot))
    && (ConfirmedRow(a) ==> !a.receipt.ReceiptLoop? && !a.receipt.ReceiptWatch?)
    && (ConfirmedRow(a) && a.receipt.Settling? ==>
          && a.receipt.rt.next == a.slot.Claimed()
          && (a.receipt.rt.phase.ReadReplied? && a.receipt.rt.phase.read.ReadRow? ==> a.receipt.rt.phase.read.row == a.slot.row))
  }

  lemma CasTended(a: Session, task: Task, f: Fault)
    requires Inv(a) && Tended(a)
    ensures Tended(ApplyCas(a, task, f))
  {}

  lemma ReadTended(a: Session, task: Task, fails: bool)
    requires Inv(a) && Tended(a)
    ensures Tended(ApplyRead(a, task, fails))
  {}

  lemma ResumeQueueTended(a: Session)
    requires Inv(a) && Tended(a)
    ensures Tended(ApplyResume(a, QueueT))
  {}

  lemma TaskAlone(a: Session)
    requires Inv(a) && (a.broadcast.BroadcastMark? || a.receipt.Settling? || a.completion.Finalizing?)
    ensures a.queue == QueueOff && a.mem.Some?
  {}

  lemma LearnTended(a: Session, r: Resumed)
    requires Tended(a) && SlotOk(a.slot) && a.queue == QueueOff && a.mem.Some?
    requires r.learned.Some? ==> Below(r.learned.value, a.slot)
    ensures var b := Learn(a, r);
            && Tended(b) && b.slot == a.slot && b.up == a.up && b.queue == QueueOff && b.mem.Some?
            && b.receipt == a.receipt && b.broadcast == a.broadcast
  {}

  lemma MarkTended(b: Session, v: Verdict)
    requires Tended(b)
    ensures Tended(AfterMark(b, v))
  {}

  lemma ResumeMarkTended(a: Session)
    requires Inv(a) && Tended(a)
    ensures Tended(ApplyResume(a, BroadcastT))
  {
    if a.broadcast.BroadcastMark? && Awaiting(a.broadcast.bt) {
      var r := ResumeTransition(a.broadcast.bt);
      TaskAlone(a);
      ResumeTransitionOk(a.broadcast.bt, a.slot);
      hide Inv, Tended, ResumeTransition, Learn, AfterMark;
      LearnTended(a, r);
      MarkTended(Learn(a, r), r.verdict);
    }
  }

  /** A settling task that wrote CONFIRMED finds it written. */
  lemma SettleFindsIt(a: Session)
    requires Inv(a) && Tended(a) && ConfirmedRow(a) && a.receipt.Settling? && Awaiting(a.receipt.rt)
    ensures var v := ResumeTransition(a.receipt.rt).verdict; v == Returned(true) || v.Again?
  {}

  lemma SettleTended(b: Session, task: ReceiptTask, v: Verdict)
    requires Tended(b) && SlotOk(b.slot) && task.Settling? && b.receipt == task && b.queue == QueueOff && b.mem.Some?
    requires v.Again? ==> v.t.next == task.rt.next && !Awaiting(v.t)
    requires v == Returned(true) ==> Below(task.rt.next, b.slot)
    requires task.rt.next.Confirmed? || task.rt.next.Reverted?
    requires ConfirmedRow(b) ==> v == Returned(true) || v.Again?
    ensures Tended(AfterSettle(b, task, v))
  {}

  lemma ResumeSettleTended(a: Session)
    requires Inv(a) && Tended(a)
    ensures Tended(ApplyResume(a, ReceiptT))
  {
    if a.receipt.Settling? && Awaiting(a.receipt.rt) {
      var r := ResumeTransition(a.receipt.rt);
      TaskAlone(a);
      ResumeTransitionOk(a.receipt.rt, a.slot);
      if ConfirmedRow(a) { SettleFindsIt(a); }
      hide Inv, Tended, ResumeTransition, Learn, AfterSettle;
      LearnTended(a, r);
      SettleTended(Learn(a, r), a.receipt, r.verdict);
    }
  }

  lemma SameTended(a: Session, b: Session)
    requires Tended(a) && b.up == a.up && b.slot == a.slot && b.owned == a.owned && b.mem.Some? == a.mem.Some?
    requires b.queue == a.queue && b.receipt == a.receipt
    ensures Tended(b)
  {}

  lemma FinalCasTended(a: Session, f: Fault)
    requires Inv(a) && Tended(a)
    ensures Tended(Apply(a, FinalCas(f)))
  {}

  lemma FinalObservedTended(a: Session, row: Row)
    requires Tended(a) && SlotOk(a.slot) && a.queue == QueueOff && a.mem.Some?
    requires row.claim.Some? && Below(row.claim.value, a.slot)
    requires row.status == StatusFinished ==> a.slot.row.status == StatusFinished
    ensures Tended(FinalObserved(a, row))
  {}

  lemma FinishTended(a: Session, c: CompletionTask)
    requires Tended(a) && a.queue == QueueOff && !SignedRow(a)
    ensures Tended(Finish(a).(completion := c))
  {}

  /** What a resumed finalization may rely on. */
  lemma FinalFacts(a: Session)
    requires Inv(a) && a.completion.Finalizing?
    ensures SlotOk(a.slot) && a.queue == QueueOff && a.mem.Some?
    ensures a.completion.phase == FinalReplied(CasTrue) ==> !SignedRow(a)
    ensures a.completion.phase.FinalReadReplied? && a.completion.phase.finalRead.ReadRow? ==>
              var row := a.completion.phase.finalRead.row;
              && row.claim.Some? && Below(row.claim.value, a.slot)
              && (row.status == StatusFinished ==> a.slot.row.status == StatusFinished)
  {
    TaskAlone(a);
  }

  lemma FinalResumeTended(a: Session)
    requires Inv(a) && Tended(a)
    ensures Tended(Apply(a, FinalResume))
  {
    hide Inv, Tended, FinalObserved, SignedRow;
    if a.completion.Finalizing? {
      FinalFacts(a);
      var c := a.completion.claim;
      match a.completion.phase {
        case FinalReplied(CasTrue) => FinishTended(a, CompletionOff);
        case FinalReadReplied(ReadRow(row)) => FinalObservedTended(a, row);
        case _ => SameTended(a, Apply(a, FinalResume));
      }
    }
  }

  lemma CreateTended(a: Session, idx: nat, time: nat, amount: nat, f: Fault)
    requires Inv(a) && Tended(a)
    ensures Tended(Apply(a, CreateWrite(idx, time, amount, f)))
  {}

  lemma QueueEventTended(a: Session, e: Event)
    requires Inv(a) && Tended(a) && QueueEvent(e)
    ensures Tended(Apply(a, e))
  {}

  lemma TaskEventTended(a: Session, e: Event)
    requires Tended(a) && (BroadcastEvent(e) || CompletionEvent(e))
    ensures Tended(Apply(a, e))
  {
    hide Tended;
    SameTended(a, Apply(a, e));
  }

  lemma ReceiptEventTended(a: Session, e: Event)
    requires Tended(a) && (e.ReceiptCheck? || e.ReceiptArrived? || e.ReceiptFailed?)
    ensures Tended(Apply(a, e))
  {}

  lemma RowEventTended(a: Session, e: Event)
    requires Inv(a) && Tended(a) && (UnclaimedEvent(e) || e.Cleanup?)
    ensures Tended(Apply(a, e))
  {}

  lemma ProcessEventTended(a: Session, e: Event)
    requires Inv(a) && Tended(a) && (e.Crash? || e.Restart?)
    ensures Tended(Apply(a, e))
  {}

  lemma TransitionEventTended(a: Session, e: Event)
    requires Inv(a) && Tended(a) && TransitionEvent(e)
    ensures Tended(Apply(a, e))
  {
    hide Inv, Tended, ApplyCas, ApplyRead, ApplyResume;
    match e
    case Cas(task, f) => CasTended(a, task, f);
    case Read(task, fails) => ReadTended(a, task, fails);
    case Resume(task) =>
      match task
      case QueueT => ResumeQueueTended(a);
      case BroadcastT => ResumeMarkTended(a);
      case ReceiptT => ResumeSettleTended(a);
  }

  lemma StepTended(a: Session, e: Event)
    requires Inv(a) && Tended(a)
    ensures Tended(Apply(a, e))
  {
    hide Inv, Tended, Apply;
    if TransitionEvent(e) { TransitionEventTended(a, e); }
    else if e.FinalCas? { FinalCasTended(a, e.fault); }
    else if e.FinalResume? { FinalResumeTended(a); }
    else if e.CreateWrite? { CreateTended(a, e.idx, e.time, e.amount, e.fault); }
    else if QueueEvent(e) { QueueEventTended(a, e); }
    else if BroadcastEvent(e) || CompletionEvent(e) { TaskEventTended(a, e); }
    else if UnclaimedEvent(e) || e.Cleanup? { RowEventTended(a, e); }
    else if e.Crash? || e.Restart? { ProcessEventTended(a, e); }
    else { ReceiptEventTended(a, e); }
  }

  lemma {:induction false} RunTended(es: seq<Event>)
    requires AllowedRun(es)
    ensures Inv(RunSession(START, es)) && Tended(RunSession(START, es))
  {
    RunInv(es);
    if es != [] {
      var front := es[..|es| - 1];
      RunTended(front);
      StepTended(RunSession(START, front), es[|es| - 1]);
    }
  }

  // ------------------------------------------------------------------ when a claim loses its task

  lemma CasServed(a: Session, task: Task, f: Fault)
    requires Inv(a) && Tended(a) && ConfirmedRow(a) && Served(a) && ConfirmedRow(ApplyCas(a, task, f))
    ensures Served(ApplyCas(a, task, f))
  {}

  lemma ReadServed(a: Session, task: Task, fails: bool)
    requires Inv(a) && Tended(a) && ConfirmedRow(a) && Served(a)
    ensures Served(ApplyRead(a, task, fails))
  {}

  lemma QueueServed(a: Session)
    requires Inv(a) && Tended(a) && ConfirmedRow(a) && Served(a)
    ensures ApplyResume(a, QueueT) == a
  {}

  /** The mark resumes: it goes on looking, or it has found CONFIRMED and starts completion. */
  lemma MarkServed(a: Session)
    requires Inv(a) && Tended(a) && ConfirmedRow(a) && a.broadcast.BroadcastMark? && Awaiting(a.broadcast.bt)
    requires !LearnsPending(a.broadcast.bt) && Served(a)
    ensures Served(ApplyResume(a, BroadcastT))
  {}

  /** With a late answer memory says PENDING, and only a settling task is left that would put that right. */
  lemma LateServed(a: Session)
    requires Inv(a) && Tended(a) && ConfirmedRow(a) && LateAnswer(a, Resume(BroadcastT))
    ensures var b := ApplyResume(a, BroadcastT);
            && b.broadcast == BroadcastOff && !Remembered(b) && b.receipt == a.receipt && b.completion == a.completion && ConfirmedRow(b)
  {}

  lemma SettleServed(a: Session)
    requires Inv(a) && Tended(a) && ConfirmedRow(a) && Served(a)
    ensures Served(ApplyResume(a, ReceiptT))
  {
    if a.receipt.Settling? && Awaiting(a.receipt.rt) { SettleFindsIt(a); }
  }

  lemma FinalServed(a: Session)
    requires Inv(a) && Tended(a) && ConfirmedRow(a) && Served(a) && ConfirmedRow(Apply(a, FinalResume))
    ensures Served(Apply(a, FinalResume))
  {}

  lemma FinalCasServed(a: Session, f: Fault)
    requires Inv(a) && Tended(a) && ConfirmedRow(a) && Served(a) && ConfirmedRow(Apply(a, FinalCas(f)))
    ensures Served(Apply(a, FinalCas(f)))
  {}

  lemma TaskEventServed(a: Session, e: Event)
    requires Inv(a) && Tended(a) && ConfirmedRow(a) && Served(a) && (BroadcastEvent(e) || CompletionEvent(e))
    ensures Served(Apply(a, e))
  {
    hide Inv, Tended, ConfirmedRow;
  }

  lemma ReceiptEventServed(a: Session, e: Event)
    requires Tended(a) && ConfirmedRow(a) && Served(a) && (e.ReceiptCheck? || e.ReceiptArrived? || e.ReceiptFailed?)
    ensures Served(Apply(a, e))
  {}

  lemma RowEventServed(a: Session, e: Event)
    requires Inv(a) && Tended(a) && ConfirmedRow(a) && Served(a)
    requires UnclaimedEvent(e) || e.Cleanup? || e.CreateWrite? || QueueEvent(e) || e.Restart?
    ensures Served(Apply(a, e))
  {}

  lemma OtherServed(a: Session, e: Event)
    requires Inv(a) && Tended(a) && ConfirmedRow(a) && Served(a) && ConfirmedRow(Apply(a, e))
    requires !TransitionEvent(e) && !e.FinalCas? && !e.FinalResume?
    ensures Served(Apply(a, e))
  {
    hide Inv, Tended, Served;
    if BroadcastEvent(e) || CompletionEvent(e) { TaskEventServed(a, e); }
    else if e.ReceiptCheck? || e.ReceiptArrived? || e.ReceiptFailed? { ReceiptEventServed(a, e); }
    else if e.Crash? {}
    else { RowEventServed(a, e); }
  }

  lemma ResumeServed(a: Session, task: Task)
    requires Inv(a) && Tended(a) && ConfirmedRow(a) && Served(a) && ConfirmedRow(Apply(a, Resume(task)))
    ensures Served(Apply(a, Resume(task))) <==> !LateAnswer(a, Resume(task)) || a.receipt.Settling?
  {
    hide Inv, Tended, ConfirmedRow;
    match task
    case QueueT => QueueServed(a);
    case ReceiptT => SettleServed(a);
    case BroadcastT =>
      if LateAnswer(a, Resume(task)) { LateServed(a); }
      else if a.broadcast.BroadcastMark? && Awaiting(a.broadcast.bt) { MarkServed(a); }
  }

  /** In every reachable state: an event takes a served confirmed claim to an unserved one exactly
      when it resumes the rebroadcast mark with an answer that says PENDING and the settling task
      has already returned. */
  lemma ServiceLostExactly(es: seq<Event>, e: Event)
    requires AllowedRun(es) && ConfirmedRow(RunSession(START, es)) && ConfirmedRow(Apply(RunSession(START, es), e))
    requires Served(RunSession(START, es))
    ensures var a := RunSession(START, es); !Served(Apply(a, e)) <==> LateAnswer(a, e) && !a.receipt.Settling?
  {
    var a := RunSession(START, es);
    RunTended(es);
    hide Inv, Tended, ConfirmedRow, Served, Apply, ApplyCas, ApplyRead;
    if e.Cas? { CasIs(a, e.task, e.fault); CasServed(a, e.task, e.fault); }
    else if e.Read? { ReadIs(a, e.task, e.fails); ReadServed(a, e.task, e.fails); }
    else if e.Resume? { ResumeServed(a, e.task); }
    else if e.FinalCas? { FinalCasServed(a, e.fault); }
    else if e.FinalResume? { FinalServed(a); }
    else { OtherServed(a, e); }
  }

  lemma CasIs(a: Session, task: Task, f: Fault)
    ensures Apply(a, Cas(task, f)) == ApplyCas(a, task, f)
  {}

  lemma ReadIs(a: Session, task: Task, fails: bool)
    ensures Apply(a, Read(task, fails)) == ApplyRead(a, task, fails)
  {}

  /** A claim is served when it becomes confirmed, or when a new process finds it confirmed. */
  lemma ServedFromTheStart(es: seq<Event>, e: Event)
    requires AllowedRun(es) && !ConfirmedRow(RunSession(START, es)) && ConfirmedRow(Apply(RunSession(START, es), e))
    ensures Served(Apply(RunSession(START, es), e))
  {
    RunTended(es);
    BecomesServed(RunSession(START, es), e);
  }

  lemma BecomesServed(a: Session, e: Event)
    requires Inv(a) && Tended(a) && !ConfirmedRow(a) && ConfirmedRow(Apply(a, e))
    ensures Served(Apply(a, e))
  {
    hide Inv, Tended, ConfirmedRow, Served, Apply;
    if e.Cas? { CasIs(a, e.task, e.fault); CasBecomes(a, e.task, e.fault); }
    else if e.Restart? { RestartBecomes(a); }
    else { NotByOthers(a, e); }
  }

  lemma CasBecomes(a: Session, task: Task, f: Fault)
    requires Inv(a) && !ConfirmedRow(a) && ConfirmedRow(ApplyCas(a, task, f))
    ensures Served(ApplyCas(a, task, f))
  {}

  lemma RestartBecomes(a: Session)
    requires !ConfirmedRow(a) && ConfirmedRow(Apply(a, Restart))
    ensures Served(Apply(a, Restart))
  {}

  lemma NotByOthers(a: Session, e: Event)
    requires Inv(a) && !e.Cas? && !e.Restart? && ConfirmedRow(Apply(a, e))
    ensures ConfirmedRow(a)
  {
    hide Inv;
    if UnclaimedEvent(e) || e.Cleanup? || e.CreateWrite? { NotByRowEvents(a, e); }
    else if e.FinalCas? {}
    else { RowUntouched(a, e); }
  }

  lemma NotByRowEvents(a: Session, e: Event)
    requires (UnclaimedEvent(e) || e.Cleanup? || e.CreateWrite?) && ConfirmedRow(Apply(a, e))
    ensures ConfirmedRow(a)
  {}

  lemma FinalUntouched(a: Session)
    ensures Apply(a, FinalResume).slot == a.slot && Apply(a, FinalResume).up == a.up
  {}

  lemma ReadUntouched(a: Session, task: Task, fails: bool)
    ensures ApplyRead(a, task, fails).slot == a.slot && ApplyRead(a, task, fails).up == a.up
  {}

  lemma RowUntouched(a: Session, e: Event)
    requires !e.Cas? && !e.FinalCas? && !e.Restart? && !UnclaimedEvent(e) && !e.Cleanup? && !e.CreateWrite?
    ensures Apply(a, e).slot == a.slot && (Apply(a, e).up ==> a.up)
  {
    hide ApplyRead, ApplyResume, ResumeFinal;
    if e.Resume? { ResumeUntouched(a, e.task); }
    else if e.FinalResume? { FinalUntouched(a); }
    else if e.Read? { ReadUntouched(a, e.task, e.fails); }
  }

  lemma LearnUntouched(a: Session, r: Resumed)
    ensures Learn(a, r).slot == a.slot && Learn(a, r).up == a.up
  {}

  lemma ResumeUntouched(a: Session, task: Task)
    ensures Apply(a, Resume(task)).slot == a.slot && Apply(a, Resume(task)).up == a.up
  {
    hide Learn, ResumeTransition;
    match task
    case QueueT => if a.queue.QueueWriting? { LearnUntouched(a, ResumeTransition(a.queue.qt)); }
    case BroadcastT => if a.broadcast.BroadcastMark? { LearnUntouched(a, ResumeTransition(a.broadcast.bt)); }
    case ReceiptT => if a.receipt.Settling? { LearnUntouched(a, ResumeTransition(a.receipt.rt)); }
  }

  /** No event of the run answers a mark late. */
  predicate NoLateAnswer(es: seq<Event>) {
    forall i :: 0 <= i < |es| ==> !(LateAnswer(RunSession(START, es[..i]), es[i]) && ConfirmedRow(RunSession(START, es[..i])))
  }

  /** In a run without late answers every confirmed claim of a running process is served. */
  lemma {:induction false} AlwaysServed(es: seq<Event>)
    requires AllowedRun(es) && NoLateAnswer(es)
    ensures ConfirmedRow(RunSession(START, es)) ==> Served(RunSession(START, es))
  {
    if es != [] {
      var front, e := es[..|es| - 1], es[|es| - 1];
      forall i | 0 <= i < |front|
        ensures !(LateAnswer(RunSession(START, front[..i]), front[i]) && ConfirmedRow(RunSession(START, front[..i])))
      {
        assert front[..i] == es[..i];
      }
      AlwaysServed(front);
      if ConfirmedRow(RunSession(START, es)) {
        if ConfirmedRow(RunSession(START, front)) { ServiceLostExactly(front, e); } else { ServedFromTheStart(front, e); }
      }
    } else {
      assert RunSession(START, es) == START;
    }
  }

  // ------------------------------------------------------------------ what losing it means

  /** Memory does not say CONFIRMED, and no task is left that would find out or is finalizing. */
  predicate Doomed(a: Session) {
    && ConfirmedRow(a) && !Remembered(a)
    && a.broadcast == BroadcastOff && !a.receipt.Settling? && !a.completion.Finalizing?
  }

  lemma DoomedByRows(a: Session, e: Event)
    requires Inv(a) && Doomed(a) && (UnclaimedEvent(e) || e.Cleanup? || e.CreateWrite? || QueueEvent(e))
    ensures Apply(a, e) == a
  {}

  lemma DoomedByOthers(a: Session, e: Event)
    requires Tended(a) && Doomed(a) && !e.Crash? && !UnclaimedEvent(e) && !e.Cleanup? && !e.CreateWrite? && !QueueEvent(e)
    requires a.queue == QueueOff
    ensures Doomed(Apply(a, e)) && Apply(a, e).slot == a.slot
  {
    hide Learn, ResumeTransition;
  }

  /** Nothing but the end of the process changes that. */
  lemma DoomedStays(a: Session, e: Event)
    requires Inv(a) && Tended(a) && Doomed(a) && !e.Crash?
    ensures Doomed(Apply(a, e)) && Apply(a, e).slot == a.slot
  {
    if UnclaimedEvent(e) || e.Cleanup? || e.CreateWrite? || QueueEvent(e) { DoomedByRows(a, e); }
    else { NoQueueTask(a); DoomedByOthers(a, e); }
  }

  lemma NoQueueTask(a: Session)
    requires Inv(a) && Tended(a) && ConfirmedRow(a)
    ensures a.queue == QueueOff
  {}

  /** A claim that is not served has lost its service to a late answer, so nobody looks any more. */
  lemma {:induction false} UnservedShape(es: seq<Event>)
    requires AllowedRun(es)
    ensures var a := RunSession(START, es);
            ConfirmedRow(a) && !Served(a) ==> a.broadcast == BroadcastOff && !Remembered(a) && !a.receipt.Settling?
  {
    if es != [] {
      var front, e := es[..|es| - 1], es[|es| - 1];
      var a := RunSession(START, front);
      UnservedShape(front);
      RunTended(front);
      if ConfirmedRow(Apply(a, e)) && !Served(Apply(a, e)) {
        if !ConfirmedRow(a) { ServedFromTheStart(front, e); }
        else if Served(a) { ServiceLostExactly(front, e); LateServed(a); }
        else { UnservedStep(a, e); }
      }
    }
  }

  lemma UnservedStep(a: Session, e: Event)
    requires Inv(a) && Tended(a) && ConfirmedRow(a) && a.broadcast == BroadcastOff && !Remembered(a) && !a.receipt.Settling?
    requires ConfirmedRow(Apply(a, e)) && !Served(Apply(a, e))
    ensures var b := Apply(a, e); b.broadcast == BroadcastOff && !Remembered(b) && !b.receipt.Settling?
  {
    if !a.completion.Finalizing? { DoomedStays(a, e); }
    else { UnservedFinalizing(a, e); }
  }

  lemma UnservedFinalizing(a: Session, e: Event)
    requires Inv(a) && Tended(a) && ConfirmedRow(a) && a.broadcast == BroadcastOff && !Remembered(a) && !a.receipt.Settling?
    requires ConfirmedRow(Apply(a, e)) && !Served(Apply(a, e)) && a.completion.Finalizing?
    ensures var b := Apply(a, e); b.broadcast == BroadcastOff && !Remembered(b) && !b.receipt.Settling?
  {
    hide Learn, ResumeTransition;
  }

  predicate NoCrash(es: seq<Event>) { forall i :: 0 <= i < |es| ==> !es[i].Crash? }

  /** From a reachable state in which the claim is not served, and is not being finalized, no run
      of this process finalizes it. */
  lemma {:induction false} UnservedNeverFinished(es: seq<Event>, more: seq<Event>)
    requires AllowedRun(es) && AllowedRun(more) && NoCrash(more)
    requires var a := RunSession(START, es); ConfirmedRow(a) && !Served(a) && !a.completion.Finalizing?
    ensures var a := RunSession(START, es); Doomed(RunSession(a, more)) && RunSession(a, more).slot == a.slot
  {
    var a := RunSession(START, es);
    UnservedShape(es);
    RunTended(es);
    DoomedRun(a, more);
  }

  lemma {:induction false} DoomedRun(a: Session, es: seq<Event>)
    requires Inv(a) && Tended(a) && Doomed(a) && AllowedRun(es) && NoCrash(es)
    ensures var b := RunSession(a, es); Inv(b) && Tended(b) && Doomed(b) && b.slot == a.slot
  {
    if es != [] {
      var front, e := es[..|es| - 1], es[|es| - 1];
      DoomedRun(a, front);
      StepInv(RunSession(a, front), e);
      StepTended(RunSession(a, front), e);
      DoomedStays(RunSession(a, front), e);
    }
  }

  // ------------------------------------------------------------------ what being served means

  predicate Finalized(a: Session) { a.up && a.slot.Live? && a.slot.row.status == StatusFinished }

  /** Some run of this process finalizes the claim. */
  ghost predicate CanFinish(a: Session) { exists es :: AllowedRun(es) && NoCrash(es) && Finalized(RunSession(a, es)) }

  lemma {:induction false} RunFrom(a: Session, e: Event, es: seq<Event>)
    ensures RunSession(a, [e] + es) == RunSession(Apply(a, e), es)
    decreases |es|
  {
    if es == [] {
      assert [e] + [] == [e] && [e][..0] == [];
    } else {
      var front := es[..|es| - 1];
      assert ([e] + es)[..|es|] == [e] + front && ([e] + es)[|es|] == es[|es| - 1];
      RunFrom(a, e, front);
    }
  }

  lemma Back(a: Session, e: Event)
    requires CanFinish(Apply(a, e)) && !e.Crash? && Allowed(e)
    ensures CanFinish(a)
  {
    var es :| AllowedRun(es) && NoCrash(es) && Finalized(RunSession(Apply(a, e), es));
    RunFrom(a, e, es);
    assert AllowedRun([e] + es) && NoCrash([e] + es) && Finalized(RunSession(a, [e] + es));
  }

  lemma Now(a: Session)
    requires Finalized(a)
    ensures CanFinish(a)
  {
    var es: seq<Event> := [];
    assert AllowedRun(es) && NoCrash(es) && Finalized(RunSession(a, es));
  }

  lemma MemoryIsRow(a: Session)
    requires Inv(a) && ConfirmedRow(a) && Remembered(a)
    ensures a.slot.row.claim == a.mem
  {}

  /** The finalization itself. */
  lemma FinalCanFinish(a: Session)
    requires ConfirmedRow(a) && a.completion == Finalizing(a.slot.Claimed(), FinalCall)
    ensures CanFinish(a)
  {
    Now(Apply(a, FinalCas(Ack)));
    Back(a, FinalCas(Ack));
  }

  lemma HookedCanFinish(a: Session)
    requires ConfirmedRow(a) && a.mem == a.slot.row.claim && a.completion == HooksSucceeded
    ensures CanFinish(a)
  {
    FinalCanFinish(Apply(a, StartFinalize));
    Back(a, StartFinalize);
  }

  lemma LoopCanFinish(a: Session)
    requires ConfirmedRow(a) && a.mem == a.slot.row.claim && (a.completion == CompletionLoop || a.completion == HooksRunning)
    ensures CanFinish(a)
  {
    var b := if a.completion == CompletionLoop then Apply(a, CompletionCheck) else a;
    HookedCanFinish(Apply(b, HooksEnd(true)));
    Back(b, HooksEnd(true));
    if a.completion == CompletionLoop { Back(a, CompletionCheck); }
  }

  lemma FinalPhaseFacts(a: Session)
    requires Inv(a) && ConfirmedRow(a) && a.completion.Finalizing?
    ensures a.completion.claim == a.slot.Claimed() && a.completion.phase != FinalReplied(CasTrue)
    ensures a.completion.phase.FinalReadReplied? ==>
              a.completion.phase.finalRead.ReadError? || (a.completion.phase.finalRead.ReadRow? && a.completion.phase.finalRead.row.status == StatusClaiming
                                                          && a.completion.phase.finalRead.row.claim == a.slot.row.claim)
  {}

  lemma FinalizingCanFinish(a: Session)
    requires Inv(a) && ConfirmedRow(a) && a.completion.Finalizing? && Remembered(a)
    ensures CanFinish(a)
  {
    FinalPhaseFacts(a);
    MemoryIsRow(a);
    hide Inv;
    var c := a.completion.claim;
    match a.completion.phase {
      case FinalCall => FinalCanFinish(a);
      case FinalReadReplied(_) => HookedCanFinish(Apply(a, FinalResume)); Back(a, FinalResume);
      case FinalRead =>
        ReadCanFinish(a);
      case FinalReplied(_) =>
        ReadCanFinish(Apply(a, FinalResume));
        Back(a, FinalResume);
    }
  }

  lemma ReadCanFinish(a: Session)
    requires ConfirmedRow(a) && a.completion == Finalizing(a.slot.Claimed(), FinalRead)
    ensures CanFinish(a)
  {
    var b := Apply(a, FinalReadStep(false));
    HookedCanFinish(Apply(b, FinalResume));
    Back(b, FinalResume);
    Back(a, FinalReadStep(false));
  }

  lemma CompletionCanFinish(a: Session)
    requires Inv(a) && ConfirmedRow(a) && a.completion != CompletionOff && Remembered(a)
    ensures CanFinish(a)
  {
    MemoryIsRow(a);
    hide Inv;
    if a.completion.Finalizing? { FinalizingCanFinish(a); }
    else if a.completion == HooksSucceeded { HookedCanFinish(a); }
    else { LoopCanFinish(a); }
  }

  /** A settling task that resumes with the row as it is. */
  lemma SettledCanFinish(a: Session)
    requires Inv(a) && Tended(a) && ConfirmedRow(a) && a.receipt.Settling? && Awaiting(a.receipt.rt)
    requires ResumeTransition(a.receipt.rt).verdict == Returned(true)
    ensures CanFinish(a)
  {
    var b := Apply(a, Resume(ReceiptT));
    StepInv(a, Resume(ReceiptT));
    SettledStarts(a);
    CompletionCanFinish(b);
    Back(a, Resume(ReceiptT));
  }

  lemma SettledStarts(a: Session)
    requires Inv(a) && Tended(a) && ConfirmedRow(a) && a.receipt.Settling? && Awaiting(a.receipt.rt)
    requires ResumeTransition(a.receipt.rt).verdict == Returned(true)
    ensures var b := Apply(a, Resume(ReceiptT)); ConfirmedRow(b) && Remembered(b) && b.completion != CompletionOff
  {}

  lemma SettleReadCanFinish(a: Session)
    requires Inv(a) && Tended(a) && ConfirmedRow(a) && a.receipt.Settling? && a.receipt.rt.phase.ReadCall?
    ensures CanFinish(a)
  {
    var b := Apply(a, Read(ReceiptT, false));
    StepInv(a, Read(ReceiptT, false));
    StepTended(a, Read(ReceiptT, false));
    SettledCanFinish(b);
    Back(a, Read(ReceiptT, false));
  }

  lemma SettleAwaitingCanFinish(a: Session)
    requires Inv(a) && Tended(a) && ConfirmedRow(a) && a.receipt.Settling? && a.receipt.rt.phase.CasReplied?
    ensures CanFinish(a)
  {
    if ResumeTransition(a.receipt.rt).verdict == Returned(true) { SettledCanFinish(a); }
    else {
      var b := Apply(a, Resume(ReceiptT));
      StepInv(a, Resume(ReceiptT));
      StepTended(a, Resume(ReceiptT));
      SettleReadCanFinish(b);
      Back(a, Resume(ReceiptT));
    }
  }

  lemma SettleCallCanFinish(a: Session)
    requires Inv(a) && Tended(a) && ConfirmedRow(a) && a.receipt.Settling? && a.receipt.rt.phase.CasCall?
    ensures CanFinish(a)
  {
    var b := Apply(a, Cas(ReceiptT, NoEffect));
    StepInv(a, Cas(ReceiptT, NoEffect));
    StepTended(a, Cas(ReceiptT, NoEffect));
    SettleAwaitingCanFinish(b);
    Back(a, Cas(ReceiptT, NoEffect));
  }

  lemma SettleCanFinish(a: Session)
    requires Inv(a) && Tended(a) && ConfirmedRow(a) && a.receipt.Settling?
    ensures CanFinish(a)
  {
    match a.receipt.rt.phase
    case CasCall => SettleCallCanFinish(a);
    case CasReplied(_) => SettleAwaitingCanFinish(a);
    case ReadCall(_) => SettleReadCanFinish(a);
    case ReadReplied(_, _) =>
      SettleFindsIt(a);
      if ResumeTransition(a.receipt.rt).verdict == Returned(true) { SettledCanFinish(a); }
      else {
        var b := Apply(a, Resume(ReceiptT));
        StepInv(a, Resume(ReceiptT));
        StepTended(a, Resume(ReceiptT));
        SettleCallCanFinish(b);
        Back(a, Resume(ReceiptT));
      }
  }

  predicate FoundConfirmed(t: Transition, s: Slot) {
    t.phase.ReadReplied? && t.phase.read.ReadRow? && s.HasClaim() && t.phase.read.row.claim == Some(s.Claimed())
  }

  /** A mark that has read the confirmed row. */
  lemma FoundCanFinish(a: Session)
    requires Inv(a) && Tended(a) && ConfirmedRow(a) && a.broadcast.BroadcastMark? && FoundConfirmed(a.broadcast.bt, a.slot)
    ensures CanFinish(a)
  {
    StepInv(a, Resume(BroadcastT));
    FoundStarts(a);
    CompletionCanFinish(Apply(a, Resume(BroadcastT)));
    Back(a, Resume(BroadcastT));
  }

  lemma FoundStarts(a: Session)
    requires Inv(a) && Tended(a) && ConfirmedRow(a) && a.broadcast.BroadcastMark? && FoundConfirmed(a.broadcast.bt, a.slot)
    ensures var b := Apply(a, Resume(BroadcastT)); ConfirmedRow(b) && Remembered(b) && b.completion != CompletionOff
  {}

  lemma MarkReadCanFinish(a: Session)
    requires Inv(a) && Tended(a) && ConfirmedRow(a) && a.broadcast.BroadcastMark? && a.broadcast.bt.phase.ReadCall?
    ensures CanFinish(a)
  {
    StepInv(a, Read(BroadcastT, false));
    StepTended(a, Read(BroadcastT, false));
    FoundCanFinish(Apply(a, Read(BroadcastT, false)));
    Back(a, Read(BroadcastT, false));
  }

  lemma MarkAwaitingCanFinish(a: Session)
    requires Inv(a) && Tended(a) && ConfirmedRow(a) && a.broadcast.BroadcastMark?
    requires a.broadcast.bt.phase.CasReplied? && a.broadcast.bt.phase != CasReplied(CasTrue)
    ensures CanFinish(a)
  {
    StepInv(a, Resume(BroadcastT));
    StepTended(a, Resume(BroadcastT));
    MarkReadCanFinish(Apply(a, Resume(BroadcastT)));
    Back(a, Resume(BroadcastT));
  }

  lemma MarkCallCanFinish(a: Session)
    requires Inv(a) && Tended(a) && ConfirmedRow(a) && a.broadcast.BroadcastMark? && a.broadcast.bt.phase.CasCall?
    ensures CanFinish(a)
  {
    StepInv(a, Cas(BroadcastT, NoEffect));
    StepTended(a, Cas(BroadcastT, NoEffect));
    MarkAwaitingCanFinish(Apply(a, Cas(BroadcastT, NoEffect)));
    Back(a, Cas(BroadcastT, NoEffect));
  }

  /** What a mark's read can say of a confirmed claim, if not PENDING. */
  lemma MarkReadFacts(a: Session)
    requires Inv(a) && Tended(a) && ConfirmedRow(a) && MarkServes(a) && a.broadcast.bt.phase.ReadReplied?
    ensures FoundConfirmed(a.broadcast.bt, a.slot)
            || Apply(a, Resume(BroadcastT)).broadcast == BroadcastMark(a.broadcast.bt.(phase := CasCall))
  {}

  lemma MarkCanFinish(a: Session)
    requires Inv(a) && Tended(a) && ConfirmedRow(a) && MarkServes(a)
    ensures CanFinish(a)
  {
    match a.broadcast.bt.phase
    case CasCall => MarkCallCanFinish(a);
    case CasReplied(_) => MarkAwaitingCanFinish(a);
    case ReadCall(_) => MarkReadCanFinish(a);
    case ReadReplied(_, _) =>
      MarkReadFacts(a);
      if FoundConfirmed(a.broadcast.bt, a.slot) { FoundCanFinish(a); }
      else {
        StepInv(a, Resume(BroadcastT));
        StepTended(a, Resume(BroadcastT));
        ResumeUntouched(a, BroadcastT);
        MarkCallCanFinish(Apply(a, Resume(BroadcastT)));
        Back(a, Resume(BroadcastT));
      }
  }

  /** From every reachable state a served claim can still be finalized by this process, and an
      unserved one only by a finalization already under way. */
  lemma ServedExactlyFinishes(es: seq<Event>)
    requires AllowedRun(es)
    ensures var a := RunSession(START, es);
            ConfirmedRow(a) && (Served(a) || !a.completion.Finalizing?) ==> (Served(a) <==> CanFinish(a))
  {
    var a := RunSession(START, es);
    RunTended(es);
    if ConfirmedRow(a) && Served(a) { ServedCanFinish(a); }
    if ConfirmedRow(a) && !Served(a) && !a.completion.Finalizing? && CanFinish(a) {
      var more :| AllowedRun(more) && NoCrash(more) && Finalized(RunSession(a, more));
      UnservedNeverFinished(es, more);
    }
  }

  lemma ServedCanFinish(a: Session)
    requires Inv(a) && Tended(a) && ConfirmedRow(a) && Served(a)
    ensures CanFinish(a)
  {
    hide Inv, Tended, ConfirmedRow;
    if SettleServes(a) { SettleCanFinish(a); }
    else if MarkServes(a) { MarkCanFinish(a); }
    else { CompletionCanFinish(a); }
  }
}
