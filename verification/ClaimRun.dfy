/** Runs of one session's machine, and what the events of other tasks leave alone. */
module ClaimRun {
  import opened Wrappers
  import opened ClaimData
  import opened ClaimSession

  const START := Fresh(false)

  function RunSession(a: Session, es: seq<Event>): Session {
    if es == [] then a else Apply(RunSession(a, es[..|es| - 1]), es[|es| - 1])
  }

  predicate AllowedRun(es: seq<Event>) { forall i :: 0 <= i < |es| ==> Allowed(es[i]) }

  lemma RunAppend(a: Session, es: seq<Event>, e: Event)
    ensures RunSession(a, es + [e]) == Apply(RunSession(a, es), e)
  {
    assert (es + [e])[..|es|] == es;
  }

  lemma {:induction false} RunInv(es: seq<Event>)
    requires AllowedRun(es)
    ensures Inv(RunSession(START, es))
  {
    if es == [] {
      FreshInv(false);
    } else {
      var front := es[..|es| - 1];
      RunInv(front);
      StepInv(RunSession(START, front), es[|es| - 1]);
    }
  }

  datatype Role = QueueRole | BroadcastRole | ReceiptRole | CompletionRole

  predicate SamePlace(role: Role, a: Session, b: Session) {
    match role
    case QueueRole => a.queue == b.queue
    case BroadcastRole => a.broadcast == b.broadcast
    case ReceiptRole => a.receipt == b.receipt
    case CompletionRole => a.completion == b.completion
  }

  /** The task is between two awaits of its own. */
  predicate Running(role: Role, a: Session) {
    match role
    case QueueRole => a.queue.QueuePreparing? || a.queue.QueueWriting?
    case BroadcastRole => a.broadcast != BroadcastOff
    case ReceiptRole => a.receipt.ReceiptLoop? || a.receipt.ReceiptWatch? || a.receipt.Settling?
    case CompletionRole => a.completion != CompletionOff
  }

  /** The events that are steps of a task itself. */
  predicate OwnEvent(role: Role, e: Event) {
    match role
    case QueueRole => e.TakeFromQueue? || e.Signed? || (TransitionEvent(e) && e.task == QueueT)
    case BroadcastRole => BroadcastEvent(e) || (TransitionEvent(e) && e.task == BroadcastT)
    case ReceiptRole => e.ReceiptCheck? || e.ReceiptArrived? || e.ReceiptFailed? || (TransitionEvent(e) && e.task == ReceiptT)
    case CompletionRole => CompletionEvent(e) || e.FinalCas? || e.FinalResume?
  }

  /** While the queue task writes, the tasks it will start are not there yet. */
  predicate Alone(a: Session) {
    && (a.queue.QueueWriting? ==> Quiet(a))
    && (a.creating.Some? ==> a.queue == QueueOff)
  }

  lemma InvAlone(a: Session)
    requires Inv(a)
    ensures Alone(a)
  {}

  /** No other task moves a running task on, short of the process ending. */
  lemma OthersLeave(a: Session, e: Event, role: Role)
    requires Alone(a) && Running(role, a) && !OwnEvent(role, e) && !e.Crash? && !e.Restart?
    ensures SamePlace(role, a, Apply(a, e)) && Apply(a, e).up == a.up
  {
    hide ApplyCas, ApplyRead, ApplyResume, ApplyFinalCas, ResumeFinal, Running, Alone;
    match e
    case Cas(task, f) => CasLeaves(a, task, f, role);
    case Read(task, fails) => ReadLeaves(a, task, fails, role);
    case Resume(task) => ResumeLeaves(a, task, role);
    case FinalCas(f) => FinalCasLeaves(a, f, role);
    case FinalResume => if a.completion.Finalizing? { FinalLeaves(a, role); }
    case _ => RestLeaves(a, e, role);
  }

  lemma RestLeaves(a: Session, e: Event, role: Role)
    requires Alone(a) && Running(role, a) && !OwnEvent(role, e) && !e.Crash? && !e.Restart?
    requires !TransitionEvent(e) && !e.FinalCas? && !e.FinalResume?
    ensures SamePlace(role, a, Apply(a, e)) && Apply(a, e).up == a.up
  {
    if QueueEvent(e) || BroadcastEvent(e) || CompletionEvent(e) { TaskLeaves(a, e, role); }
  }

  lemma TaskLeaves(a: Session, e: Event, role: Role)
    requires Alone(a) && Running(role, a) && !OwnEvent(role, e) && (QueueEvent(e) || BroadcastEvent(e) || CompletionEvent(e))
    ensures SamePlace(role, a, Apply(a, e)) && Apply(a, e).up == a.up
  {
    if QueueEvent(e) { QueueEventLeaves(a, e, role); }
  }

  lemma QueueEventLeaves(a: Session, e: Event, role: Role)
    requires Alone(a) && Running(role, a) && !OwnEvent(role, e) && QueueEvent(e)
    ensures SamePlace(role, a, Apply(a, e)) && Apply(a, e).up == a.up
  {}

  lemma CasLeaves(a: Session, task: Task, f: Fault, role: Role)
    requires !OwnEvent(role, Cas(task, f))
    ensures SamePlace(role, a, ApplyCas(a, task, f)) && ApplyCas(a, task, f).up == a.up
  {}

  lemma ReadLeaves(a: Session, task: Task, fails: bool, role: Role)
    requires !OwnEvent(role, Read(task, fails))
    ensures SamePlace(role, a, ApplyRead(a, task, fails)) && ApplyRead(a, task, fails).up == a.up
  {}

  lemma FinalCasLeaves(a: Session, f: Fault, role: Role)
    requires role != CompletionRole
    ensures SamePlace(role, a, ApplyFinalCas(a, f)) && ApplyFinalCas(a, f).up == a.up
  {}

  lemma FinalLeaves(a: Session, role: Role)
    requires Running(role, a) && role != CompletionRole && a.completion.Finalizing?
    ensures SamePlace(role, a, ResumeFinal(a)) && ResumeFinal(a).up == a.up
  {}

  lemma QueueIdle(a: Session, role: Role)
    requires Alone(a) && Running(role, a) && role != QueueRole
    ensures !a.queue.QueueWriting?
  {}

  lemma MarkLeaves(a: Session, role: Role)
    requires Running(role, a) && role != BroadcastRole && a.broadcast.BroadcastMark?
    ensures SamePlace(role, a, ResumeBroadcastMark(a)) && ResumeBroadcastMark(a).up == a.up
  {
    LearnLeaves(a, ResumeTransition(a.broadcast.bt), role);
  }

  lemma SettleLeaves(a: Session, role: Role)
    requires Running(role, a) && role != ReceiptRole && a.receipt.Settling?
    ensures SamePlace(role, a, ResumeSettle(a)) && ResumeSettle(a).up == a.up
  {
    hide ResumeTransition, Learn;
    LearnLeaves(a, ResumeTransition(a.receipt.rt), role);
  }

  lemma ResumeLeaves(a: Session, task: Task, role: Role)
    requires Alone(a) && Running(role, a) && !OwnEvent(role, Resume(task))
    ensures SamePlace(role, a, ApplyResume(a, task)) && ApplyResume(a, task).up == a.up
  {
    match task
    case QueueT => QueueIdle(a, role);
    case BroadcastT => if a.broadcast.BroadcastMark? { MarkLeaves(a, role); }
    case ReceiptT => if a.receipt.Settling? { SettleLeaves(a, role); }
  }

  lemma LearnLeaves(a: Session, r: Resumed, role: Role)
    requires Running(role, a)
    ensures SamePlace(role, a, Learn(a, r)) && Learn(a, r).up == a.up
  {}

  predicate Outside(role: Role, es: seq<Event>) {
    forall i :: 0 <= i < |es| ==> Allowed(es[i]) && !OwnEvent(role, es[i]) && !es[i].Crash? && !es[i].Restart?
  }

  lemma RunFacts(es: seq<Event>, e: Event)
    requires AllowedRun(es) && Allowed(e)
    ensures Alone(RunSession(START, es)) && SlotLeq(RunSession(START, es).slot, Apply(RunSession(START, es), e).slot)
  {
    RunInv(es);
    InvAlone(RunSession(START, es));
    StepInv(RunSession(START, es), e);
  }

  /** Whatever other tasks do during an await of this one, it finds itself where it was, and the
      row has only moved forward. */
  lemma {:induction false} OthersRun(es: seq<Event>, more: seq<Event>, role: Role)
    requires AllowedRun(es) && Running(role, RunSession(START, es)) && Outside(role, more)
    ensures var a, b := RunSession(START, es), RunSession(START, es + more);
            SamePlace(role, a, b) && SlotLeq(a.slot, b.slot) && a.up == b.up && AllowedRun(es + more)
  {
    if more == [] {
      assert es + more == es;
    } else {
      var front, e := more[..|more| - 1], more[|more| - 1];
      OthersRun(es, front, role);
      assert es + more == es + front + [e];
      RunAppend(START, es + front, e);
      RunFacts(es + front, e);
      var b := RunSession(START, es + front);
      OthersLeave(b, e, role);
      SlotLeqTransitive(RunSession(START, es).slot, b.slot, Apply(b, e).slot);
    }
  }

  /** The stretches that may end settleClaim. */
  predicate SettleStep(a: Session, e: Event) {
    || (e.ReceiptArrived? && a.receipt.ReceiptWatch?)
    || (e == Resume(ReceiptT) && a.receipt.Settling? && Awaiting(a.receipt.rt))
  }

  lemma MemoryDecides(m: Claim, s: Slot)
    requires Below(m, s) && m.Signed() && !m.Active()
    ensures !s.HasActive()
  {}

  lemma LearnedDecides(a: Session, r: Resumed, v: ReceiptTask)
    requires Inv(a) && a.receipt.Settling? && Awaiting(a.receipt.rt) && r == ResumeTransition(a.receipt.rt)
    ensures var b := Learn(a, r);
            && Inv(b) && b.slot == a.slot && b.mem.Some? && b.mem.value.Signed()
            && (r.verdict == Returned(true) ==> b.mem == Some(a.receipt.rt.next) && !b.mem.value.Active())
  {
    ResumeTransitionOk(a.receipt.rt, a.slot);
    LearnInv(a, r);
  }

  lemma AfterSettleReturned(b: Session, v: ReceiptTask, w: Verdict)
    requires v.Settling? && AfterSettle(b, v, w).receipt == SettleReturned && b.mem.Some?
    ensures w == Returned(true) || !b.mem.value.Active()
    ensures AfterSettle(b, v, w).slot == b.slot
  {}

  /** settleClaim returns only once the row is decided. */
  lemma SettleDecides(a: Session, e: Event)
    requires Inv(a) && SettleStep(a, e) && Apply(a, e).receipt == SettleReturned
    ensures !Apply(a, e).slot.HasActive()
  {
    if e == Resume(ReceiptT) {
      var r := ResumeTransition(a.receipt.rt);
      LearnedDecides(a, r, a.receipt);
      var b := Learn(a, r);
      AfterSettleReturned(b, a.receipt, r.verdict);
      MemoryDecides(b.mem.value, b.slot);
    } else {
      ArrivalDecides(a, e.result);
    }
  }

  lemma ArrivalDecides(a: Session, r: Receipt)
    requires Inv(a) && a.receipt.ReceiptWatch? && SettleAttempt(a, 0, r).receipt == SettleReturned
    ensures !a.slot.HasActive()
  {
    MemoryDecides(a.mem.value, a.slot);
  }

  /** While the queue task writes PREPARED nobody else touches the row, so once it has returned
      true the row is what it wrote. */
  lemma QueueWritten(a: Session, t: Transition)
    requires Inv(a) && a.queue == QueueWriting(true, t) && Awaiting(t) && ResumeTransition(t).verdict == Returned(true)
    ensures t.next.Prepared? && a.slot.HasClaim() && a.slot.Claimed() == t.next && a.reserved == Some(t.next.tx)
  {
    ResumeTransitionOk(t, a.slot);
  }

  lemma FinalizedFacts(a: Session, c: Claim)
    requires Inv(a) && a.completion == Finalizing(c, FinalReplied(CasTrue))
    ensures a.slot.HasClaim() && a.slot.row.status == StatusFinished && a.slot.Claimed().Confirmed? && a.hooked
  {}

  lemma ReadFinishedFacts(a: Session, c: Claim, row: Row)
    requires Inv(a) && row.claim.Some? && a.completion == Finalizing(c, FinalReadReplied(ReadRow(row)))
    requires row.claim.value.Confirmed? && row.status == StatusFinished
    ensures a.slot.HasClaim() && a.slot.row.status == StatusFinished && a.slot.Claimed().Confirmed? && a.hooked
  {}
}
