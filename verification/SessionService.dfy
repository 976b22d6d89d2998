/** The methods of src/session/FaucetSession.ts that save and end a session, as they are written:
    awaited calls with code between them that changes the fields. Every stretch between two
    awaits is shown to be one event of SessionEnd's machine, so what holds of all its runs holds
    of the object, whatever other turns do in the awaits. */
module SessionService {
  import opened Wrappers
  import opened SessionEnd
  import opened SessionEndProof

  lemma {:induction false} RunAppend(s: Session, es: seq<Event>, e: Event)
    requires Possible(s, es) && Enabled(Run(s, es), e)
    ensures Possible(s, es + [e]) && Run(s, es + [e]) == Apply(Run(s, es), e)
    decreases |es|
  {
    if es == [] {
      assert es + [e] == [e] && [e][1..] == [];
      assert Possible(Apply(s, e), []);
    } else {
      assert (es + [e])[1..] == es[1..] + [e];
      RunAppend(Apply(s, es[0]), es[1..], e);
    }
  }

  predicate Own(w: Who, e: Event) { (e.Call? || e.Resume?) && e.who == w }

  lemma CallLeaves(s: Session, v: Who, f: Fault, w: Who)
    requires Enabled(s, Call(v, f)) && v != w
    ensures TaskOf(Execute(s, v, f), w) == TaskOf(s, w)
  {}

  lemma SaverLeaves(s: Session, pc: Pc, a: Answer)
    ensures ContinueSave(s, pc, a).act == s.act
  {}

  lemma ActorLeaves(s: Session, pc: Pc, a: Answer)
    ensures ContinueAct(s, pc, a).save == s.save && ContinueAct(s, pc, a).held == s.held
  {
    hide BeginFail, ContinueFail, PersistFailed;
    BeginFailLeaves(s, false, false, Some(if s.status == Committing then Running else Claimable));
    BeginFailLeaves(s, true, true, None);
    BeginFailLeaves(s.(persistence := PDurable), true, true, None);
    FailLeaves(s, pc, a);
  }

  lemma BeginFailLeaves(s: Session, already: bool, hooks: bool, persisted: Option<Status>)
    ensures BeginFail(s, already, hooks, persisted).save == s.save && BeginFail(s, already, hooks, persisted).held == s.held
  {}

  lemma FailLeaves(s: Session, pc: Pc, a: Answer)
    ensures PersistFailed(s, Actor).save == s.save && PersistFailed(s, Actor).held == s.held
    ensures ContinueFail(s, Actor, pc, a).save == s.save && ContinueFail(s, Actor, pc, a).held == s.held
  {
    EndLeaves();
    hide RunRollbacks, FinalizeFailed, Synchronize;
  }

  lemma EndLeaves()
    ensures forall s: Session :: RunRollbacks(s, Actor).save == s.save && RunRollbacks(s, Actor).held == s.held
    ensures forall s: Session :: FinalizeFailed(s).save == s.save && FinalizeFailed(s).held == s.held
    ensures forall s: Session, r: Stored :: Synchronize(s, r).save == s.save && Synchronize(s, r).held == s.held
  {}

  lemma ResumesTo(s: Session, w: Who, pc: Pc, a: Answer)
    requires TaskOf(s, w) == At(pc, Some(a))
    ensures Enabled(s, Resume(w))
    ensures Apply(s, Resume(w)) == if w == Saver then ContinueSave(s, pc, a) else ContinueAct(s, pc, a)
  {}

  /** While a task stands at an await, nothing but its own events moves it on. */
  lemma OthersLeave(s: Session, e: Event, w: Who)
    requires Enabled(s, e) && TaskOf(s, w).At? && !Own(w, e)
    ensures TaskOf(Apply(s, e), w) == TaskOf(s, w)
  {
    match e
    case Call(v, f) => CallLeaves(s, v, f, w);
    case Resume(Saver) => SaverLeaves(s, s.save.pc, s.save.answer.value);
    case Resume(Actor) => ActorLeaves(s, s.act.pc, s.act.answer.value);
    case _ =>
  }

  predicate NotOwn(w: Who, es: seq<Event>) { forall i :: 0 <= i < |es| ==> !Own(w, es[i]) }

  lemma {:induction false} OthersRun(s: Session, es: seq<Event>, w: Who)
    requires Possible(s, es) && NotOwn(w, es) && TaskOf(s, w).At?
    ensures TaskOf(Run(s, es), w) == TaskOf(s, w)
    decreases |es|
  {
    if es != [] {
      OthersLeave(s, es[0], w);
      OthersRun(Apply(s, es[0]), es[1..], w);
    }
  }

  /** Equal in everything but the places of the tasks and history. */
  predicate SameFields(a: Session, b: Session) {
    && a.status == b.status && a.content == b.content && a.persistence == b.persistence && a.failure == b.failure
    && a.disposed == b.disposed && a.released == b.released && a.rollbacks == b.rollbacks && a.row == b.row
  }

  lemma {:induction false} RunConcat(s: Session, a: seq<Event>, b: seq<Event>)
    requires Possible(s, a) && Possible(Run(s, a), b)
    ensures Possible(s, a + b) && Run(s, a + b) == Run(Run(s, a), b)
    decreases |a|
  {
    if a == [] {
      assert a + b == b;
    } else {
      assert (a + b)[0] == a[0] && (a + b)[1..] == a[1..] + b;
      RunConcat(Apply(s, a[0]), a[1..], b);
    }
  }

  lemma PlaceFacts(s: Session, w: Who)
    requires Inv(s) && TaskOf(s, w).At?
    ensures var pc := TaskOf(s, w).pc;
            && (pc.RcFail? || pc.FailSent? || pc.FailRead? || pc.FailWait? ==> !s.failure.FNone?)
            && (pc.Callbacks? ==> s.disposed)
  {}

  /** How a save ends: nothing to save, the row holds what was saved, somebody else's end of the
      session has been taken over, or an error. */
  datatype SaveOutcome = Unneeded | Saved | Adopted | Rejected

  /** What the last answer means for a save. */
  function SaveVerdict(pc: Pc, a: Answer): SaveOutcome {
    match pc
    case InsertSent(_) => if a == Done(true) then Saved else Rejected
    case UpdateSent(_) => if a == Done(true) then Saved else Rejected
    case RcInsert(snapshot, _) => ReadVerdict(a, snapshot)
    case RcAfter(snapshot) => ReadVerdict(a, snapshot)
    case UpdateSync => if a.Read? && TerminalRow(a.row) then Adopted else Rejected
    case _ => Rejected
  }

  function ReadVerdict(a: Answer, snapshot: Data): SaveOutcome {
    if !a.Read? then Rejected else if Equals(a.row, snapshot) then Saved else if TerminalRow(a.row) then Adopted else Rejected
  }

  /** The last answer of a timeout says that it did not take place. */
  predicate NotTimedOut(s: Session, pc: Pc, a: Answer) {
    match pc
    case TimeoutSave => !(a == Done(true) && s.status == Running)
    case TimeoutRead => !(a.Read? && Equals(a.row, Data(Failed, TIMEOUT_CONTENT)))
    case TimeoutCheck => !(a.Read? && a.row.Some? && a.row.value.data.status != Running)
    case TimeoutSync => true
    case _ => false
  }

  lemma HeldGrows(s: Session, e: Event)
    requires Enabled(s, e)
    ensures s.held <= Apply(s, e).held
  {
    match e
    case Resume(Saver) => SaverHolds(s, s.save.pc, s.save.answer.value);
    case Resume(Actor) => ActorLeaves(s, s.act.pc, s.act.answer.value);
    case _ =>
  }

  lemma SaverHolds(s: Session, pc: Pc, a: Answer)
    ensures ContinueSave(s, pc, a).held == s.held
  {}

  lemma {:induction false} HeldStays(s: Session, es: seq<Event>, more: seq<Event>)
    requires Possible(s, es) && es <= more && Possible(s, more)
    ensures Run(s, es).held <= Run(s, more).held
    decreases |more|
  {
    if more != [] {
      if es == [] {
        HeldGrows(s, more[0]);
        HeldStays(Apply(s, more[0]), [], more[1..]);
      } else {
        HeldStays(Apply(s, es[0]), es[1..], more[1..]);
      }
    }
  }

  /** A timeout that is stored, as its own statement or a later read tells. */
  lemma TimeoutStored(s: Session)
    requires Inv(s) && s.act.At? && s.act.answer.Some?
    requires (s.act.pc.TimeoutSent? && s.act.answer.value == Done(true))
             || (s.act.pc.TimeoutRead? && s.act.answer.value.Read? && Equals(s.act.answer.value.row, Data(Failed, TIMEOUT_CONTENT)))
    ensures Failed in s.held
  {}

  class FaucetSession {
    var row: DbRow
    var status: Status
    var content: nat
    var persistence: Persistence
    var failure: Failure
    var disposed: bool
    var released: bool
    var rollbacks: nat
    ghost var rest: Session
    ghost var start: Session
    ghost var trace: seq<Event>

    /** A session object before startSession. */
    constructor (content: nat)
      ensures Valid() && View() == Fresh(content) && trace == [] && start == Fresh(content)
    {
      row, status, this.content, persistence, failure := NoRow, Starting, content, PAbsent, FNone;
      disposed, released, rollbacks := false, false, 0;
      rest, start, trace := Fresh(content), Fresh(content), [];
    }

    /** restoreSession: the object of a row that is still running. */
    constructor Restore(content: nat)
      ensures Valid() && View() == Restored(content) && trace == [] && start == Restored(content)
    {
      row, status, this.content := Present(Stored(Data(Running, content), false)), Running, content;
      persistence, failure, disposed, released, rollbacks := PDurable, FNone, false, false, 0;
      rest, start, trace := Restored(content), Restored(content), [];
    }

    ghost function View(): Session
      reads this
    {
      rest.(row := row, status := status, content := content, persistence := persistence, failure := failure,
            disposed := disposed, released := released, rollbacks := rollbacks)
    }

    /** The machine is in state a after the events so far. */
    ghost predicate Reached(a: Session)
      reads this
    {
      (start == Fresh(start.content) || start == Restored(start.content)) && Possible(start, trace) && Run(start, trace) == a
    }

    /** No event of the past is lost. */
    ghost predicate Continues(start: Session, past: seq<Event>)
      reads this
    {
      this.start == start && past <= trace
    }

    ghost predicate Valid()
      reads this
    {
      Reached(View())
    }

    /** The stretch that runs has come from a by e, which is still to be recorded, and has to
        become next. */
    ghost predicate Pending(a: Session, e: Event, next: Session)
      reads this
    {
      Reached(a) && Enabled(a, e) && Apply(a, e) == next
    }

    /** The session has ended, or a failure of it is being persisted. */
    predicate Over()
      reads this
    {
      disposed || !failure.FNone?
    }

    /** The terminal operation is over, or still waits at pc for the save chain. */
    ghost predicate EndsOrWaits(pc: Pc)
      reads this
    {
      (View().act.Idle? && Over()) || View().act == At(pc, None)
    }

    /** What the places of persistFailedSession tell. */
    lemma PlaceHolds(w: Who)
      requires Valid() && TaskOf(View(), w).At?
      ensures var pc := TaskOf(View(), w).pc;
              && (pc.RcFail? || pc.FailSent? || pc.FailRead? || pc.FailWait? ==> !failure.FNone?)
              && (pc.Callbacks? ==> disposed)
    {
      RunKeeps(start, trace);
      PlaceFacts(View(), w);
    }

    /** The last event was e, out of state a. */
    ghost predicate LastWas(a: Session, e: Event)
      reads this
    {
      && |trace| > 0 && trace[|trace| - 1] == e
      && Possible(start, trace[..|trace| - 1]) && Run(start, trace[..|trace| - 1]) == a && Enabled(a, e) && View() == Apply(a, e)
    }

    /** A save has just ended this way. */
    ghost predicate SaveEnds(outcome: SaveOutcome)
      reads this
    {
      |trace| > 0 && var past := trace[..|trace| - 1];
      && Possible(start, past) && var b := Run(start, past);
      && LastWas(b, Resume(Saver)) && SaveVerdict(b.save.pc, b.save.answer.value) == outcome
    }

    /** A timeout has just ended without taking place. */
    ghost predicate TimeoutEnds()
      reads this
    {
      |trace| > 0 && var past := trace[..|trace| - 1];
      && Possible(start, past) && var b := Run(start, past);
      && LastWas(b, Resume(Actor)) && NotTimedOut(b, b.act.pc, b.act.answer.value)
    }

    /** One more event: the fields have been changed the way it changes them. */
    ghost method Step(a: Session, e: Event)
      requires Reached(a) && Enabled(a, e) && SameFields(View(), Apply(a, e))
      modifies this`rest, this`trace
      ensures Valid() && View() == Apply(a, e) && LastWas(a, e)
      ensures Continues(old(start), old(trace))
    {
      RunAppend(start, trace, e);
      rest := Apply(a, e);
      trace := trace + [e];
      assert trace[..|trace| - 1] == old(trace);
    }

    /** Events of others: the body takes none, callers know only the contract. */
    method OtherEvents(ghost w: Who) returns (ghost more: seq<Event>)
      requires Valid()
      modifies this
      ensures Continues(old(start), old(trace))
      ensures start == old(start) && trace == old(trace) + more
      ensures NotOwn(w, more) && Possible(old(View()), more) && View() == Run(old(View()), more)
    {
      more := [];
      assert trace + more == trace;
    }

    method Await(ghost w: Who)
      requires Valid() && TaskOf(View(), w).At?
      modifies this
      ensures Continues(old(start), old(trace))
      ensures Valid() && TaskOf(View(), w) == TaskOf(old(View()), w)
    {
      ghost var before, old' := View(), trace;
      ghost var more := OtherEvents(w);
      RunConcat(start, old', more);
      OthersRun(before, more, w);
    }

    // -------------------------------------------------------------- the database

    /** The guarded statements of the session table. */
    method ExecuteStatement(pc: Pc, f: Fault) returns (answer: Answer)
      requires IsWrite(pc)
      modifies this`row
      ensures var d := Write(old(View()), pc);
              && row == (if d.Some? && f != NoEffect then Present(Stored(d.value, false)) else old(row))
              && answer == (if f != Ack || (pc.InsertSent? && d.None?) then Threw else Done(d.Some?))
    {
      var unclaimed := row.Present? && !row.stored.claimed;
      var matches, data := false, Data(Failed, TIMEOUT_CONTENT);
      match pc {
        case InsertSent(d) => matches, data := row.NoRow?, d;
        case UpdateSent(d) => matches, data := unclaimed && row.stored.data.status == Running, d;
        case ClaimSent(d) => matches, data := unclaimed && row.stored.data.status == Running, d;
        case FailSent(g) => if g.FPending? { matches, data := unclaimed && row.stored.data.status == g.expected, g.data; }
        case TimeoutSent(c) => matches := unclaimed && row.stored.data == Data(Running, c);
      }
      if matches && f != NoEffect { row := Present(Stored(data, false)); }
      answer := if f != Ack || (pc.InsertSent? && !matches) then Threw else Done(matches);
    }

    method AwaitStatement(ghost w: Who, pc: Pc) returns (answer: Answer)
      requires Valid() && TaskOf(View(), w) == At(pc, None) && IsWrite(pc)
      modifies this
      ensures Continues(old(start), old(trace))
      ensures Valid() && TaskOf(View(), w) == At(pc, Some(answer))
    {
      Await(w);
      ghost var a := View();
      var f: Fault := *;
      answer := ExecuteStatement(pc, f);
      Step(a, Call(w, f));
      Await(w);
    }

    /** getSession */
    method AwaitRead(ghost w: Who, ghost pc: Pc) returns (answer: Answer)
      requires Valid() && TaskOf(View(), w) == At(pc, None) && !IsWrite(pc) && !IsHook(pc) && !IsWait(pc)
      modifies this
      ensures Continues(old(start), old(trace))
      ensures Valid() && TaskOf(View(), w) == At(pc, Some(answer))
    {
      Await(w);
      var fails: bool := *;
      answer := if fails then Threw else Read(if row.Present? then Some(row.stored) else None);
      Step(View(), Call(w, if fails then NoEffect else Ack));
      Await(w);
    }

    /** Hooks, rollback callbacks, and the save before a timeout. */
    method AwaitHooks(ghost w: Who, ghost pc: Pc) returns (answer: Answer)
      requires Valid() && TaskOf(View(), w) == At(pc, None) && IsHook(pc) && !IsWrite(pc)
      modifies this
      ensures Continues(old(start), old(trace))
      ensures Valid() && TaskOf(View(), w) == At(pc, Some(answer)) && (answer == Done(true) || answer == Threw)
    {
      Await(w);
      var fails: bool := *;
      answer := if fails then Threw else Done(true);
      Step(View(), Call(w, if fails then NoEffect else Ack));
      Await(w);
    }

    /** The end of the save chain; if a save is still running, it is not there yet. */
    method AwaitPersistence(ghost pc: Pc) returns (over: bool)
      requires Valid() && View().act == At(pc, None) && IsWait(pc)
      modifies this
      ensures Continues(old(start), old(trace))
      ensures Valid()
      ensures View().act == At(pc, if over then Some(Done(true)) else None)
    {
      Await(Actor);
      over := PersistenceResolved();
      if !over { return; }
      Step(View(), Call(Actor, Ack));
      Await(Actor);
    }

    /** persistencePromise: when it has resolved, no save is running. The body leaves it open,
        callers know only the contract. */
    method PersistenceResolved() returns (resolved: bool)
      ensures resolved ==> !SavingRunning(View())
    {
      resolved := false;
    }

    // -------------------------------------------------------------- synchronous parts

    /** synchronizeTerminalState with an observed row. */
    method SynchronizeTerminalState(r: Stored)
      modifies this`status, this`content, this`persistence, this`failure, this`released, this`disposed
      ensures View() == Synchronize(old(View()), r)
    {
      status := r.data.status;
      content := r.data.content;
      persistence := PDurable;
      failure := FComplete;
      released := true;
      disposed := true;
    }

    /** finalizeFailedSession */
    method FinalizeFailedSession()
      modifies this`failure, this`released, this`disposed
      ensures View() == FinalizeFailed(old(View()))
    {
      failure := FComplete;
      released := true;
      disposed := true;
    }

    // -------------------------------------------------------------- start rollbacks

    /** The guards of runStartRollbacks. */
    predicate MayRollBack()
      reads this
    {
      rollbacks != 0 && failure.FComplete? && !persistence.PUncertain? && (persistence.PDurable? ==> status == Failed)
    }

    /** runStartRollbacks, at the end of a stretch. */
    method RunStartRollbacks(w: Who, ghost a: Session, ghost e: Event)
      requires Pending(a, e, RunRollbacks(View(), w))
      requires Over()
      modifies this
      ensures Continues(old(start), old(trace))
      ensures Valid() && TaskOf(View(), w).Idle? && Over()
    {
      if MayRollBack() {
        rollbacks := 0;
        Step(a, e);
        RunCallbacks(w);
      } else {
        SkipRollbacks(w, a, e);
      }
    }

    /** Rollbacks that no longer apply are forgotten; otherwise they are kept. */
    method SkipRollbacks(w: Who, ghost a: Session, ghost e: Event)
      requires Pending(a, e, RunRollbacks(View(), w)) && !MayRollBack()
      requires Over()
      modifies this
      ensures Continues(old(start), old(trace))
      ensures Valid() && TaskOf(View(), w).Idle? && Over()
    {
      hide Apply, Enabled;
      if rollbacks != 0 && failure.FComplete? && persistence.PDurable? && Terminal(status) { rollbacks := 0; }
      Step(a, e);
    }

    method RunCallbacks(w: Who)
      requires Valid() && TaskOf(View(), w) == At(Callbacks, None)
      modifies this
      ensures Continues(old(start), old(trace))
      ensures Valid() && TaskOf(View(), w).Idle? && Over()
    {
      var answer := AwaitHooks(w, Callbacks);
      PlaceHolds(w);
      Step(View(), Resume(w));
    }

    // -------------------------------------------------------------- persistFailedSession

    /** An error out of persistFailedSession. */
    method FailingThrows(w: Who, ghost a: Session, ghost e: Event)
      requires Pending(a, e, FailThrow(View(), w))
      requires Over()
      modifies this
      ensures Continues(old(start), old(trace))
      ensures Valid() && TaskOf(View(), w).Idle? && Over()
    {
      if w == Saver { Step(a, e); } else { RunStartRollbacks(w, a, e); }
    }

    /** The failure is durable. */
    method FailureStored(w: Who, ghost a: Session, ghost e: Event)
      requires Pending(a, e, RunRollbacks(FinalizeFailed(View().(persistence := PDurable)), w))
      modifies this
      ensures Continues(old(start), old(trace))
      ensures Valid() && TaskOf(View(), w).Idle? && Over()
    {
      persistence := PDurable;
      FinalizeFailedSession();
      RunStartRollbacks(w, a, e);
    }

    /** Somebody else has ended the session. */
    method AdoptTerminal(w: Who, r: Stored, ghost a: Session, ghost e: Event)
      requires Pending(a, e, RunRollbacks(Synchronize(View(), r), w))
      modifies this
      ensures Continues(old(start), old(trace))
      ensures Valid() && TaskOf(View(), w).Idle? && Over()
    {
      SynchronizeTerminalState(r);
      RunStartRollbacks(w, a, e);
    }

    /** persistFailedSession with the rollbacks that follow it. */
    method PersistFailedSession(w: Who, ghost a: Session, ghost e: Event)
      requires Pending(a, e, PersistFailed(View(), w))
      requires !failure.FNone?
      modifies this
      ensures Continues(old(start), old(trace))
      ensures Valid() && TaskOf(View(), w).Idle? && Over()
    {
      if !failure.FPending? {
        RunStartRollbacks(w, a, e);
        return;
      }
      if failure.already || persistence.PAbsent? {
        if failure.already { persistence := PDurable; }
        FinalizeFailedSession();
        RunStartRollbacks(w, a, e);
        return;
      }
      var f := failure;
      if persistence.PUncertain? {
        var snapshot := persistence.snapshot;
        Step(a, e);
        ReconcileFailed(w, snapshot, f);
      } else {
        Step(a, e);
        TransitionFailed(w, f);
      }
    }

    /** reconcileUncertainInsert inside persistFailedSession. */
    method ReconcileFailed(w: Who, snapshot: Data, f: Failure)
      requires Valid() && TaskOf(View(), w) == At(RcFail(snapshot, f), None)
      modifies this
      ensures Continues(old(start), old(trace))
      ensures Valid() && TaskOf(View(), w).Idle? && Over()
    {
      hide Apply, Enabled;
      var answer := AwaitRead(w, RcFail(snapshot, f));
      ResumesTo(View(), w, RcFail(snapshot, f), answer);
      PlaceHolds(w);
      ghost var a, e := View(), Resume(w);
      if !answer.Read? {
        FailingThrows(w, a, e);
      } else if answer.row.None? {
        persistence := PAbsent;
        FinalizeFailedSession();
        RunStartRollbacks(w, a, e);
      } else if Equals(answer.row, snapshot) {
        persistence := PDurable;
        Step(a, e);
        TransitionFailed(w, f);
      } else if TerminalRow(answer.row) {
        AdoptTerminal(w, answer.row.value, a, e);
      } else {
        FailingThrows(w, a, e);
      }
    }

    /** The transition to FAILED, and the read after an unclear one. */
    method TransitionFailed(w: Who, f: Failure)
      requires Valid() && TaskOf(View(), w) == At(FailSent(f), None)
      modifies this
      ensures Continues(old(start), old(trace))
      ensures Valid() && TaskOf(View(), w).Idle? && Over()
    {
      var answer := AwaitStatement(w, FailSent(f));
      PlaceHolds(w);
      ghost var a, e := View(), Resume(w);
      if answer == Done(true) {
        FailureStored(w, a, e);
        return;
      }
      Step(a, e);
      ReadBackFailed(w, f);
    }

    method ReadBackFailed(w: Who, f: Failure)
      requires Valid() && TaskOf(View(), w) == At(FailRead(f), None)
      modifies this
      ensures Continues(old(start), old(trace))
      ensures Valid() && TaskOf(View(), w).Idle? && Over()
    {
      var answer := AwaitRead(w, FailRead(f));
      PlaceHolds(w);
      ghost var a, e := View(), Resume(w);
      if answer.Read? && f.FPending? && Equals(answer.row, f.data) {
        FailureStored(w, a, e);
      } else if answer.Read? && TerminalRow(answer.row) {
        AdoptTerminal(w, answer.row.value, a, e);
      } else {
        FailingThrows(w, a, e);
      }
    }

    // -------------------------------------------------------------- the save chain

    /** persistSession, when its turn in the save chain comes. */
    method PersistSession(dirty: bool)
      requires Valid() && View().save.Idle?
      modifies this
      ensures Continues(old(start), old(trace))
      ensures Valid() && View().save.Idle?
    {
      ghost var a := View();
      if failure.FPending? {
        PersistFailedSession(Saver, a, Save(dirty));
      } else if failure.FComplete? {
        RunStartRollbacks(Saver, a, Save(dirty));
      } else {
        var _ := PersistRunningSession(dirty);
      }
    }

    /** persistRunningSession */
    method PersistRunningSession(dirty: bool) returns (outcome: SaveOutcome)
      requires Valid() && View().save.Idle? && !failure.FPending? && !failure.FComplete?
      modifies this
      ensures Continues(old(start), old(trace))
      ensures Valid() && View().save.Idle?
      ensures outcome.Unneeded? <==> !dirty || old(disposed) || old(status) != Running
      ensures outcome.Unneeded? ==> View() == old(View())
      ensures !outcome.Unneeded? ==> SaveEnds(outcome)
      ensures outcome.Adopted? ==> disposed && released && Terminal(status) && failure.FComplete? && persistence.PDurable?
      ensures outcome.Saved? && !old(persistence).PDurable? ==> persistence.PDurable?
    {
      ghost var a := View();
      if !dirty || disposed || status != Running {
        Step(a, Save(dirty));
        return Unneeded;
      }
      var sessionData := Data(status, content);
      if persistence.PUncertain? {
        var snapshot := persistence.snapshot;
        Step(a, Save(dirty));
        outcome := ReconcileInsert(snapshot, sessionData);
      } else if persistence.PAbsent? {
        persistence := PUncertain(sessionData);
        Step(a, Save(dirty));
        outcome := InsertRunning(sessionData);
      } else {
        Step(a, Save(dirty));
        outcome := UpdateRunning(sessionData);
      }
    }

    /** reconcileUncertainInsert before another save. */
    method ReconcileInsert(snapshot: Data, sessionData: Data) returns (outcome: SaveOutcome)
      requires Valid() && View().save == At(RcInsert(snapshot, sessionData), None)
      modifies this
      ensures Continues(old(start), old(trace))
      ensures Valid() && View().save.Idle?
      ensures SaveEnds(outcome) && !outcome.Unneeded?
      ensures outcome.Adopted? ==> disposed && released && Terminal(status) && failure.FComplete? && persistence.PDurable?
      ensures outcome.Saved? ==> persistence.PDurable?
    {
      hide Apply, Enabled;
      var answer := AwaitRead(Saver, RcInsert(snapshot, sessionData));
      ResumesTo(View(), Saver, RcInsert(snapshot, sessionData), answer);
      ghost var a := View();
      if answer.Read? && answer.row.None? {
        persistence := PAbsent;
        persistence := PUncertain(sessionData);
        Step(a, Resume(Saver));
        outcome := InsertRunning(sessionData);
        return;
      }
      if answer.Read? { LearnStored(answer.row, snapshot); }
      outcome := ReadVerdict(answer, snapshot);
      Step(a, Resume(Saver));
    }

    /** What a stored row tells about an uncertain insert. */
    method LearnStored(stored: Option<Stored>, snapshot: Data)
      requires stored.Some?
      modifies this`status, this`content, this`persistence, this`failure, this`released, this`disposed
      ensures View() == if Equals(stored, snapshot) then old(View()).(persistence := PDurable)
                        else if TerminalRow(stored) then Synchronize(old(View()), stored.value) else old(View())
    {
      if Equals(stored, snapshot) {
        persistence := PDurable;
      } else if TerminalRow(stored) {
        persistence := PDurable;
        SynchronizeTerminalState(stored.value);
      }
    }

    /** The insert, and the read after an unclear one. */
    method InsertRunning(sessionData: Data) returns (outcome: SaveOutcome)
      requires Valid() && View().save == At(InsertSent(sessionData), None)
      modifies this
      ensures Continues(old(start), old(trace))
      ensures Valid() && View().save.Idle?
      ensures SaveEnds(outcome) && !outcome.Unneeded?
      ensures outcome.Adopted? ==> disposed && released && Terminal(status) && failure.FComplete? && persistence.PDurable?
      ensures outcome.Saved? ==> persistence.PDurable?
    {
      var answer := AwaitStatement(Saver, InsertSent(sessionData));
      ghost var a := View();
      if answer == Done(true) {
        persistence := PDurable;
        Step(a, Resume(Saver));
        return Saved;
      }
      Step(a, Resume(Saver));
      outcome := Rejected;
      if persistence.PUncertain? { outcome := ReadInserted(persistence.snapshot); }
    }

    method ReadInserted(snapshot: Data) returns (outcome: SaveOutcome)
      requires Valid() && View().save == At(RcAfter(snapshot), None)
      modifies this
      ensures Continues(old(start), old(trace))
      ensures Valid() && View().save.Idle?
      ensures SaveEnds(outcome) && !outcome.Unneeded?
      ensures outcome.Adopted? ==> disposed && released && Terminal(status) && failure.FComplete? && persistence.PDurable?
      ensures outcome.Saved? ==> persistence.PDurable?
    {
      var answer := AwaitRead(Saver, RcAfter(snapshot));
      ghost var a := View();
      if answer.Read? && answer.row.None? {
        persistence := PAbsent;
      } else if answer.Read? {
        LearnStored(answer.row, snapshot);
      }
      outcome := ReadVerdict(answer, snapshot);
      Step(a, Resume(Saver));
    }

    /** The update, and the synchronization when the row is no longer running. */
    method UpdateRunning(sessionData: Data) returns (outcome: SaveOutcome)
      requires Valid() && View().save == At(UpdateSent(sessionData), None)
      modifies this
      ensures Continues(old(start), old(trace))
      ensures Valid() && View().save.Idle?
      ensures SaveEnds(outcome) && !outcome.Unneeded?
      ensures outcome.Adopted? ==> disposed && released && Terminal(status) && failure.FComplete? && persistence.PDurable?
    {
      var answer := AwaitStatement(Saver, UpdateSent(sessionData));
      Step(View(), Resume(Saver));
      if answer != Done(false) { return if answer == Done(true) then Saved else Rejected; }
      outcome := SynchronizeSaved();
    }

    method SynchronizeSaved() returns (outcome: SaveOutcome)
      requires Valid() && View().save == At(UpdateSync, None)
      modifies this
      ensures Continues(old(start), old(trace))
      ensures Valid() && View().save.Idle?
      ensures SaveEnds(outcome) && !outcome.Unneeded?
      ensures outcome.Adopted? ==> disposed && released && Terminal(status) && failure.FComplete? && persistence.PDurable?
      ensures !outcome.Saved?
    {
      var answer := AwaitRead(Saver, UpdateSync);
      ghost var a := View();
      outcome := Rejected;
      if answer.Read? && TerminalRow(answer.row) {
        SynchronizeTerminalState(answer.row.value);
        outcome := Adopted;
      }
      Step(a, Resume(Saver));
    }

    // -------------------------------------------------------------- finishFailedSession

    /** finishFailedSession: the failure is prepared and fixed, then persisted once the save chain
        has come to rest. */
    method FinishFailedSession(already: bool, hooks: bool, persisted: Option<Status>, ghost a: Session, ghost e: Event)
      requires Pending(a, e, BeginFail(View(), already, hooks, persisted))
      modifies this
      ensures Continues(old(start), old(trace))
      ensures Valid() && EndsOrWaits(FailWait)
    {
      if disposed {
        Step(a, e);
        return;
      }
      if failure.FNone? {
        PrepareFailure(already, hooks, persisted, a, e);
      } else {
        Step(a, e);
      }
      PersistAfterWait();
    }

    /** The failure and its data; the hooks run in between if the session was running. */
    method PrepareFailure(already: bool, hooks: bool, persisted: Option<Status>, ghost a: Session, ghost e: Event)
      requires Pending(a, e, BeginFail(View(), already, hooks, persisted)) && !disposed && failure.FNone?
      modifies this
      ensures Continues(old(start), old(trace))
      ensures Valid() && View().act == At(FailWait, None)
    {
      var oldStatus := status;
      var expectedStatus := if persisted.Some? then persisted.value else if oldStatus == Committing then Running else oldStatus;
      failure := FPreparing;
      status := Failed;
      if hooks && (oldStatus == Running || oldStatus == Committing) {
        Step(a, e);
        CompletionHooks(expectedStatus, already);
      } else {
        failure := FPending(expectedStatus, already, Data(status, content));
        Step(a, e);
      }
    }

    method CompletionHooks(expectedStatus: Status, already: bool)
      requires Valid() && View().act == At(FailHooks(expectedStatus, already), None)
      modifies this
      ensures Continues(old(start), old(trace))
      ensures Valid() && View().act == At(FailWait, None)
    {
      var answer := AwaitHooks(Actor, FailHooks(expectedStatus, already));
      ghost var b := View();
      failure := FPending(expectedStatus, already, Data(status, content));
      Step(b, Resume(Actor));
    }

    /** await persistencePromise, then persistFailedSession. */
    method PersistAfterWait()
      requires Valid() && View().act == At(FailWait, None)
      modifies this
      ensures Continues(old(start), old(trace))
      ensures Valid() && EndsOrWaits(FailWait)
    {
      var over := AwaitPersistence(FailWait);
      if over {
        PlaceHolds(Actor);
        PersistFailedSession(Actor, View(), Resume(Actor));
      }
    }

    // -------------------------------------------------------------- finishSession

    /** finishSession; enough tells whether the reward reaches the minimum. */
    method FinishSession(enough: bool)
      requires Valid() && View().act.Idle? && status == Running
      modifies this
      ensures Continues(old(start), old(trace))
      ensures Valid() && (EndsOrWaits(FailWait) || EndsOrWaits(CompleteWait))
    {
      ghost var a := View();
      if !enough {
        FinishFailedSession(false, true, None, a, Complete(false));
        return;
      }
      status := Committing;
      Step(a, Complete(true));
      CommitAfterHooks();
    }

    /** The try block of finishSession. */
    method CommitAfterHooks()
      requires Valid() && View().act == At(CompleteHooks, None)
      modifies this
      ensures Continues(old(start), old(trace))
      ensures Valid() && (EndsOrWaits(FailWait) || EndsOrWaits(CompleteWait))
    {
      var answer := AwaitHooks(Actor, CompleteHooks);
      if answer.Threw? {
        CatchFinish(View(), Resume(Actor));
        return;
      }
      Step(View(), Resume(Actor));
      var over := AwaitPersistence(CompleteWait);
      if over { CommitClaimableRow(); }
    }

    /** The catch block of finishSession. */
    method CatchFinish(ghost a: Session, ghost e: Event)
      requires Pending(a, e, CatchComplete(View()))
      modifies this
      ensures Continues(old(start), old(trace))
      ensures Valid() && EndsOrWaits(FailWait)
    {
      FinishFailedSession(false, false, Some(if status == Committing then Running else Claimable), a, e);
    }

    /** The transition to CLAIMABLE, and the read after an unclear one. */
    method CommitClaimableRow()
      requires Valid() && View().act == At(CompleteWait, Some(Done(true)))
      modifies this
      ensures Continues(old(start), old(trace))
      ensures Valid() && EndsOrWaits(FailWait)
    {
      hide Apply, Enabled;
      var claimableData := Data(Claimable, content);
      ResumesTo(View(), Actor, CompleteWait, Done(true));
      Step(View(), Resume(Actor));
      var answer := AwaitStatement(Actor, ClaimSent(claimableData));
      ResumesTo(View(), Actor, ClaimSent(claimableData), answer);
      if answer == Done(true) {
        Commit(View(), Resume(Actor));
      } else {
        Step(View(), Resume(Actor));
        if answer == Threw { ReadClaimable(claimableData); } else { SynchronizeLost(); }
      }
    }

    /** The end of a successful finishSession. */
    method Commit(ghost a: Session, ghost e: Event)
      requires Pending(a, e, CommitClaimable(View()))
      modifies this
      ensures Continues(old(start), old(trace))
      ensures Valid() && status == Claimable && disposed && released && View().act.Idle?
    {
      status := Claimable;
      persistence := PDurable;
      released := true;
      disposed := true;
      Step(a, e);
    }

    method ReadClaimable(claimableData: Data)
      requires Valid() && View().act == At(ClaimRead(claimableData), None)
      modifies this
      ensures Continues(old(start), old(trace))
      ensures Valid() && EndsOrWaits(FailWait)
    {
      var answer := AwaitRead(Actor, ClaimRead(claimableData));
      ghost var a := View();
      if answer.Read? && Equals(answer.row, claimableData) {
        Commit(a, Resume(Actor));
      } else if answer.Read? && TerminalRow(answer.row) {
        SynchronizeTerminalState(answer.row.value);
        Step(a, Resume(Actor));
      } else {
        CatchFinish(a, Resume(Actor));
      }
    }

    /** synchronizeTerminalState without an observed row. */
    method SynchronizeLost()
      requires Valid() && View().act == At(ClaimSync, None)
      modifies this
      ensures Continues(old(start), old(trace))
      ensures Valid() && EndsOrWaits(FailWait)
    {
      var answer := AwaitRead(Actor, ClaimSync);
      ghost var a := View();
      if answer.Read? && TerminalRow(answer.row) {
        SynchronizeTerminalState(answer.row.value);
        Step(a, Resume(Actor));
      } else {
        CatchFinish(a, Resume(Actor));
      }
    }

    // -------------------------------------------------------------- tryApplyTimeout

    /** tryApplyTimeout; true says that the row is FAILED by this timeout or one like it. */
    method TryApplyTimeout() returns (timedOut: bool)
      requires Valid() && View().act.Idle? && status == Running && !failure.FPending?
      modifies this
      ensures Continues(old(start), old(trace))
      ensures Valid()
      ensures timedOut ==> Failed in View().held && EndsOrWaits(FailWait)
      ensures !timedOut ==> View().act.Idle? && TimeoutEnds()
    {
      Step(View(), TimeOut);
      var saved := AwaitHooks(Actor, TimeoutSave);
      var goOn, sessionContent := saved == Done(true) && status == Running, content;
      Step(View(), Resume(Actor));
      timedOut := false;
      if goOn { timedOut := TransitionTimeout(sessionContent); }
    }

    /** The guarded transition, and the reads after an unclear or a refused one. */
    method TransitionTimeout(sessionContent: nat) returns (timedOut: bool)
      requires Valid() && View().act == At(TimeoutSent(sessionContent), None)
      modifies this
      ensures Continues(old(start), old(trace))
      ensures Valid()
      ensures timedOut ==> Failed in View().held && EndsOrWaits(FailWait)
      ensures !timedOut ==> View().act.Idle? && TimeoutEnds()
    {
      var answer := AwaitStatement(Actor, TimeoutSent(sessionContent));
      ghost var a := View();
      if answer == Done(true) {
        FailTimedOut(a);
        return true;
      }
      Step(a, Resume(Actor));
      if answer == Threw { timedOut := ReadTimeout(); } else {
        timedOut := false;
        CheckRefused();
      }
    }

    /** finishFailedSession for a timeout that is already stored. */
    method FailTimedOut(ghost a: Session)
      requires Reached(a) && a.act.At? && a.act.answer.Some? && Pending(a, Resume(Actor), BeginFail(View(), true, true, None))
      requires (a.act.pc.TimeoutSent? && a.act.answer.value == Done(true))
               || (a.act.pc.TimeoutRead? && a.act.answer.value.Read? && Equals(a.act.answer.value.row, Data(Failed, TIMEOUT_CONTENT)))
      modifies this
      ensures Continues(old(start), old(trace))
      ensures Valid() && EndsOrWaits(FailWait) && Failed in View().held
    {
      ghost var past := trace;
      RunKeeps(start, trace);
      TimeoutStored(a);
      FinishFailedSession(true, true, None, a, Resume(Actor));
      HeldStays(start, past, trace);
    }

    method ReadTimeout() returns (timedOut: bool)
      requires Valid() && View().act == At(TimeoutRead, None)
      modifies this
      ensures Continues(old(start), old(trace))
      ensures Valid()
      ensures timedOut ==> Failed in View().held && EndsOrWaits(FailWait)
      ensures !timedOut ==> View().act.Idle? && TimeoutEnds()
    {
      var answer := AwaitRead(Actor, TimeoutRead);
      ghost var a := View();
      if answer.Read? && Equals(answer.row, Data(Failed, TIMEOUT_CONTENT)) {
        persistence := PDurable;
        FailTimedOut(a);
        return true;
      }
      if answer.Read? && TerminalRow(answer.row) { SynchronizeTerminalState(answer.row.value); }
      Step(a, Resume(Actor));
      timedOut := false;
    }

    method CheckRefused()
      requires Valid() && View().act == At(TimeoutCheck, None)
      modifies this
      ensures Continues(old(start), old(trace))
      ensures Valid() && View().act.Idle? && TimeoutEnds()
    {
      var answer := AwaitRead(Actor, TimeoutCheck);
      Step(View(), Resume(Actor));
      if answer.Read? && answer.row.Some? && answer.row.value.data.status != Running { SynchronizeTimeout(); }
    }

    method SynchronizeTimeout()
      requires Valid() && View().act == At(TimeoutSync, None)
      modifies this
      ensures Continues(old(start), old(trace))
      ensures Valid() && View().act.Idle? && TimeoutEnds()
    {
      var answer := AwaitRead(Actor, TimeoutSync);
      ghost var a := View();
      if answer.Read? && TerminalRow(answer.row) { SynchronizeTerminalState(answer.row.value); }
      Step(a, Resume(Actor));
    }

    /** What holds of the object at any time. */
    lemma EndsWell()
      requires Valid()
      ensures disposed ==> released && (status in View().held || (status == Failed && row.NoRow?))
      ensures View().ran <= 1
      ensures View().ran > 0 ==> Failed in View().held || (row.NoRow? && status == Failed && disposed)
    {
      SessionEndsWell(start.content, start == Restored(start.content), trace);
    }
  }
}
