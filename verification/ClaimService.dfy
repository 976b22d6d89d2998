/** The claim tasks of src/eth/EthClaimManager.ts as they are written: loops over awaited calls that
    change claimTx.claim, the manager's dictionaries and the database row. Every stretch between
    two awaits is shown to be one event of ClaimSession's machine, so what holds of all runs of
    the machine holds of these tasks, whatever the others do in their awaits. */
module ClaimService {
  import opened Wrappers
  import opened ClaimData
  import opened ClaimSession
  import opened ClaimRun

  /** How a task that was followed for a limited number of retries ended. */
  datatype Outcome = Done(ok: bool) | Thrown | Waiting

  /** Whose transition it is, with what the caller holds meanwhile. */
  datatype Caller = ForQueue(prepare: bool) | ForBroadcast | ForSettle(attempt: nat, receipt: Receipt)

  function TaskOf(c: Caller): Task {
    match c
    case ForQueue(_) => QueueT
    case ForBroadcast => BroadcastT
    case ForSettle(_, _) => ReceiptT
  }

  function RoleOf(c: Caller): Role {
    match c
    case ForQueue(_) => QueueRole
    case ForBroadcast => BroadcastRole
    case ForSettle(_, _) => ReceiptRole
  }

  predicate Calls(a: Session, c: Caller, t: Transition) {
    match c
    case ForQueue(prepare) => a.queue == QueueWriting(prepare, t)
    case ForBroadcast => a.broadcast == BroadcastMark(t)
    case ForSettle(n, r) => a.receipt == Settling(n, r, t)
  }

  /** Equal in everything that is not a place in the code or history. */
  predicate SameFields(a: Session, b: Session) {
    a.slot == b.slot && a.mem == b.mem && a.owned == b.owned && a.pending == b.pending && a.reserved == b.reserved && a.sent == b.sent
  }

  function LearnedOr(r: Resumed, m: Option<Claim>): Option<Claim> { if r.learned.Some? then r.learned else m }

  /** A resumption that goes on inside transitionClaim changes the caller's place and, if the row
      was read, what memory holds. */
  lemma ResumeAgain(a: Session, c: Caller, t: Transition)
    requires Calls(a, c, t) && Awaiting(t) && ResumeTransition(t).verdict.Again?
    ensures var r := ResumeTransition(t);
            var b := Apply(a, Resume(TaskOf(c)));
            Calls(b, c, r.verdict.t) && b.up == a.up && SameFields(b, a.(mem := LearnedOr(r, a.mem)))
  {}

  lemma CasKeepsPlace(a: Session, c: Caller, t: Transition, f: Fault)
    requires Calls(a, c, t) && t.phase.CasCall?
    ensures var b := Apply(a, Cas(TaskOf(c), f));
            && b.up == a.up && SameFields(b, a.(slot := CasEffect(a.slot, t, f).0)) && Calls(b, c, CasEffect(a.slot, t, f).1)
  {
    hide CasEffect;
  }

  lemma ReadKeepsPlace(a: Session, c: Caller, t: Transition, fails: bool)
    requires Calls(a, c, t) && t.phase.ReadCall?
    ensures var b := Apply(a, Read(TaskOf(c), fails));
            && b.up == a.up && SameFields(b, a) && Calls(b, c, t.(phase := ReadReplied(t.phase.casFailed, ReadSlot(a.slot, fails))))
  {}

  predicate VerdictIs(v: Verdict, r: Outcome) {
    match r
    case Done(ok) => v == Returned(ok)
    case Thrown => v == Threw
    case Waiting => v.Again?
  }

  lemma AgainLearns(a: Session, t: Transition)
    requires Awaiting(t) && ResumeTransition(t).verdict.Again?
    ensures Learn(a, ResumeTransition(t)) == a.(mem := LearnedOr(ResumeTransition(t), a.mem))
    ensures ResumeTransition(t).verdict.t == t.(phase := if t.phase.CasReplied? then ReadCall(t.phase.cas == CasError) else CasCall)
  {}

  lemma AttemptPlace(m: Session, attempt: nat, receipt: Receipt)
    requires attempt < 3 && m.mem.Some? && m.mem.value.Active()
    ensures var b := SettleAttempt(m, attempt, receipt);
            && SameFields(m, b) && b.up == m.up
            && Calls(b, ForSettle(attempt, receipt), Transition(m.mem.value, TerminalClaim(m.mem.value, receipt), CasCall))
  {}

  lemma AttemptOver(m: Session, attempt: nat, receipt: Receipt)
    requires attempt < 3 && (m.mem.None? || !m.mem.value.Active())
    ensures var b := SettleAttempt(m, attempt, receipt); SameFields(m, b) && b.receipt == SettleReturned
  {}

  lemma SettleStaysUp(a: Session, e: Event)
    requires SettleStep(a, e) && a.up
    ensures Apply(a, e).up
  {}

  lemma NextAttempt(b: Session, t: Transition, attempt: nat, receipt: Receipt)
    requires Calls(b, ForSettle(attempt, receipt), t) && Awaiting(t) && ResumeTransition(t).verdict == Returned(false)
    ensures SettleStep(b, Resume(ReceiptT))
    ensures Apply(b, Resume(ReceiptT)) == SettleAttempt(Learn(b, ResumeTransition(t)), attempt + 1, receipt)
  {}

  /** A claim that initialize leaves alone. */
  predicate LeftAlone(c: Claim) { c.Reverted? || c.Failed? }

  /** The fields of one restored session. */
  lemma RestartFields(a: Session)
    requires Inv(a) && !a.up
    ensures var stored := if a.slot.Live? && a.slot.row.status == StatusClaiming then a.slot.row.claim else None;
            var listed := stored.Some? && !LeftAlone(stored.value);
            var active := listed && stored.value.Active();
            && Apply(a, Restart) == RestartSession(a) && RestartSession(a).up
            && RestartSession(a).slot == a.slot && RestartSession(a).sent == a.sent && RestartSession(a).owned == listed
            && RestartSession(a).mem == (if listed then stored else None)
            && RestartSession(a).pending == active
            && RestartSession(a).reserved == if active then Some(stored.value.tx) else None
  {}

  /** One session's claim: its row, its EthClaimInfo, its entries in the manager's dictionaries,
      its wallet reservation and what went to the network. */
  class ClaimTask {
    var slot: Slot
    var claim: Option<Claim>
    var listed: bool
    var pending: bool
    var reserved: Option<SignedTx>
    var sent: set<SignedTx>
    ghost var rest: Session
    ghost var trace: seq<Event>

    /** What initialize makes of one stored session in a new process; past is how the session came
        to be as it is stored. */
    constructor Initialize(slot: Slot, sent: set<SignedTx>, ghost past: seq<Event>)
      requires AllowedRun(past)
      requires var a := RunSession(START, past); !a.up && a.slot == slot && a.sent == sent
      ensures Valid() && trace == past + [Restart] && View() == RestartSession(RunSession(START, past))
      ensures this.slot == slot && this.sent == sent
      ensures listed <==> slot.Live? && slot.row.status == StatusClaiming && slot.row.claim.Some? && !LeftAlone(slot.row.claim.value)
      ensures claim == if listed then slot.row.claim else None
    {
      this.slot, this.sent := slot, sent;
      var stored := if slot.Live? && slot.row.status == StatusClaiming then slot.row.claim else None;
      claim, listed, pending, reserved := None, false, false, None;
      if stored.Some? && !LeftAlone(stored.value) {
        claim, listed := stored, true;
        if stored.value.Active() { pending, reserved := true, Some(stored.value.tx); }
      }
      hide RestartSession, RunSession;
      rest, trace := RestartSession(RunSession(START, past)), past + [Restart];
      RunInv(past);
      RunAppend(START, past, Restart);
      RestartFields(RunSession(START, past));
    }

    ghost function View(): Session
      reads this
    {
      rest.(slot := slot, mem := claim, owned := listed, pending := pending, reserved := reserved, sent := sent)
    }

    /** The machine is in state a after the events so far, and the process is up. */
    ghost predicate Reached(a: Session)
      reads this
    {
      AllowedRun(trace) && a == RunSession(START, trace) && a.up
    }

    ghost predicate Valid()
      reads this
    {
      Reached(View())
    }

    /** One more event: the fields have been changed the way it changes them. */
    ghost method Step(a: Session, e: Event)
      requires Reached(a) && Allowed(e) && Apply(a, e).up && SameFields(View(), Apply(a, e))
      modifies this`rest, this`trace
      ensures Valid() && View() == Apply(a, e) && trace == old(trace) + [e]
    {
      RunAppend(START, trace, e);
      rest := Apply(a, e);
      trace := trace + [e];
    }

    /** Events of other tasks: the body takes none, callers know only the contract. */
    method OtherEvents(ghost role: Role) returns (ghost more: seq<Event>)
      requires Valid()
      modifies this
      ensures Outside(role, more) && trace == old(trace) + more && View() == RunSession(START, trace)
    {
      more := [];
      assert trace + more == trace;
    }

    /** An await of a running task. */
    method Await(ghost role: Role)
      requires Valid() && Running(role, View())
      modifies this
      ensures Valid() && SamePlace(role, old(View()), View())
      ensures SlotLeq(old(slot), slot) && old(trace) <= trace
    {
      ghost var more := OtherEvents(role);
      OthersRun(old(trace), more, role);
    }

    /** compareAndSetClaim */
    method CompareAndSetClaim(expected: Claim, next: Claim, f: Fault) returns (reply: CasReply)
      modifies this`slot
      ensures (slot, Transition(expected, next, CasReplied(reply))) == CasEffect(old(slot), Transition(expected, next, CasCall), f)
    {
      var matches := slot.Live? && slot.row.status == StatusClaiming && slot.row.claim == Some(expected);
      if f != NoEffect && matches {
        slot := Live(slot.row.(status := CasStatus(next), claim := Some(next)));
      }
      reply := if f != Ack then CasError else if matches then CasTrue else CasFalse;
    }

    /** getSession */
    method GetSession(fails: bool) returns (r: ReadReply)
      ensures r == ReadSlot(slot, fails)
    {
      r := if fails then ReadError else if slot.Live? then ReadRow(slot.row) else ReadNone;
    }

    /** The awaited compareAndSetClaim of transitionClaim. */
    method AwaitCas(ghost c: Caller, expected: Claim, next: Claim) returns (reply: CasReply)
      requires Valid() && Calls(View(), c, Transition(expected, next, CasCall))
      modifies this
      ensures Valid() && Calls(View(), c, Transition(expected, next, CasReplied(reply)))
      ensures old(trace) <= trace
    {
      Await(RoleOf(c));
      ghost var a := View();
      var f: Fault := *;
      CasKeepsPlace(a, c, Transition(expected, next, CasCall), f);
      reply := CompareAndSetClaim(expected, next, f);
      Step(a, Cas(TaskOf(c), f));
      Await(RoleOf(c));
    }

    /** The awaited getSession of transitionClaim. */
    method AwaitRead(ghost c: Caller, ghost t: Transition) returns (read: ReadReply)
      requires Valid() && Calls(View(), c, t) && t.phase.ReadCall?
      modifies this
      ensures Valid() && Calls(View(), c, t.(phase := ReadReplied(t.phase.casFailed, read)))
      ensures old(trace) <= trace
    {
      Await(RoleOf(c));
      ghost var a := View();
      var fails: bool := *;
      ReadKeepsPlace(a, c, t, fails);
      read := GetSession(fails);
      Step(a, Read(TaskOf(c), fails));
      Await(RoleOf(c));
    }

    /** Going on inside transitionClaim; memory has taken over what was read. */
    ghost method GoOn(c: Caller, t: Transition, a: Session)
      requires Reached(a) && Calls(a, c, t) && Awaiting(t) && ResumeTransition(t).verdict.Again?
      requires View() == a.(mem := LearnedOr(ResumeTransition(t), a.mem))
      modifies this`rest, this`trace
      ensures Valid() && Calls(View(), c, ResumeTransition(t).verdict.t) && old(trace) <= trace
    {
      ResumeAgain(a, c, t);
      Step(a, Resume(TaskOf(c)));
    }

    /** finishClaimReconciliation */
    method FinishClaimReconciliation()
      modifies this`pending, this`listed, this`reserved
      ensures View() == Finish(old(View()))
    {
      pending := false;
      listed := false;
      reserved := None;
    }

    /** reconcileObservedTerminal */
    method ReconcileObservedTerminal(c: Claim)
      modifies this`pending, this`listed, this`reserved, this`rest
      ensures View() == ReconcileObserved(old(View()), c)
    {
      if c.Confirmed? {
        if listed { rest := StartCompletion(View()); }
      } else if c.Reverted? {
        if listed || pending { FinishClaimReconciliation(); }
      } else if c.Failed? && listed {
        rest := ReconcileObserved(View(), c);
        listed := false;
      }
    }

    /** What has been answered is known to the caller, who goes on in the same stretch: memory has
        taken over what the last reply told, as the machine's resumption from state a has it. */
    ghost predicate Answered(r: Outcome, a: Session, t: Transition, c: Caller, expected: Claim, next: Claim)
      reads this
    {
      && Reached(a) && Calls(a, c, t) && Awaiting(t) && t.expected == expected && t.next == next
      && View() == Learn(a, ResumeTransition(t)) && !r.Waiting? && VerdictIs(ResumeTransition(t).verdict, r)
    }

    /** The code of transitionClaim after the read: memory takes over the stored claim. */
    method TakeOver(expected: Claim, next: Claim, casFailed: bool, read: ReadReply) returns (r: Outcome)
      modifies this`claim, this`pending, this`listed, this`reserved, this`rest
      ensures var m := ResumeTransition(Transition(expected, next, ReadReplied(casFailed, read)));
              View() == Learn(old(View()), m) && VerdictIs(m.verdict, r)
    {
      if read.ReadError? { return Waiting; }
      if read.ReadRow? && read.row.claim.Some? {
        var stored := read.row.claim.value;
        claim := Some(stored);
        if stored == next && !(next.Confirmed? && read.row.status == StatusFinished) { return Done(true); }
        if read.row.status == StatusClaiming && stored == expected { return Waiting; }
        ReconcileObservedTerminal(stored);
      }
      r := if casFailed then Thrown else Done(false);
    }

    /** The read of transitionClaim and what follows from it. */
    method ReadBack(ghost c: Caller, expected: Claim, next: Claim, casFailed: bool)
        returns (r: Outcome, ghost a: Session, ghost t: Transition)
      requires Valid() && Calls(View(), c, Transition(expected, next, ReadCall(casFailed)))
      modifies this
      ensures old(trace) <= trace
      ensures r.Waiting? ==> Valid() && Calls(View(), c, Transition(expected, next, CasCall))
      ensures !r.Waiting? ==> Answered(r, a, t, c, expected, next)
    {
      var read := AwaitRead(c, Transition(expected, next, ReadCall(casFailed)));
      a, t := View(), Transition(expected, next, ReadReplied(casFailed, read));
      r := TakeOver(expected, next, casFailed, read);
      if r.Waiting? {
        AgainLearns(a, t);
        GoOn(c, t, a);
        Await(RoleOf(c));
      }
    }

    /** One round of transitionClaim. */
    method TransitionRound(ghost c: Caller, expected: Claim, next: Claim) returns (r: Outcome, ghost a: Session, ghost t: Transition)
      requires Valid() && Calls(View(), c, Transition(expected, next, CasCall))
      modifies this
      ensures old(trace) <= trace
      ensures r.Waiting? ==> Valid() && Calls(View(), c, Transition(expected, next, CasCall))
      ensures !r.Waiting? ==> Answered(r, a, t, c, expected, next)
    {
      var reply := AwaitCas(c, expected, next);
      a, t := View(), Transition(expected, next, CasReplied(reply));
      if reply == CasTrue {
        claim := Some(next);
        return Done(true), a, t;
      }
      GoOn(c, t, a);
      r, a, t := ReadBack(c, expected, next, reply == CasError);
    }

    /** transitionClaim, followed for a number of rounds. */
    method TransitionClaim(ghost c: Caller, expected: Claim, next: Claim, rounds: nat)
        returns (r: Outcome, ghost a: Session, ghost t: Transition)
      requires Valid() && Calls(View(), c, Transition(expected, next, CasCall))
      modifies this
      ensures old(trace) <= trace
      ensures r.Waiting? ==> Valid() && Calls(View(), c, Transition(expected, next, CasCall))
      ensures !r.Waiting? ==> Answered(r, a, t, c, expected, next)
    {
      a, t := View(), Transition(expected, next, CasCall);
      for round := 0 to rounds
        invariant Valid() && Calls(View(), c, Transition(expected, next, CasCall))
        invariant old(trace) <= trace
      {
        r, a, t := TransitionRound(c, expected, next);
        if !r.Waiting? { return; }
      }
      r := Waiting;
    }

    // ------------------------------------------------------------- awaitTxReceipt

    /** What an undecided claim becomes with its receipt. */
    method TerminalFor(current: Claim, receipt: Receipt) returns (terminal: Claim)
      requires current.Active()
      ensures terminal == TerminalClaim(current, receipt)
    {
      if receipt.status {
        terminal := Confirmed(current.claimIdx, current.claimTime, current.tx, receipt.block, receipt.fee);
      } else {
        terminal := Reverted(current.claimIdx, current.claimTime, current.tx, receipt.block, receipt.fee, "Transaction reverted");
      }
    }

    /** The stretch before an attempt of settleClaim has come from a by e, which is still to be
        recorded. */
    ghost predicate Attempting(a: Session, e: Event, attempt: nat, receipt: Receipt)
      reads this
    {
      Reached(a) && SettleStep(a, e) && Apply(a, e) == SettleAttempt(View(), attempt, receipt)
    }

    /** The start of an attempt: None if the claim is no longer undecided. */
    method BeginAttempt(attempt: nat, receipt: Receipt, ghost a: Session, ghost e: Event) returns (pair: Option<(Claim, Claim)>)
      requires attempt < 3 && Attempting(a, e, attempt, receipt)
      modifies this
      ensures old(trace) <= trace && Valid()
      ensures pair.None? ==> SettleEnd(Done(true))
      ensures pair.Some? ==> Calls(View(), ForSettle(attempt, receipt), Transition(pair.value.0, pair.value.1, CasCall))
    {
      hide Apply, SettleAttempt, SettleStep, Reached, SettleEnd, Calls;
      if claim.None? || !claim.value.Active() {
        LeaveDecided(attempt, receipt, a, e);
        return None;
      }
      var current := claim.value;
      var terminal := TerminalFor(current, receipt);
      EnterAttempt(attempt, receipt, a, e);
      pair := Some((current, terminal));
    }

    /** The claim is still undecided: the guarded update is on its way. */
    ghost method EnterAttempt(attempt: nat, receipt: Receipt, a: Session, e: Event)
      requires attempt < 3 && Attempting(a, e, attempt, receipt) && claim.Some? && claim.value.Active()
      modifies this`rest, this`trace
      ensures old(trace) <= trace && Valid()
      ensures Calls(View(), ForSettle(attempt, receipt),
                    Transition(claim.value, TerminalClaim(claim.value, receipt), CasCall))
    {
      hide Apply, SettleAttempt;
      SettleStaysUp(a, e);
      AttemptPlace(View(), attempt, receipt);
      Step(a, e);
    }

    /** The claim is no longer undecided: settleClaim returns. */
    ghost method LeaveDecided(attempt: nat, receipt: Receipt, a: Session, e: Event)
      requires attempt < 3 && Attempting(a, e, attempt, receipt) && (claim.None? || !claim.value.Active())
      modifies this`rest, this`trace
      ensures old(trace) <= trace && Valid() && SettleEnd(Done(true))
    {
      hide Apply, SettleAttempt;
      AttemptOver(View(), attempt, receipt);
      SettleStaysUp(a, e);
      Decided(a, e);
      Step(a, e);
    }

    /** One attempt of settleClaim; None goes on to the next. */
    method SettleOnce(attempt: nat, receipt: Receipt, rounds: nat, ghost a: Session, ghost e: Event)
        returns (r: Option<Outcome>, ghost b: Session, ghost f: Event)
      requires attempt < 3 && Attempting(a, e, attempt, receipt)
      modifies this
      ensures old(trace) <= trace
      ensures r.None? ==> Attempting(b, f, attempt + 1, receipt)
      ensures r.Some? ==> Valid() && SettleEnd(r.value)
    {
      var pair := BeginAttempt(attempt, receipt, a, e);
      if pair.None? { return Some(Done(true)), a, e; }
      var o: Outcome;
      ghost var t;
      o, b, t := TransitionClaim(ForSettle(attempt, receipt), pair.value.0, pair.value.1, rounds);
      f := Resume(ReceiptT);
      if o == Done(false) {
        NextAttempt(b, t, attempt, receipt);
        return None, b, f;
      }
      if !o.Waiting? { EndSettle(o, pair.value.1, b, t, attempt, receipt); }
      r := Some(o);
    }

    /** How settleClaim leaves: when it returns, the payment is no longer undecided. */
    ghost predicate SettleEnd(r: Outcome)
      reads this
    {
      match r
      case Done(ok) => !slot.HasActive() && (ok || slot.Erased?)
      case Thrown => View().receipt == ReceiptLoop
      case Waiting => View().receipt.Settling?
    }

    /** The end of an attempt that did not return false. */
    method EndSettle(o: Outcome, terminal: Claim, ghost b: Session, ghost t: Transition, ghost attempt: nat, ghost receipt: Receipt)
      requires o == Done(true) || o.Thrown?
      requires exists current :: Answered(o, b, t, ForSettle(attempt, receipt), current, terminal)
      modifies this
      ensures old(trace) <= trace && Valid() && SettleEnd(o)
    {
      if o.Done? {
        StopReconciling(terminal);
        Decided(b, Resume(ReceiptT));
      }
      Step(b, Resume(ReceiptT));
    }

    /** settleClaim. It gives up after three attempts only if clean-up has deleted the decided
        row. */
    method SettleClaim(receipt: Receipt, rounds: nat) returns (r: Outcome)
      requires Valid() && View().receipt.ReceiptWatch?
      modifies this
      ensures Valid() && old(trace) <= trace && SettleEnd(r)
    {
      ghost var a, e := View(), ReceiptArrived(receipt);
      for attempt := 0 to 3
        invariant old(trace) <= trace && Attempting(a, e, attempt, receipt)
      {
        var o: Option<Outcome>;
        o, a, e := SettleOnce(attempt, receipt, rounds, a, e);
        if o.Some? { return o.value; }
      }
      Exhausted(a, e);
      Step(a, e);
      r := Done(false);
    }

    /** What settleClaim does with a claim that it has settled. */
    method StopReconciling(terminal: Claim)
      modifies this`pending, this`listed, this`reserved, this`rest
      ensures View() == if terminal.Confirmed? then StartCompletion(old(View())) else Finish(old(View()))
    {
      if terminal.Confirmed? {
        rest := StartCompletion(View());
      } else {
        FinishClaimReconciliation();
      }
    }

    lemma Decided(a: Session, e: Event)
      requires Reached(a) && SettleStep(a, e) && Apply(a, e).receipt == SettleReturned
      ensures !Apply(a, e).slot.HasActive()
    {
      RunInv(trace);
      SettleDecides(a, e);
    }

    lemma Exhausted(a: Session, e: Event)
      requires Reached(a) && SettleStep(a, e) && Apply(a, e).receipt == SettleExhausted
      ensures Apply(a, e).slot.Erased? && !Apply(a, e).slot.HasActive()
    {
      RunInv(trace);
      StepInv(a, e);
    }

    /** The loop condition of rebroadcastClaim and awaitTxReceipt. */
    predicate ClaimActive()
      reads this
    {
      listed && claim.Some? && claim.value.Active()
    }

    /** awaitTxReceipt. When it is done, the payment is no longer undecided, or another task has
        taken the claim off the list. */
    method AwaitTxReceipt(rounds: nat) returns (r: Outcome)
      requires Valid() && View().receipt == ReceiptLoop
      modifies this
      ensures Valid() && old(trace) <= trace
      ensures r.Done? ==> View().receipt == ReceiptOff || !slot.HasActive()
      ensures !r.Thrown?
    {
      for round := 0 to rounds
        invariant Valid() && View().receipt == ReceiptLoop && old(trace) <= trace
      {
        var active := ClaimActive();
        Step(View(), ReceiptCheck);
        if !active { return Done(true); }
        r := WatchClaimTx(rounds);
        if !r.Thrown? { return; }
        Await(ReceiptRole);
      }
      r := Waiting;
    }

    /** The awaited receipt, and settleClaim with it. */
    method WatchClaimTx(rounds: nat) returns (r: Outcome)
      requires Valid() && View().receipt.ReceiptWatch?
      modifies this
      ensures Valid() && old(trace) <= trace
      ensures r.Done? ==> !slot.HasActive()
      ensures r.Thrown? ==> View().receipt == ReceiptLoop
    {
      Await(ReceiptRole);
      var receipt: Option<Receipt> := *;
      if receipt.Some? {
        r := SettleClaim(receipt.value, rounds);
      } else {
        Step(View(), ReceiptFailed);
        r := Thrown;
      }
    }

    // ----------------------------------------------------------- rebroadcastClaim

    /** The loop condition, with the transaction to send while the claim is active. */
    method NextBroadcast() returns (transaction: Option<SignedTx>)
      requires Valid() && View().broadcast == BroadcastLoop
      modifies this
      ensures Valid() && old(trace) <= trace
      ensures View().broadcast == if transaction.Some? then BroadcastSend(transaction.value) else BroadcastOff
    {
      transaction := if ClaimActive() then Some(claim.value.tx) else None;
      Step(View(), BroadcastCheck);
    }

    /** broadcastClaimTx: the transaction reaches the network, acknowledged or not. */
    method BroadcastClaimTx(tx: SignedTx) returns (acknowledged: bool)
      requires Valid() && View().broadcast == BroadcastSend(tx)
      modifies this
      ensures Valid() && old(trace) <= trace && View().broadcast == BroadcastReplied(tx, acknowledged)
    {
      Await(BroadcastRole);
      ghost var a := View();
      acknowledged := *;
      sent := sent + {tx};
      Step(a, BroadcastSent(acknowledged));
      Await(BroadcastRole);
    }

    /** rebroadcastClaim: the same signed bytes until the network has acknowledged them. */
    method RebroadcastClaim(rounds: nat) returns (r: Outcome)
      requires Valid() && View().broadcast == BroadcastLoop
      modifies this
      ensures Valid() && old(trace) <= trace && !r.Thrown?
      ensures r.Done? ==> View().broadcast == BroadcastOff
    {
      for round := 0 to rounds
        invariant Valid() && View().broadcast == BroadcastLoop && old(trace) <= trace
      {
        var transaction := NextBroadcast();
        if transaction.None? { return Done(true); }
        var acknowledged := BroadcastClaimTx(transaction.value);
        r := AfterBroadcast(acknowledged, rounds);
        if !r.Thrown? { return; }
        Await(BroadcastRole);
      }
      r := Waiting;
    }

    /** The rest of a round of rebroadcastClaim; what it throws is caught by the loop. */
    method AfterBroadcast(acknowledged: bool, rounds: nat) returns (r: Outcome)
      requires Valid() && View().broadcast.BroadcastReplied? && View().broadcast.acknowledged == acknowledged
      modifies this
      ensures Valid() && old(trace) <= trace
      ensures r.Done? ==> View().broadcast == BroadcastOff
      ensures r.Thrown? ==> View().broadcast == BroadcastLoop
    {
      var prepared := claim.Some? && claim.value.Prepared?;
      Step(View(), BroadcastResume);
      if !acknowledged { return Thrown; }
      if !prepared { return Done(true); }
      var p := claim.value;
      r := MarkPending(p, Pending(p.claimIdx, p.claimTime, p.tx), rounds);
    }

    method MarkPending(prepared: Claim, pendingClaim: Claim, rounds: nat) returns (r: Outcome)
      requires Valid() && Calls(View(), ForBroadcast, Transition(prepared, pendingClaim, CasCall))
      modifies this
      ensures Valid() && old(trace) <= trace
      ensures r.Done? ==> View().broadcast == BroadcastOff
      ensures r.Thrown? ==> View().broadcast == BroadcastLoop
    {
      ghost var a, t;
      r, a, t := TransitionClaim(ForBroadcast, prepared, pendingClaim, rounds);
      if !r.Waiting? { Step(a, Resume(BroadcastT)); }
    }

    // ------------------------------------------------------------- processQueueTx

    /** What a successful processQueueTx leaves behind. */
    ghost predicate Prepares()
      reads this
    {
      && slot.HasClaim() && slot.Claimed().Prepared? && reserved == Some(slot.Claimed().tx) && claim == Some(slot.Claimed())
      && pending && View().broadcast == BroadcastLoop && View().receipt == ReceiptLoop
    }

    /** processQueueTx: when it succeeds the signed transaction is durable and reserved, and the
        tasks that broadcast and watch it are started. */
    method ProcessQueueTx(rounds: nat) returns (r: Outcome)
      requires Valid() && View().queue == QueueWaiting
      modifies this
      ensures Valid() && old(trace) <= trace
      ensures !r.Waiting? ==> View().queue == QueueOff
      ensures r == Done(true) ==> Prepares()
    {
      var ready: bool, nonce: nat := *, *;
      WaitingHolds();
      var queued := claim.value.Queue?;
      Step(View(), TakeFromQueue(ready, nonce));
      if !queued { return Done(false); }
      if ready {
        r := PrepareClaimTx(nonce, rounds);
      } else {
        r := FailQueuedClaim(rounds);
      }
    }

    /** From the awaited signature on. */
    method PrepareClaimTx(nonce: nat, rounds: nat) returns (r: Outcome)
      requires Valid() && View().queue == QueuePreparing(nonce)
      modifies this
      ensures Valid() && old(trace) <= trace
      ensures !r.Waiting? ==> View().queue == QueueOff
      ensures r == Done(true) ==> Prepares()
    {
      Await(QueueRole);
      PreparingHolds();
      var transaction: Option<SignedTx> := *;
      var affordable: bool := *;
      if transaction.Some? && transaction.value.txNonce == nonce && affordable {
        var current, preparedClaim := Reserve(transaction.value);
        r := WritePrepared(current, preparedClaim, rounds);
      } else {
        Refuse(transaction, nonce);
        r := FailQueuedClaim(rounds);
      }
    }

    /** reserveClaimTx for the transaction that is going to be written. */
    method Reserve(tx: SignedTx) returns (current: Claim, preparedClaim: Claim)
      requires Valid() && View().queue == QueuePreparing(tx.txNonce) && claim.Some?
      modifies this
      ensures Valid() && old(trace) <= trace && preparedClaim.Prepared?
      ensures Calls(View(), ForQueue(true), Transition(current, preparedClaim, CasCall))
    {
      ghost var a := View();
      current := claim.value;
      preparedClaim := Prepared(current.claimIdx, current.claimTime, tx);
      reserved := Some(tx);
      Step(a, Signed(Some(tx), true));
    }

    /** No signature, or not enough funds. */
    ghost method Refuse(transaction: Option<SignedTx>, nonce: nat)
      requires Valid() && View().queue == QueuePreparing(nonce) && claim.Some?
      modifies this`rest, this`trace
      ensures Valid() && old(trace) <= trace && claim.Some?
      ensures Calls(View(), ForQueue(false), Transition(claim.value, FailedClaim(claim.value), CasCall))
    {
      var signed := if transaction.Some? && transaction.value.txNonce == nonce then transaction else None;
      Step(View(), Signed(signed, false));
    }

    /** The end of processQueueTx: PREPARED is written before anything is broadcast. */
    method WritePrepared(current: Claim, preparedClaim: Claim, rounds: nat) returns (r: Outcome)
      requires Valid() && Calls(View(), ForQueue(true), Transition(current, preparedClaim, CasCall)) && preparedClaim.Prepared?
      modifies this
      ensures Valid() && old(trace) <= trace
      ensures !r.Waiting? ==> View().queue == QueueOff
      ensures r == Done(true) ==> Prepares() && claim == Some(preparedClaim)
      ensures r == Done(false) || r.Thrown? ==> reserved.None?
    {
      ghost var a, t;
      r, a, t := TransitionClaim(ForQueue(true), current, preparedClaim, rounds);
      if !r.Waiting? { EndPrepare(r, a, t, current, preparedClaim); }
    }

    /** Whether the reservation is kept depends on what transitionClaim said. */
    method EndPrepare(r: Outcome, ghost a: Session, ghost t: Transition, ghost current: Claim, ghost preparedClaim: Claim)
      requires Answered(r, a, t, ForQueue(true), current, preparedClaim) && preparedClaim.Prepared?
      modifies this
      ensures Valid() && old(trace) <= trace && View().queue == QueueOff
      ensures r == Done(true) ==> Prepares() && claim == Some(preparedClaim)
      ensures r != Done(true) ==> reserved.None?
    {
      if r == Done(true) {
        pending := true;
        PreparedIsDurable(a, t);
      } else {
        reserved := None;
      }
      Step(a, Resume(QueueT));
    }

    /** failQueuedClaim */
    method FailQueuedClaim(rounds: nat) returns (r: Outcome)
      requires Valid() && claim.Some? && Calls(View(), ForQueue(false), Transition(claim.value, FailedClaim(claim.value), CasCall))
      modifies this
      ensures Valid() && old(trace) <= trace && r != Done(true)
      ensures !r.Waiting? ==> View().queue == QueueOff
    {
      var queued := claim.value;
      var failed := Failed(queued.claimIdx, queued.claimTime, "failed");
      ghost var a, t;
      r, a, t := TransitionClaim(ForQueue(false), queued, failed, rounds);
      if r.Waiting? { return; }
      if r == Done(true) { listed := false; }
      Step(a, Resume(QueueT));
      if r.Done? { r := Done(false); }
    }

    lemma WaitingHolds()
      requires Valid() && View().queue == QueueWaiting
      ensures claim.Some?
    {
      RunInv(trace);
    }

    lemma PreparingHolds()
      requires Valid() && View().queue.QueuePreparing?
      ensures claim.Some? && claim.value.Queue?
    {
      RunInv(trace);
    }

    lemma PreparedIsDurable(a: Session, t: Transition)
      requires Reached(a) && Calls(a, ForQueue(true), t) && Awaiting(t) && ResumeTransition(t).verdict == Returned(true)
      ensures t.next.Prepared? && a.slot.HasClaim() && a.slot.Claimed() == t.next && a.reserved == Some(t.next.tx)
    {
      RunInv(trace);
      QueueWritten(a, t);
    }

    // ----------------------------------------------------- completeConfirmedClaim

    /** completeConfirmedClaim: the claim hooks, then FINISHED. */
    method CompleteConfirmedClaim(rounds: nat) returns (r: Outcome)
      requires Valid() && View().completion == CompletionLoop
      modifies this
      ensures Valid() && old(trace) <= trace && !r.Thrown?
      ensures r == Done(true) ==> Finishes()
    {
      for round := 0 to rounds
        invariant Valid() && View().completion == CompletionLoop && old(trace) <= trace
      {
        var confirmed := NextCompletion();
        if !confirmed { return Done(false); }
        var hooksOk := AwaitHooks();
        if hooksOk {
          r := FinalizeConfirmedClaim(rounds);
          return;
        }
        Await(CompletionRole);
      }
      r := Waiting;
    }

    /** The loop condition. */
    method NextCompletion() returns (confirmed: bool)
      requires Valid() && View().completion == CompletionLoop
      modifies this
      ensures Valid() && old(trace) <= trace
      ensures View().completion == if confirmed then HooksRunning else CompletionOff
    {
      confirmed := claim.Some? && claim.value.Confirmed?;
      Step(View(), CompletionCheck);
    }

    /** The awaited SessionClaimed hooks. */
    method AwaitHooks() returns (ok: bool)
      requires Valid() && View().completion == HooksRunning
      modifies this
      ensures Valid() && old(trace) <= trace
      ensures View().completion == if ok then HooksSucceeded else CompletionLoop
    {
      Await(CompletionRole);
      ok := *;
      Step(View(), HooksEnd(ok));
    }

    /** A completion that succeeded: the session is FINISHED with a CONFIRMED claim whose hooks
        have run, and the reservation is gone. */
    ghost predicate Finishes()
      reads this
    {
      && slot.HasClaim() && slot.row.status == StatusFinished && slot.Claimed().Confirmed? && View().hooked
      && !listed && !pending && reserved.None? && View().completion == CompletionOff
    }

    /** The database statement of finalizeConfirmedClaim. */
    method FinalizeRow(c: Claim, f: Fault) returns (reply: CasReply)
      modifies this`slot
      ensures slot == (if f == NoEffect then old(slot) else ClaimData.FinalizeConfirmedClaim(old(slot), c))
      ensures reply == (if f != Ack then CasError else if CasMatches(old(slot), c) then CasTrue else CasFalse)
    {
      var matches := slot.Live? && slot.row.status == StatusClaiming && slot.row.claim == Some(c);
      if f != NoEffect && matches { slot := Live(slot.row.(status := StatusFinished)); }
      reply := if f != Ack then CasError else if matches then CasTrue else CasFalse;
    }

    method AwaitFinalize(c: Claim) returns (reply: CasReply)
      requires Valid() && View().completion == Finalizing(c, FinalCall)
      modifies this
      ensures Valid() && old(trace) <= trace && View().completion == Finalizing(c, FinalReplied(reply))
    {
      Await(CompletionRole);
      ghost var a := View();
      var f: Fault := *;
      reply := FinalizeRow(c, f);
      Step(a, FinalCas(f));
      Await(CompletionRole);
    }

    method AwaitFinalRead(c: Claim) returns (read: ReadReply)
      requires Valid() && View().completion == Finalizing(c, FinalRead)
      modifies this
      ensures Valid() && old(trace) <= trace && View().completion == Finalizing(c, FinalReadReplied(read))
    {
      Await(CompletionRole);
      var fails: bool := *;
      read := GetSession(fails);
      Step(View(), FinalReadStep(fails));
      Await(CompletionRole);
    }

    /** One round of finalizeConfirmedClaim: Waiting goes on to the next. */
    method FinalizeRound(c: Claim) returns (r: Outcome)
      requires Valid() && View().completion == Finalizing(c, FinalCall)
      modifies this
      ensures Valid() && old(trace) <= trace && !r.Thrown?
      ensures r == Done(true) ==> Finishes()
      ensures r.Waiting? ==> View().completion == HooksSucceeded
    {
      var reply := AwaitFinalize(c);
      if reply == CasTrue {
        FinalizedHolds(c);
        FinishFinal(View());
        return Done(true);
      }
      Step(View(), FinalResume);
      r := FinalReadBack(c);
    }

    /** The read of finalizeConfirmedClaim and what follows from it. */
    method FinalReadBack(c: Claim) returns (r: Outcome)
      requires Valid() && View().completion == Finalizing(c, FinalRead)
      modifies this
      ensures Valid() && old(trace) <= trace && !r.Thrown?
      ensures r == Done(true) ==> Finishes()
      ensures r.Waiting? ==> View().completion == HooksSucceeded
    {
      var read := AwaitFinalRead(c);
      if read.ReadRow? && read.row.claim.Some? {
        r := FinalObserve(c, read.row);
      } else {
        Step(View(), FinalResume);
        r := if read.ReadError? then Waiting else Done(false);
      }
    }

    /** The end of a successful finalization. */
    method FinishFinal(ghost a: Session)
      requires Reached(a) && a.completion.Finalizing? && Apply(a, FinalResume) == Finish(View()).(completion := CompletionOff)
      requires slot.HasClaim() && slot.row.status == StatusFinished && slot.Claimed().Confirmed? && View().hooked
      modifies this
      ensures Valid() && old(trace) <= trace && Finishes()
    {
      FinishClaimReconciliation();
      Step(a, FinalResume);
    }

    /** What the read tells when the statement has not. */
    method FinalObserve(c: Claim, row: Row) returns (r: Outcome)
      requires Valid() && row.claim.Some? && View().completion == Finalizing(c, FinalReadReplied(ReadRow(row)))
      modifies this
      ensures Valid() && old(trace) <= trace && !r.Thrown?
      ensures r == Done(true) ==> Finishes()
      ensures r.Waiting? ==> View().completion == HooksSucceeded
    {
      ghost var a := View();
      var stored := row.claim.value;
      claim := Some(stored);
      if stored.Confirmed? && row.status == StatusFinished {
        ReadFinishedHolds(a, c, row);
        FinishFinal(a);
        return Done(true);
      }
      if stored.Confirmed? && row.status == StatusClaiming {
        Step(a, FinalResume);
        return Waiting;
      }
      GiveUpFinal(a, c, row);
      r := Done(false);
    }

    /** The row that was read holds a claim that is not to be finalized. */
    method GiveUpFinal(ghost a: Session, ghost c: Claim, row: Row)
      requires Reached(a) && a.completion == Finalizing(c, FinalReadReplied(ReadRow(row)))
      requires row.claim.Some? && View() == a.(mem := row.claim)
      requires !(row.claim.value.Confirmed? && (row.status == StatusFinished || row.status == StatusClaiming))
      modifies this
      ensures Valid() && old(trace) <= trace
    {
      ReconcileObservedTerminal(row.claim.value);
      Step(a, FinalResume);
    }

    lemma FinalizedHolds(c: Claim)
      requires Valid() && View().completion == Finalizing(c, FinalReplied(CasTrue))
      ensures slot.HasClaim() && slot.row.status == StatusFinished && slot.Claimed().Confirmed? && View().hooked
    {
      RunInv(trace);
      FinalizedFacts(View(), c);
    }

    lemma ReadFinishedHolds(a: Session, c: Claim, row: Row)
      requires Reached(a) && row.claim.Some? && a.completion == Finalizing(c, FinalReadReplied(ReadRow(row)))
      requires row.claim.value.Confirmed? && row.status == StatusFinished
      ensures a.slot.HasClaim() && a.slot.row.status == StatusFinished && a.slot.Claimed().Confirmed? && a.hooked
    {
      RunInv(trace);
      ReadFinishedFacts(a, c, row);
    }

    /** finalizeConfirmedClaim with the finishClaimReconciliation that follows it. */
    method FinalizeConfirmedClaim(rounds: nat) returns (r: Outcome)
      requires Valid() && View().completion == HooksSucceeded
      modifies this
      ensures Valid() && old(trace) <= trace && !r.Thrown?
      ensures r == Done(true) ==> Finishes()
    {
      for round := 0 to rounds
        invariant Valid() && old(trace) <= trace && View().completion == HooksSucceeded
      {
        var confirmed := claim.Some? && claim.value.Confirmed?;
        Step(View(), StartFinalize);
        if !confirmed { return Done(false); }
        r := FinalizeRound(claim.value);
        if r.Done? { return; }
        Await(CompletionRole);
      }
      r := Waiting;
    }
  }
}
