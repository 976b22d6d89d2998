/** The claim protocol of all sessions together: one process, one wallet nonce counter,
    one queue task, any number of sessions, crashes and restarts. */
module ClaimSystem {
  import opened Wrappers
  import opened ClaimData
  import opened ClaimSession

  /** ready and nonce are EthWalletManager.walletState; busy is the session whose claim the
      single queue task has taken. */
  datatype System = System(up: bool, ready: bool, nonce: nat, sessions: map<string, Session>, busy: Option<string>)

  datatype SystemEvent =
    | At(sid: string, event: Event)
    | WalletLoaded(rpcNonce: nat, newNonce: nat)
    | WalletFailed
    | RefillSent
    | ProcessCrash
    | ProcessRestart(rpc: Option<nat>, restoredNonce: nat)

  function Boot(): System { System(false, false, 0, map[], None) }

  predicate Busy(a: Session) { a.queue.QueuePreparing? || a.queue.QueueWriting? }

  /** The counter after Math.max over the reservations: an upper bound that is attained. */
  predicate NonceMax(nonce: nat, rpcNonce: nat, sessions: map<string, Session>) {
    && nonce >= rpcNonce
    && (forall s :: s in sessions && sessions[s].reserved.Some? ==> sessions[s].reserved.value.txNonce < nonce)
    && (nonce == rpcNonce || exists s :: s in sessions && sessions[s].reserved.Some? && nonce == sessions[s].reserved.value.txNonce + 1)
  }

  function AllRestarted(ss: map<string, Session>): map<string, Session> {
    map s | s in ss :: Apply(ss[s], Restart)
  }

  function AllCrashed(ss: map<string, Session>): map<string, Session> {
    map s | s in ss :: Apply(ss[s], Crash)
  }

  predicate Enabled(x: System, e: SystemEvent) {
    match e
    case At(sid, ev) =>
      && ev != Crash && ev != Restart && Allowed(ev)
      && (sid in x.sessions || ev.Insert?)
      && (ev.TakeFromQueue? ==> x.up && x.busy.None? && ev == TakeFromQueue(x.ready, x.nonce))
    case WalletLoaded(rpc, n) => x.up && x.busy.None? && NonceMax(n, rpc, x.sessions)
    case WalletFailed => x.up && x.busy.None?
    case RefillSent => x.up && x.busy.None?
    case ProcessCrash => x.up
    case ProcessRestart(rpc, n) => !x.up && NonceMax(n, if rpc.Some? then rpc.value else 0, AllRestarted(x.sessions))
  }

  function At1(x: System, sid: string): Session {
    if sid in x.sessions then x.sessions[sid] else Fresh(x.up)
  }

  function Do(x: System, e: SystemEvent): System {
    match e
    case At(sid, ev) =>
      var a := At1(x, sid);
      var b := Apply(a, ev);
      x.(sessions := x.sessions[sid := b],
         busy := if Busy(b) then Some(sid) else if x.busy == Some(sid) then None else x.busy,
         nonce := if ev.Signed? && b.reserved.Some? && b.reserved != a.reserved && b.reserved.value.txNonce >= x.nonce
                  then b.reserved.value.txNonce + 1 else x.nonce)
    case WalletLoaded(rpc, n) => x.(ready := true, nonce := n)
    case WalletFailed => x.(ready := false, nonce := 0)
    case RefillSent => x.(nonce := x.nonce + 1)
    case ProcessCrash => x.(up := false, ready := false, nonce := 0, sessions := AllCrashed(x.sessions), busy := None)
    case ProcessRestart(rpc, n) => x.(up := true, ready := rpc.Some?, nonce := n, sessions := AllRestarted(x.sessions), busy := None)
  }

  predicate Possible(x: System, es: seq<SystemEvent>)
    decreases |es|
  {
    es == [] || (Enabled(x, es[0]) && Possible(Do(x, es[0]), es[1..]))
  }

  function Run(x: System, es: seq<SystemEvent>): System
    decreases |es|
  {
    if es == [] then x else Run(Do(x, es[0]), es[1..])
  }

  // ---------------------------------------------------------------- the invariant

  predicate Apart(a: Option<SignedTx>, b: Option<SignedTx>) {
    a.Some? && b.Some? ==> a.value.txNonce != b.value.txNonce
  }

  function ActiveTx(a: Session): Option<SignedTx> {
    if a.slot.HasActive() then Some(a.slot.row.claim.value.tx) else None
  }

  predicate SessionIn(x: System, a: Session) {
    && Inv(a) && a.up == x.up
    && (x.ready && a.reserved.Some? ==> a.reserved.value.txNonce < x.nonce)
    && (a.queue.QueuePreparing? ==> x.ready && a.queue.nonce == x.nonce)
  }

  predicate SystemInv(x: System) {
    && (forall s :: s in x.sessions ==> SessionIn(x, x.sessions[s]))
    && (forall s :: s in x.sessions && Busy(x.sessions[s]) ==> x.busy == Some(s))
    && (forall s, t :: s in x.sessions && t in x.sessions && s != t ==>
          Apart(x.sessions[s].reserved, x.sessions[t].reserved))
    && (forall s, t :: s in x.sessions && t in x.sessions && s != t ==>
          Apart(ActiveTx(x.sessions[s]), ActiveTx(x.sessions[t])))
  }

  /** b follows a without a new reservation and without the queue task taking a claim. */
  predicate Calm(a: Session, b: Session) {
    && b.up == a.up
    && (b.reserved == a.reserved || b.reserved.None?)
    && (b.queue == a.queue || b.queue.QueueOff? || (a.queue.QueueWriting? && b.queue.QueueWriting?))
  }

  lemma LearnCalm(a: Session, r: Resumed)
    ensures Calm(a, Learn(a, r))
  {}

  lemma AfterCalm(b: Session, prepare: bool, v: Verdict, task: ReceiptTask)
    requires task.Settling?
    ensures b.queue.QueueWriting? ==> Calm(b, AfterQueue(b, prepare, v))
    ensures Calm(b, AfterMark(b, v)) && Calm(b, AfterSettle(b, task, v))
  {}

  lemma CalmTrans(a: Session, b: Session, c: Session)
    requires Calm(a, b) && Calm(b, c)
    ensures Calm(a, c)
  {}

  lemma ResumeQueueCalm(a: Session)
    requires a.queue.QueueWriting?
    ensures Calm(a, ResumeQueue(a))
  {
    var r := ResumeTransition(a.queue.qt);
    var b := Learn(a, r);
    LearnCalm(a, r);
    assert b.queue == a.queue;
    AfterCalm(b, a.queue.prepare, r.verdict, Settling(0, Receipt(true, 0, 0), a.queue.qt));
    CalmTrans(a, b, ResumeQueue(a));
  }

  lemma ResumeMarkCalm(a: Session)
    requires a.broadcast.BroadcastMark?
    ensures Calm(a, ResumeBroadcastMark(a))
  {
    var r := ResumeTransition(a.broadcast.bt);
    LearnCalm(a, r);
    AfterCalm(Learn(a, r), false, r.verdict, Settling(0, Receipt(true, 0, 0), a.broadcast.bt));
    CalmTrans(a, Learn(a, r), ResumeBroadcastMark(a));
  }

  lemma ResumeSettleCalm(a: Session)
    requires a.receipt.Settling?
    ensures Calm(a, ResumeSettle(a))
  {
    var r := ResumeTransition(a.receipt.rt);
    LearnCalm(a, r);
    AfterCalm(Learn(a, r), false, r.verdict, a.receipt);
    CalmTrans(a, Learn(a, r), ResumeSettle(a));
  }

  lemma ResumeCalm(a: Session, task: Task)
    ensures Calm(a, ApplyResume(a, task))
  {
    match task
    case QueueT => if a.queue.QueueWriting? { ResumeQueueCalm(a); }
    case BroadcastT => if a.broadcast.BroadcastMark? { ResumeMarkCalm(a); }
    case ReceiptT => if a.receipt.Settling? { ResumeSettleCalm(a); }
  }

  lemma CasCalm(a: Session, task: Task, f: Fault)
    ensures Calm(a, ApplyCas(a, task, f))
  {}

  lemma FinalCalm(a: Session)
    requires a.completion.Finalizing?
    ensures Calm(a, ResumeFinal(a))
  {}

  lemma RestCalm(a: Session, e: Event)
    requires !QueueEvent(e) && !e.CreateWrite? && e != Crash && e != Restart && !e.Cas? && !e.Resume? && !e.FinalResume?
    ensures Calm(a, Apply(a, e))
  {
    hide InsertRunning, TransitionSession, TryTimeout, CleanupCandidate, FinalizeConfirmedClaim, ReadSlot, StartFinal;
    if e.Read? { ReadCalm(a, e.task, e.fails); }
    else if e.FinalCas? { FinalCasCalm(a, e.fault); }
  }

  lemma ReadCalm(a: Session, task: Task, fails: bool)
    ensures Calm(a, ApplyRead(a, task, fails))
  {}

  lemma FinalCasCalm(a: Session, f: Fault)
    ensures Calm(a, ApplyFinalCas(a, f))
  {}

  lemma EventCalm(a: Session, e: Event)
    requires !QueueEvent(e) && e != Crash && e != Restart
    ensures Calm(a, Apply(a, e))
  {
    match e
    case Cas(task, f) => CasCalm(a, task, f);
    case Resume(task) => ResumeCalm(a, task);
    case FinalResume => if a.completion.Finalizing? { FinalCalm(a); }
    case CreateWrite(_, _, _, _) =>
    case _ => RestCalm(a, e);
  }

  /** What an event may do to the reservation and to the queue task of its session. */
  lemma QueueFrame(a: Session, e: Event)
    requires e != Crash && e != Restart
    ensures var b := Apply(a, e);
            && b.up == a.up
            && (b.reserved == a.reserved || b.reserved.None?
                || (e.Signed? && a.queue.QueuePreparing? && b.reserved.Some? && b.reserved.value.txNonce == a.queue.nonce
                    && b.queue.QueueWriting?))
            && (Busy(b) ==> Busy(a) || e.TakeFromQueue?)
            && (b.queue.QueuePreparing? ==> b.queue == a.queue || e == TakeFromQueue(true, b.queue.nonce))
  {
    if !QueueEvent(e) { EventCalm(a, e); }
  }

  /** While the process is down only the session side and clean-up touch rows. */
  lemma DownFrame(a: Session, e: Event)
    requires Inv(a) && !a.up && e != Crash && e != Restart
    ensures ActiveTx(Apply(a, e)) == ActiveTx(a)
  {
    if TransitionEvent(e) { assert Apply(a, e) == a; }
  }

  lemma DoAtSession(x: System, sid: string, e: Event)
    requires SystemInv(x) && Enabled(x, At(sid, e))
    ensures var y := Do(x, At(sid, e)); var a := At1(x, sid); var b := y.sessions[sid];
            && SessionIn(x, a) && SessionIn(y, b) && y.nonce >= x.nonce && y.ready == x.ready
            && (b.reserved == a.reserved || b.reserved.None? || (x.ready && b.reserved.Some? && b.reserved.value.txNonce == x.nonce))
            && (Busy(b) ==> Busy(a) || x.busy.None?)
            && (y.nonce != x.nonce ==> Busy(b))
            && (!x.up ==> ActiveTx(b) == ActiveTx(a))
  {
    var a := At1(x, sid);
    FreshInv(x.up);
    StepInv(a, e);
    QueueFrame(a, e);
    if !x.up { DownFrame(a, e); }
  }

  /** Running sessions reserve what they may have sent, so reserved nonces apart means active nonces apart. */
  lemma ActiveReserved(x: System)
    requires forall s :: s in x.sessions ==> SessionIn(x, x.sessions[s])
    requires x.up
    requires forall s, t :: s in x.sessions && t in x.sessions && s != t ==>
               Apart(x.sessions[s].reserved, x.sessions[t].reserved)
    ensures forall s, t :: s in x.sessions && t in x.sessions && s != t ==>
              Apart(ActiveTx(x.sessions[s]), ActiveTx(x.sessions[t]))
  {
    forall s | s in x.sessions ensures ActiveTx(x.sessions[s]).Some? ==> x.sessions[s].reserved == ActiveTx(x.sessions[s]) {
      assert SessionIn(x, x.sessions[s]);
    }
  }

  /** A new reservation is for the current nonce, which no other reservation has reached. */
  lemma ReservedApart(x: System, y: System, sid: string, a: Session, b: Session)
    requires SystemInv(x) && a == At1(x, sid) && y.sessions == x.sessions[sid := b]
    requires b.reserved == a.reserved || b.reserved.None? || (x.ready && b.reserved.Some? && b.reserved.value.txNonce == x.nonce)
    ensures forall s, t :: s in y.sessions && t in y.sessions && s != t ==> Apart(y.sessions[s].reserved, y.sessions[t].reserved)
  {
    forall s | s in x.sessions && s != sid
      ensures Apart(x.sessions[s].reserved, b.reserved) && Apart(b.reserved, x.sessions[s].reserved)
    {
      assert SessionIn(x, x.sessions[s]);
    }
  }

  lemma SessionsStay(x: System, sid: string, e: Event)
    requires SystemInv(x) && Enabled(x, At(sid, e))
    ensures var y := Do(x, At(sid, e)); forall s :: s in y.sessions ==> SessionIn(y, y.sessions[s])
  {
    var a := At1(x, sid);
    var y := Do(x, At(sid, e));
    DoAtSession(x, sid, e);
    forall s | s in y.sessions ensures SessionIn(y, y.sessions[s]) {
      if s != sid { OtherStays(x, y, x.sessions[s], s, sid, a, y.sessions[sid]); }
    }
  }

  lemma DoAtInv(x: System, sid: string, e: Event)
    requires SystemInv(x) && Enabled(x, At(sid, e))
    ensures SystemInv(Do(x, At(sid, e)))
  {
    var y := Do(x, At(sid, e));
    DoAtSession(x, sid, e);
    SessionsStay(x, sid, e);
    DoAtParts(x, y, sid, At1(x, sid), y.sessions[sid]);
  }

  /** One session has moved on as DoAtSession says. */
  lemma DoAtParts(x: System, y: System, sid: string, a: Session, b: Session)
    requires SystemInv(x) && a == At1(x, sid) && y.sessions == x.sessions[sid := b] && y.up == x.up
    requires forall s :: s in y.sessions ==> SessionIn(y, y.sessions[s])
    requires b.reserved == a.reserved || b.reserved.None? || (x.ready && b.reserved.Some? && b.reserved.value.txNonce == x.nonce)
    requires Busy(b) ==> Busy(a) || x.busy.None?
    requires y.busy == if Busy(b) then Some(sid) else if x.busy == Some(sid) then None else x.busy
    requires !x.up ==> ActiveTx(b) == ActiveTx(a)
    ensures SystemInv(y)
  {
    ReservedApart(x, y, sid, a, b);
    OneBusy(x, y, sid, a, b);
    if x.up { ActiveReserved(y); } else { ActiveStays(x, y, sid, a, b); }
  }

  lemma OneBusy(x: System, y: System, sid: string, a: Session, b: Session)
    requires SystemInv(x) && a == At1(x, sid) && y.sessions == x.sessions[sid := b]
    requires Busy(b) ==> Busy(a) || x.busy.None?
    requires y.busy == if Busy(b) then Some(sid) else if x.busy == Some(sid) then None else x.busy
    ensures forall s :: s in y.sessions && Busy(y.sessions[s]) ==> y.busy == Some(s)
  {}

  lemma ActiveStays(x: System, y: System, sid: string, a: Session, b: Session)
    requires SystemInv(x) && a == At1(x, sid) && y.sessions == x.sessions[sid := b] && ActiveTx(b) == ActiveTx(a)
    ensures forall s, t :: s in y.sessions && t in y.sessions && s != t ==>
              Apart(ActiveTx(y.sessions[s]), ActiveTx(y.sessions[t]))
  {
    forall s, t | s in y.sessions && t in y.sessions && s != t
      ensures Apart(ActiveTx(y.sessions[s]), ActiveTx(y.sessions[t]))
    {
      if sid !in x.sessions { assert ActiveTx(b).None?; }
    }
  }

  lemma OtherStays(x: System, y: System, c: Session, s: string, sid: string, a: Session, b: Session)
    requires SystemInv(x) && s in x.sessions && c == x.sessions[s] && s != sid
    requires y.up == x.up && y.ready == x.ready && y.nonce >= x.nonce
    requires a == At1(x, sid)
    requires y.nonce != x.nonce ==> Busy(b)
    requires Busy(b) ==> Busy(a) || x.busy.None?
    ensures SessionIn(y, c)
  {
    assert SessionIn(x, c);
    if Busy(b) && Busy(a) { assert sid in x.sessions; }
  }

  lemma BootInv()
    ensures SystemInv(Boot())
  {}

  lemma WalletLoadInv(x: System, rpc: nat, n: nat)
    requires SystemInv(x) && Enabled(x, WalletLoaded(rpc, n))
    ensures SystemInv(Do(x, WalletLoaded(rpc, n)))
  {
    var y := Do(x, WalletLoaded(rpc, n));
    forall s | s in y.sessions ensures SessionIn(y, y.sessions[s]) { assert SessionIn(x, x.sessions[s]); }
  }

  lemma WalletOtherInv(x: System, e: SystemEvent)
    requires SystemInv(x) && Enabled(x, e) && (e == WalletFailed || e == RefillSent)
    ensures SystemInv(Do(x, e))
  {
    var y := Do(x, e);
    forall s | s in y.sessions ensures SessionIn(y, y.sessions[s]) { assert SessionIn(x, x.sessions[s]); }
  }

  lemma RestartParts(a: Session)
    requires Inv(a) && !a.up
    ensures var b := Apply(a, Restart);
            Inv(b) && b.up && b.reserved == ActiveTx(a) && ActiveTx(b) == ActiveTx(a) && !Busy(b)
  {
    RestartInv(a);
  }

  lemma CrashParts(a: Session)
    requires Inv(a)
    ensures var b := Apply(a, Crash);
            Inv(b) && !b.up && b.reserved.None? && ActiveTx(b) == ActiveTx(a) && !Busy(b)
  {
    CrashInv(a);
  }

  lemma CrashAllInv(x: System)
    requires SystemInv(x)
    ensures SystemInv(Do(x, ProcessCrash))
  {
    hide Inv, ActiveTx, CrashSession;
    var y := Do(x, ProcessCrash);
    forall s | s in y.sessions
      ensures SessionIn(y, y.sessions[s]) && !Busy(y.sessions[s]) && y.sessions[s].reserved.None?
              && ActiveTx(y.sessions[s]) == ActiveTx(x.sessions[s])
    {
      assert SessionIn(x, x.sessions[s]);
      CrashParts(x.sessions[s]);
    }
  }

  lemma RestartAllInv(x: System, rpc: Option<nat>, n: nat)
    requires SystemInv(x) && Enabled(x, ProcessRestart(rpc, n))
    ensures SystemInv(Do(x, ProcessRestart(rpc, n)))
  {
    hide Inv, ActiveTx, RestartSession;
    var y := Do(x, ProcessRestart(rpc, n));
    forall s | s in y.sessions
      ensures SessionIn(y, y.sessions[s]) && !Busy(y.sessions[s])
              && y.sessions[s].reserved == ActiveTx(x.sessions[s]) && ActiveTx(y.sessions[s]) == ActiveTx(x.sessions[s])
    {
      assert SessionIn(x, x.sessions[s]);
      RestartParts(x.sessions[s]);
    }
  }

  lemma DoInv(x: System, e: SystemEvent)
    requires SystemInv(x) && Enabled(x, e)
    ensures SystemInv(Do(x, e))
  {
    match e
    case At(sid, ev) => DoAtInv(x, sid, ev);
    case WalletLoaded(rpc, n) => WalletLoadInv(x, rpc, n);
    case ProcessCrash => CrashAllInv(x);
    case ProcessRestart(rpc, n) => RestartAllInv(x, rpc, n);
    case _ => WalletOtherInv(x, e);
  }

  lemma {:induction false} RunInv(x: System, es: seq<SystemEvent>)
    requires SystemInv(x) && Possible(x, es)
    ensures SystemInv(Run(x, es))
    decreases |es|
  {
    if es != [] {
      DoInv(x, es[0]);
      RunInv(Do(x, es[0]), es[1..]);
    }
  }

  // --------------------------------------------------------------- the main results

  /** In every run, with any crashes, lost acknowledgements and RPC answers: a session has
      at most one transaction ever handed to the network, it is the one its row holds, a
      session whose claim is unsigned (still QUEUE, FAILED, or absent) has none, and FINISHED
      follows a successful run of the claim hooks. */
  lemma PaidAtMostOnce(es: seq<SystemEvent>, sid: string)
    requires Possible(Boot(), es) && sid in Run(Boot(), es).sessions
    ensures var a := Run(Boot(), es).sessions[sid];
            && (forall t, u :: t in a.sent && u in a.sent ==> t == u)
            && (forall t :: t in a.sent ==> a.slot.HasClaim() && a.slot.Claimed().Signed() && a.slot.Claimed().tx == t)
            && (!a.slot.HasClaim() || !a.slot.Claimed().Signed() ==> a.sent == {})
            && (!a.slot.Absent? && a.slot.row.status == StatusFinished ==> a.hooked)
  {
    BootInv();
    RunInv(Boot(), es);
    assert SessionIn(Run(Boot(), es), Run(Boot(), es).sessions[sid]);
  }

  /** Before an event first hands a transaction to the network, the durable row already
      holds a signed claim with exactly those bytes. */
  lemma DurableBeforeSent(es: seq<SystemEvent>, sid: string, e: Event, t: SignedTx)
    requires Possible(Boot(), es) && Enabled(Run(Boot(), es), At(sid, e))
    requires var a := At1(Run(Boot(), es), sid); t !in a.sent && t in Apply(a, e).sent
    ensures var a := At1(Run(Boot(), es), sid);
            a.slot.HasClaim() && a.slot.Claimed().Signed() && a.slot.Claimed().tx == t
  {
    BootInv();
    RunInv(Boot(), es);
    var x := Run(Boot(), es);
    var a := At1(x, sid);
    DoAtSession(x, sid, e);
    SentFrame(a, e);
  }

  lemma SentFrame(a: Session, e: Event)
    ensures var b := Apply(a, e);
            b.sent == a.sent || (e.BroadcastSent? && a.broadcast.BroadcastSend? && b.sent == a.sent + {a.broadcast.sending})
  {
    match e
    case Resume(task) => ResumeSent(a, task);
    case Cas(task, f) => CasSent(a, task, f);
    case Read(task, fails) => ReadSent(a, task, fails);
    case FinalResume => if a.completion.Finalizing? { FinalSent(a); }
    case Restart => RestartSent(a);
    case FinalCas(f) => FinalCasSent(a, f);
    case _ => RestSent(a, e);
  }

  lemma CasSent(a: Session, task: Task, f: Fault)
    ensures ApplyCas(a, task, f).sent == a.sent
  {}

  lemma ReadSent(a: Session, task: Task, fails: bool)
    ensures ApplyRead(a, task, fails).sent == a.sent
  {}

  lemma FinalSent(a: Session)
    requires a.completion.Finalizing?
    ensures ResumeFinal(a).sent == a.sent
  {}

  lemma FinalCasSent(a: Session, f: Fault)
    ensures ApplyFinalCas(a, f).sent == a.sent
  {}

  lemma RestartSent(a: Session)
    ensures RestartSession(a).sent == a.sent
  {}

  lemma RestSent(a: Session, e: Event)
    requires !TransitionEvent(e) && !e.FinalResume? && !e.Restart? && !e.FinalCas?
    ensures var b := Apply(a, e);
            b.sent == a.sent || (e.BroadcastSent? && a.broadcast.BroadcastSend? && b.sent == a.sent + {a.broadcast.sending})
  {
    hide Apply;
    if QueueEvent(e) { QueueSent(a, e); }
    else if !BroadcastEvent(e) { OtherSent(a, e); }
    else { MarkSent(a, e); }
  }

  lemma QueueSent(a: Session, e: Event)
    requires QueueEvent(e)
    ensures Apply(a, e).sent == a.sent
  {}

  lemma MarkSent(a: Session, e: Event)
    requires BroadcastEvent(e)
    ensures var b := Apply(a, e);
            b.sent == a.sent || (e.BroadcastSent? && a.broadcast.BroadcastSend? && b.sent == a.sent + {a.broadcast.sending})
  {}

  lemma OtherSent(a: Session, e: Event)
    requires !TransitionEvent(e) && !e.FinalResume? && !e.Restart? && !e.FinalCas? && !QueueEvent(e) && !BroadcastEvent(e)
    ensures Apply(a, e).sent == a.sent
  {
    hide InsertRunning, TransitionSession, TryTimeout, CleanupCandidate, FinalizeConfirmedClaim, ReadSlot, StartFinal;
  }

  lemma ResumeSent(a: Session, task: Task)
    ensures ApplyResume(a, task).sent == a.sent
  {
    hide ResumeTransition, Learn;
    if task.QueueT? && a.queue.QueueWriting? { LearnSent(a, ResumeTransition(a.queue.qt)); }
    if task.BroadcastT? && a.broadcast.BroadcastMark? { LearnSent(a, ResumeTransition(a.broadcast.bt)); }
    if task.ReceiptT? && a.receipt.Settling? { LearnSent(a, ResumeTransition(a.receipt.rt)); }
  }

  lemma LearnSent(a: Session, r: Resumed)
    ensures Learn(a, r).sent == a.sent
  {}

  /** Durable state only moves forward: from any point of a run to any later one, the row of
      a session advances in the order SlotLeq, and what was sent stays sent. */
  lemma {:induction false} RunForward(x: System, es: seq<SystemEvent>, sid: string)
    requires SystemInv(x) && Possible(x, es) && sid in x.sessions
    ensures sid in Run(x, es).sessions
    ensures SlotLeq(x.sessions[sid].slot, Run(x, es).sessions[sid].slot)
    ensures x.sessions[sid].sent <= Run(x, es).sessions[sid].sent
    decreases |es|
  {
    if es != [] {
      var y := Do(x, es[0]);
      DoInv(x, es[0]);
      DoForward(x, es[0], sid);
      RunForward(y, es[1..], sid);
      SlotLeqTransitive(x.sessions[sid].slot, y.sessions[sid].slot, Run(y, es[1..]).sessions[sid].slot);
    }
  }

  lemma DoForward(x: System, e: SystemEvent, sid: string)
    requires SystemInv(x) && Enabled(x, e) && sid in x.sessions
    ensures sid in Do(x, e).sessions
    ensures SlotLeq(x.sessions[sid].slot, Do(x, e).sessions[sid].slot)
    ensures x.sessions[sid].sent <= Do(x, e).sessions[sid].sent
  {
    var a := x.sessions[sid];
    assert SessionIn(x, a);
    match e
    case At(s, ev) => if s == sid { ForwardAt(a, ev); }
    case ProcessCrash => ForwardAt(a, Crash);
    case ProcessRestart(_, _) => ForwardAt(a, Restart);
    case _ =>
  }

  lemma ForwardAt(a: Session, e: Event)
    requires Inv(a) && Allowed(e)
    ensures SlotLeq(a.slot, Apply(a, e).slot) && a.sent <= Apply(a, e).sent
  {
    StepInv(a, e);
    SentFrame(a, e);
  }

  /** Two different sessions whose payouts are both undecided never share a nonce. */
  lemma UndecidedNoncesDiffer(es: seq<SystemEvent>, s: string, t: string)
    requires Possible(Boot(), es) && s != t
    requires s in Run(Boot(), es).sessions && t in Run(Boot(), es).sessions
    requires Run(Boot(), es).sessions[s].slot.HasActive() && Run(Boot(), es).sessions[t].slot.HasActive()
    ensures var x := Run(Boot(), es);
            x.sessions[s].slot.row.claim.value.tx.txNonce != x.sessions[t].slot.row.claim.value.tx.txNonce
  {
    BootInv();
    RunInv(Boot(), es);
    var x := Run(Boot(), es);
    assert Apart(ActiveTx(x.sessions[s]), ActiveTx(x.sessions[t]));
  }

  /** While the claim row exists, settleClaim never runs out of its three attempts; in fact
      it never needs the third. */
  lemma SettleNeverExhausted(es: seq<SystemEvent>, sid: string)
    requires Possible(Boot(), es) && sid in Run(Boot(), es).sessions
    requires Run(Boot(), es).sessions[sid].slot.Live?
    ensures var r := Run(Boot(), es).sessions[sid].receipt;
            r != SettleExhausted && (r.Settling? ==> r.attempt <= 1)
  {
    BootInv();
    RunInv(Boot(), es);
    assert SessionIn(Run(Boot(), es), Run(Boot(), es).sessions[sid]);
  }

  /** The (Status, ClaimData) pair of every row is compatible in every run, and clean-up has
      deleted only rows whose payment is decided. */
  lemma RowsCompatible(es: seq<SystemEvent>, sid: string)
    requires Possible(Boot(), es) && sid in Run(Boot(), es).sessions
    ensures var s := Run(Boot(), es).sessions[sid].slot;
            && (!s.Absent? ==> RowOk(s.row))
            && (s.Erased? ==> !UnresolvedLiability(s.row.status, s.row.claim)
                              && (s.row.status == StatusFinished || s.row.status == StatusFailed))
  {
    BootInv();
    RunInv(Boot(), es);
    assert SessionIn(Run(Boot(), es), Run(Boot(), es).sessions[sid]);
  }
}
