/** A run in which one lost acknowledgement and one late read leave a confirmed claim
    without any task until the next restart. */
module ClaimStranding {
  import opened Wrappers
  import opened ClaimData
  import opened ClaimSession
  import opened ClaimRun
  import opened ClaimServing

  /** The process is up, the row is CLAIMING with a CONFIRMED claim, and nothing is left that
      would finalize it. */
  predicate Stranded(a: Session) {
    && a.up && a.slot.Live? && a.slot.row.status == StatusClaiming && IsConfirmed(a.slot)
    && a.queue == QueueOff && a.broadcast == BroadcastOff && a.receipt == SettleReturned && a.completion == CompletionOff
  }

  function Q(): Claim { Queue(1, 0) }
  function P(tx: SignedTx): Claim { Prepared(1, 0, tx) }
  function N(tx: SignedTx): Claim { Pending(1, 0, tx) }
  function C(tx: SignedTx): Claim { Confirmed(1, 0, tx, 7, 9) }
  const RECEIPT := Receipt(true, 7, 9)

  function Claiming(c: Claim): Slot { Live(Row(StatusClaiming, 1, Some(c))) }

  /** The rebroadcast task between its read of PENDING and the code that uses it. */
  function LateRead(tx: SignedTx): BroadcastTask {
    BroadcastMark(Transition(P(tx), N(tx), ReadReplied(true, ReadRow(Row(StatusClaiming, 1, Some(N(tx)))))))
  }

  function Taken(tx: SignedTx): Session {
    START.(up := true, slot := Claiming(Q()), mem := Some(Q()), owned := true, queue := QueuePreparing(tx.txNonce))
  }

  function Signed1(tx: SignedTx): Session {
    Session(true, Claiming(P(tx)), None, Some(P(tx)), true, true, Some(tx),
            QueueOff, BroadcastLoop, ReceiptLoop, CompletionOff, Some(tx), {}, false)
  }

  function Marked(tx: SignedTx): Session {
    Signed1(tx).(slot := Claiming(N(tx)), sent := {tx}, broadcast := LateRead(tx))
  }

  function Settled(tx: SignedTx): Session {
    Marked(tx).(slot := Claiming(C(tx)), mem := Some(C(tx)), receipt := SettleReturned, completion := CompletionLoop)
  }

  lemma Then(es: seq<Event>, a: Session, e: Event) returns (fs: seq<Event>, b: Session)
    requires a == RunSession(START, es) && AllowedRun(es) && Allowed(e)
    ensures fs == es + [e] && b == Apply(a, e) && b == RunSession(START, fs) && AllowedRun(fs)
  {
    RunAppend(START, es, e);
    fs, b := es + [e], Apply(a, e);
  }

  function Created(): Session { START.(up := true, slot := Claiming(Q()), creating := Some(Q())) }

  lemma ReachCreated() returns (es: seq<Event>)
    ensures RunSession(START, es) == Created() && AllowedRun(es)
  {
    var a := START;
    es := [];
    es, a := Then(es, a, Restart);
    es, a := Then(es, a, Insert(1));
    es, a := Then(es, a, MakeClaimable(1));
    es, a := Then(es, a, CreateWrite(1, 0, 1, Ack));
  }

  lemma ReachTaken(tx: SignedTx) returns (es: seq<Event>)
    ensures RunSession(START, es) == Taken(tx) && AllowedRun(es)
  {
    es := ReachCreated();
    var a := Created();
    es, a := Then(es, a, CreateReturn);
    es, a := Then(es, a, TakeFromQueue(true, tx.txNonce));
  }

  function Writing(tx: SignedTx): Session {
    Taken(tx).(reserved := Some(tx), queue := QueueWriting(true, Transition(Q(), P(tx), CasCall)))
  }

  lemma ReachWriting(tx: SignedTx) returns (es: seq<Event>)
    ensures RunSession(START, es) == Writing(tx) && AllowedRun(es)
  {
    es := ReachTaken(tx);
    var a := Taken(tx);
    es, a := Then(es, a, Signed(Some(tx), true));
  }

  lemma ReachSigned(tx: SignedTx) returns (es: seq<Event>)
    ensures RunSession(START, es) == Signed1(tx) && AllowedRun(es)
  {
    es := ReachWriting(tx);
    var a := Writing(tx);
    es, a := Then(es, a, Cas(QueueT, Ack));
    es, a := Then(es, a, Resume(QueueT));
  }

  function Acknowledged(tx: SignedTx): Session {
    Signed1(tx).(sent := {tx}, broadcast := BroadcastMark(Transition(P(tx), N(tx), CasCall)))
  }

  lemma ReachAcknowledged(tx: SignedTx) returns (es: seq<Event>)
    ensures RunSession(START, es) == Acknowledged(tx) && AllowedRun(es)
  {
    es := ReachSigned(tx);
    var a := Signed1(tx);
    es, a := Then(es, a, BroadcastCheck);
    es, a := Then(es, a, BroadcastSent(true));
    es, a := Then(es, a, BroadcastResume);
  }

  function MarkLost(tx: SignedTx): Session {
    Marked(tx).(broadcast := BroadcastMark(Transition(P(tx), N(tx), CasReplied(CasError))))
  }

  lemma ReachMarkLost(tx: SignedTx) returns (es: seq<Event>)
    ensures RunSession(START, es) == MarkLost(tx) && AllowedRun(es)
  {
    es := ReachAcknowledged(tx);
    var a := Acknowledged(tx);
    es, a := Then(es, a, Cas(BroadcastT, LostAck));
  }

  lemma ReachMarked(tx: SignedTx) returns (es: seq<Event>)
    ensures RunSession(START, es) == Marked(tx) && AllowedRun(es)
  {
    es := ReachMarkLost(tx);
    var a := MarkLost(tx);
    es, a := Then(es, a, Resume(BroadcastT));
    es, a := Then(es, a, Read(BroadcastT, false));
  }

  /** The first attempt of settleClaim, with the PREPARED claim that memory still holds. */
  function Attempting(tx: SignedTx, phase: Phase): Session {
    Marked(tx).(receipt := Settling(0, RECEIPT, Transition(P(tx), TerminalClaim(P(tx), RECEIPT), phase)))
  }

  lemma ReachAttempting(tx: SignedTx) returns (es: seq<Event>)
    ensures RunSession(START, es) == Attempting(tx, CasCall) && AllowedRun(es)
  {
    es := ReachMarked(tx);
    var a := Marked(tx);
    es, a := Then(es, a, ReceiptCheck);
    es, a := Then(es, a, ReceiptArrived(RECEIPT));
  }

  lemma ReachRefused(tx: SignedTx) returns (es: seq<Event>)
    ensures RunSession(START, es) == Attempting(tx, CasReplied(CasFalse)) && AllowedRun(es)
  {
    es := ReachAttempting(tx);
    var a := Attempting(tx, CasCall);
    es, a := Then(es, a, Cas(ReceiptT, Ack));
  }

  lemma ReachConflicting(tx: SignedTx) returns (es: seq<Event>)
    ensures RunSession(START, es) == Attempting(tx, ReadCall(false)) && AllowedRun(es)
  {
    es := ReachRefused(tx);
    var a := Attempting(tx, CasReplied(CasFalse));
    es, a := Then(es, a, Resume(ReceiptT));
  }

  function Reread(tx: SignedTx): Phase { ReadReplied(false, ReadRow(Row(StatusClaiming, 1, Some(N(tx))))) }

  lemma ReachReread(tx: SignedTx) returns (es: seq<Event>)
    ensures RunSession(START, es) == Attempting(tx, Reread(tx)) && AllowedRun(es)
  {
    es := ReachConflicting(tx);
    var a := Attempting(tx, ReadCall(false));
    es, a := Then(es, a, Read(ReceiptT, false));
  }

  /** The second attempt, with the PENDING claim that the first one read. */
  function Retrying(tx: SignedTx): Session {
    Marked(tx).(mem := Some(N(tx)), receipt := Settling(1, RECEIPT, Transition(N(tx), C(tx), CasCall)))
  }

  lemma ReachRetrying(tx: SignedTx) returns (es: seq<Event>)
    ensures RunSession(START, es) == Retrying(tx) && AllowedRun(es)
  {
    es := ReachReread(tx);
    var a := Attempting(tx, Reread(tx));
    es, a := Then(es, a, Resume(ReceiptT));
  }

  lemma ReachSettled(tx: SignedTx) returns (es: seq<Event>)
    ensures RunSession(START, es) == Settled(tx) && AllowedRun(es)
  {
    es := ReachRetrying(tx);
    var a := Retrying(tx);
    es, a := Then(es, a, Cas(ReceiptT, Ack));
    es, a := Then(es, a, Resume(ReceiptT));
  }

  /** The hooks are running when the mark resumes. */
  function Hooking(tx: SignedTx): Session { Settled(tx).(completion := HooksRunning) }

  lemma ReachHooking(tx: SignedTx) returns (es: seq<Event>)
    ensures RunSession(START, es) == Hooking(tx) && AllowedRun(es)
  {
    es := ReachSettled(tx);
    var a := Settled(tx);
    es, a := Then(es, a, CompletionCheck);
  }

  function Unlearned(tx: SignedTx): Session { Hooking(tx).(mem := Some(N(tx)), broadcast := BroadcastOff) }

  lemma ReachUnlearned(tx: SignedTx) returns (es: seq<Event>)
    ensures RunSession(START, es) == Unlearned(tx) && AllowedRun(es)
  {
    es := ReachHooking(tx);
    var a := Hooking(tx);
    es, a := Then(es, a, Resume(BroadcastT));
  }

  /** The late read sets the in-memory claim back to PENDING while the hooks of the CONFIRMED row
      are running; when they have returned, completion ends without FINISHED, and nothing but the
      end of the process brings a task back. The durable row itself never goes back. */
  lemma LateReadStrandsClaim(tx: SignedTx) returns (es: seq<Event>)
    ensures var a := RunSession(START, es);
            AllowedRun(es) && Stranded(a) && a.hooked && a.mem == Some(N(tx)) && !Served(a) && Doomed(a)
  {
    es := ReachUnlearned(tx);
    var a := Unlearned(tx);
    es, a := Then(es, a, HooksEnd(true));
    es, a := Then(es, a, StartFinalize);
  }
}
