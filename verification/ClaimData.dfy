/** Claim records and the durable session row (src/eth/EthClaim.ts, the Sessions
    statements of src/db/FaucetDatabase.ts). Each SQL statement is one guarded
    update of the row it names. */
module ClaimData {
  import opened Wrappers

  datatype SignedTx = SignedTx(txHash: string, txHex: string, txNonce: nat)

  datatype Claim =
    | Queue(claimIdx: nat, claimTime: nat)
    | Prepared(claimIdx: nat, claimTime: nat, tx: SignedTx)
    | Pending(claimIdx: nat, claimTime: nat, tx: SignedTx)
    | Confirmed(claimIdx: nat, claimTime: nat, tx: SignedTx, txBlock: nat, txFee: nat)
    | Reverted(claimIdx: nat, claimTime: nat, tx: SignedTx, txBlock: nat, txFee: nat, txError: string)
    | Failed(claimIdx: nat, claimTime: nat, txError: string)
  {
    /** PREPARED or PENDING: signed, not yet decided by a receipt. */
    predicate Active() { Prepared? || Pending? }

    predicate Signed() { !Queue? && !Failed? }
  }

  /** b is a, or a later stage of the same claim carrying the same signed bytes. */
  predicate Leq(a: Claim, b: Claim) {
    && a.claimIdx == b.claimIdx && a.claimTime == b.claimTime
    && (|| a == b
        || a.Queue?
        || (a.Prepared? && (b.Pending? || b.Confirmed? || b.Reverted?) && a.tx == b.tx)
        || (a.Pending? && (b.Confirmed? || b.Reverted?) && a.tx == b.tx))
  }

  datatype SessionStatus = StatusRunning | StatusClaimable | StatusClaiming | StatusFinished | StatusFailed

  datatype Row = Row(status: SessionStatus, dropAmount: nat, claim: Option<Claim>)

  /** What the database knows about one session id. Erased keeps, as history, the row
      as it was when clean-up deleted it. */
  datatype Slot = Absent | Live(row: Row) | Erased(row: Row)
  {
    predicate HasClaim() { !Absent? && row.claim.Some? }

    function Claimed(): Claim requires HasClaim() { row.claim.value }

    predicate HasActive() { Live? && row.claim.Some? && row.claim.value.Active() }
  }

  /** The (Status, ClaimData) pairs a row may hold. */
  predicate RowOk(r: Row) {
    match r.status
    case StatusRunning => r.claim.None?
    case StatusClaimable => r.claim.None?
    case StatusClaiming => r.claim.Some? && !r.claim.value.Reverted? && !r.claim.value.Failed?
    case StatusFinished => r.claim.Some? && r.claim.value.Confirmed?
    case StatusFailed => r.claim.None? || r.claim.value.Reverted? || r.claim.value.Failed?
  }

  /** RowOk of a live row; an erased row is moreover one whose payment is decided. */
  predicate SlotOk(s: Slot) {
    && (!s.Absent? ==> RowOk(s.row))
    && (s.Erased? ==> s.row.status == StatusFinished || s.row.status == StatusFailed)
  }

  predicate StatusLeq(a: SessionStatus, b: SessionStatus) {
    || a == b
    || a == StatusRunning
    || (a == StatusClaimable && b != StatusRunning)
    || (a == StatusClaiming && (b == StatusFinished || b == StatusFailed))
  }

  /** Forward order on the durable state of one session. */
  predicate SlotLeq(a: Slot, b: Slot) {
    match a
    case Absent => true
    case Live(r) => !b.Absent? && RowLeq(r, b.row)
    case Erased(r) => b == a
  }

  predicate RowLeq(a: Row, b: Row) {
    && StatusLeq(a.status, b.status)
    && (a.claim.Some? ==> b.claim.Some? && Leq(a.claim.value, b.claim.value))
  }

  lemma SlotLeqTransitive(a: Slot, b: Slot, c: Slot)
    requires SlotLeq(a, b) && SlotLeq(b, c)
    ensures SlotLeq(a, c)
  {}

  // ---------------------------------------------------------------- statements

  /** insertRunningSession: the primary key makes a second INSERT fail; ids are fresh GUIDs,
      so an erased id is never used again. */
  function InsertRunning(s: Slot, amount: nat): Slot {
    if s.Absent? then Live(Row(StatusRunning, amount, None)) else s
  }

  /** transitionSession: UPDATE ... WHERE Status = expected AND ClaimData IS NULL. */
  function TransitionSession(s: Slot, to: SessionStatus, expected: SessionStatus, amount: nat): Slot
    requires to == StatusClaimable || to == StatusFailed
  {
    if s.Live? && s.row.status == expected && s.row.claim.None? then Live(Row(to, amount, None)) else s
  }

  /** tryTimeoutSession: the session status it was read with, no claim. */
  function TryTimeout(s: Slot, expected: SessionStatus): Slot {
    if s.Live? && s.row.status == expected && s.row.claim.None? then Live(s.row.(status := StatusFailed)) else s
  }

  function TryCreateClaim(s: Slot, amount: nat, claim: Claim): Slot {
    if s.Live? && s.row.status == StatusClaimable && s.row.claim.None?
    then Live(Row(StatusClaiming, amount, Some(claim))) else s
  }

  predicate CasMatches(s: Slot, expected: Claim) {
    s.Live? && s.row.status == StatusClaiming && s.row.claim == Some(expected)
  }

  function CasStatus(claim: Claim): SessionStatus {
    if claim.Reverted? || claim.Failed? then StatusFailed else StatusClaiming
  }

  /** compareAndSetClaim: WHERE Status = 'claiming' AND ClaimData = expected. */
  function CompareAndSetClaim(s: Slot, expected: Claim, claim: Claim): Slot {
    if CasMatches(s, expected) then Live(s.row.(status := CasStatus(claim), claim := Some(claim))) else s
  }

  function FinalizeConfirmedClaim(s: Slot, claim: Claim): Slot {
    if CasMatches(s, claim) then Live(s.row.(status := StatusFinished)) else s
  }

  /** hasUnresolvedClaimLiability for a well-formed claim. */
  predicate UnresolvedLiability(status: SessionStatus, claim: Option<Claim>) {
    match claim
    case None => false
    case Some(Queue(_, _)) => true
    case Some(Prepared(_, _, _)) => true
    case Some(Pending(_, _, _)) => true
    case Some(Confirmed(_, _, _, _, _)) => status != StatusFinished
    case Some(Reverted(_, _, _, _, _, _)) => status != StatusFailed
    case Some(Failed(_, _, _)) => status != StatusFailed
  }

  /** cleanupSessionCandidate on a row read earlier: the DELETE names every column, so it
      fires only while the row still equals the candidate. */
  function CleanupCandidate(s: Slot, candidate: Row): Slot {
    if && (candidate.status == StatusFinished || candidate.status == StatusFailed)
       && !UnresolvedLiability(candidate.status, candidate.claim)
       && s == Live(candidate)
    then Erased(candidate) else s
  }
}
