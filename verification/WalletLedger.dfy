/** The wallet balances of src/eth/EthWalletManager.ts: reservations at maximum cost, settlement
    at actual cost, reloads, and the next nonce. Signing, parsing and RPC are not part of it. */
module WalletLedger {
  import opened Wrappers

  datatype Reservation = Reservation(nonce: nat, faucetAmount: nat, maximumFee: nat)

  datatype Outcome = Transferred | RevertedTx

  /** The cost of a live reservation, in the faucet's coin and in the native coin. In native
      mode the two are the same coin. */
  function FaucetCost(r: Reservation, token: bool): nat { r.faucetAmount + if token then 0 else r.maximumFee }

  function NativeCost(r: Reservation, token: bool): nat { r.maximumFee + if token then 0 else r.faucetAmount }

  /** What a settled claim has really cost: amount and fee when transferred, the fee when reverted. */
  function FaucetSpent(r: Reservation, o: Outcome, fee: nat, token: bool): nat {
    (if o.Transferred? then r.faucetAmount else 0) + if token then 0 else fee
  }

  function NativeSpent(r: Reservation, o: Outcome, fee: nat, token: bool): nat {
    fee + if token || o.RevertedTx? then 0 else r.faucetAmount
  }

  ghost function SumFaucet(m: map<string, Reservation>, token: bool): nat
    decreases |m|
  {
    if m == map[] then 0 else
      var h :| h in m;
      FaucetCost(m[h], token) + SumFaucet(m - {h}, token)
  }

  ghost function SumNative(m: map<string, Reservation>, token: bool): nat
    decreases |m|
  {
    if m == map[] then 0 else
      var h :| h in m;
      NativeCost(m[h], token) + SumNative(m - {h}, token)
  }

  lemma {:induction false} SumFaucetSplit(m: map<string, Reservation>, h: string, token: bool)
    requires h in m
    ensures SumFaucet(m, token) == FaucetCost(m[h], token) + SumFaucet(m - {h}, token)
    decreases |m|
  {
    var j :| j in m && SumFaucet(m, token) == FaucetCost(m[j], token) + SumFaucet(m - {j}, token);
    if j != h {
      SumFaucetSplit(m - {j}, h, token);
      SumFaucetSplit(m - {h}, j, token);
      assert (m - {j}) - {h} == (m - {h}) - {j};
    }
  }

  lemma {:induction false} SumNativeSplit(m: map<string, Reservation>, h: string, token: bool)
    requires h in m
    ensures SumNative(m, token) == NativeCost(m[h], token) + SumNative(m - {h}, token)
    decreases |m|
  {
    var j :| j in m && SumNative(m, token) == NativeCost(m[j], token) + SumNative(m - {j}, token);
    if j != h {
      SumNativeSplit(m - {j}, h, token);
      SumNativeSplit(m - {h}, j, token);
      assert (m - {j}) - {h} == (m - {h}) - {j};
    }
  }

  lemma SumsAdd(m: map<string, Reservation>, h: string, r: Reservation, token: bool)
    requires h !in m
    ensures SumFaucet(m[h := r], token) == SumFaucet(m, token) + FaucetCost(r, token)
    ensures SumNative(m[h := r], token) == SumNative(m, token) + NativeCost(r, token)
  {
    SumFaucetSplit(m[h := r], h, token);
    SumNativeSplit(m[h := r], h, token);
    assert m[h := r] - {h} == m;
  }

  function Max(a: nat, b: nat): nat { if a < b then b else a }

  /** What the chain said at a reload; the token balance is asked for in token mode only. */
  datatype Loaded = Loaded(faucet: int, native: int, nonce: nat)

  class EthWalletManager {
    const token: bool
    const spareFunds: int
    var ready: bool
    var balance: int
    var nativeBalance: int
    var nonce: nat
    var reservedClaims: map<string, Reservation>
    /** History: the last load, and what was settled and paid in fees since. */
    ghost var loaded: Loaded
    ghost var spentFaucet: int
    ghost var spentNative: int

    /** While ready: balance = last loaded - live reservations at maximum cost - settled costs
        since, and the next nonce is above every live reservation's. In native mode the two
        balances are one. */
    ghost predicate Valid()
      reads this
    {
      && (!token ==> balance == nativeBalance)
      && (ready ==>
        && balance == loaded.faucet - SumFaucet(reservedClaims, token) - spentFaucet
        && nativeBalance == loaded.native - SumNative(reservedClaims, token) - spentNative
        && nonce >= loaded.nonce
        && (forall h :: h in reservedClaims ==> reservedClaims[h].nonce < nonce))
    }

    constructor (token: bool, spareFunds: int)
      ensures Valid() && !ready && reservedClaims == map[] && this.token == token && this.spareFunds == spareFunds
    {
      this.token, this.spareFunds := token, spareFunds;
      ready, balance, nativeBalance, nonce, reservedClaims := false, 0, 0, 0, map[];
      loaded, spentFaucet, spentNative := Loaded(0, 0, 0), 0, 0;
    }

    /** loadWalletState with the answers of the RPC; None when they could not be had. */
    method LoadWalletState(answer: Option<Loaded>)
      requires Valid()
      modifies this
      ensures Valid() && ready == answer.Some? && reservedClaims == old(reservedClaims)
      ensures ready ==> loaded == answer.value.(faucet := if token then answer.value.faucet else answer.value.native)
      ensures ready ==> spentFaucet == 0 && spentNative == 0
      ensures !ready ==> balance == 0 && nativeBalance == 0 && nonce == 0
    {
      if answer.None? {
        ready, balance, nativeBalance, nonce := false, 0, 0, 0;
        return;
      }
      ready, balance := true, if token then answer.value.faucet else answer.value.native;
      nativeBalance, nonce := answer.value.native, answer.value.nonce;
      loaded, spentFaucet, spentNative := answer.value.(faucet := balance), 0, 0;
      ReapplyReservations();
    }

    /** The equation for the reservations done so far. */
    ghost predicate Applied(done: map<string, Reservation>)
      reads this
    {
      && (!token ==> balance == nativeBalance)
      && balance == loaded.faucet - SumFaucet(done, token) && nativeBalance == loaded.native - SumNative(done, token)
      && nonce >= loaded.nonce && forall h :: h in done ==> done[h].nonce < nonce
    }

    method ReapplyReservations()
      requires Applied(map[])
      modifies this`balance, this`nativeBalance, this`nonce
      ensures Applied(reservedClaims)
    {
      ghost var done: map<string, Reservation> := map[];
      var todo := reservedClaims.Keys;
      while todo != {}
        invariant todo <= reservedClaims.Keys && Applied(done)
        invariant done == map h | h in reservedClaims && h !in todo :: reservedClaims[h]
        decreases todo
      {
        var h :| h in todo;
        todo := todo - {h};
        ReapplyOne(h, done);
        done := done[h := reservedClaims[h]];
      }
      assert done == reservedClaims;
    }

    method ReapplyOne(h: string, ghost done: map<string, Reservation>)
      requires Applied(done) && h in reservedClaims && h !in done
      modifies this`balance, this`nativeBalance, this`nonce
      ensures Applied(done[h := reservedClaims[h]])
    {
      SumsAdd(done, h, reservedClaims[h], token);
      nonce := Max(nonce, reservedClaims[h].nonce + 1);
      ApplyClaimReservation(reservedClaims[h], -1);
    }

    /** applyClaimReservation. */
    method ApplyClaimReservation(r: Reservation, direction: int)
      requires direction == 1 || direction == -1
      modifies this`balance, this`nativeBalance
      ensures balance == old(balance) + direction * FaucetCost(r, token)
      ensures nativeBalance == old(nativeBalance) + direction * NativeCost(r, token)
    {
      balance := balance + direction * r.faucetAmount;
      nativeBalance := nativeBalance + direction * r.maximumFee;
      if token { return; }
      balance := balance + direction * r.maximumFee;
      nativeBalance := nativeBalance + direction * r.faucetAmount;
    }

    /** The nonce prepareClaimTx signs with. */
    method PrepareNonce() returns (n: nat)
      requires Valid()
      ensures n == nonce
      ensures ready ==> forall h :: h in reservedClaims ==> reservedClaims[h].nonce < n
    {
      n := nonce;
    }

    method CanReserveClaimTx(r: Reservation) returns (ok: bool)
      requires Valid()
      ensures ok <==> balance - FaucetCost(r, token) >= spareFunds && nativeBalance - NativeCost(r, token) >= 0
    {
      var faucetCost := r.faucetAmount + if token then 0 else r.maximumFee;
      var nativeCost := r.maximumFee + if token then 0 else r.faucetAmount;
      ok := balance - spareFunds >= faucetCost && nativeBalance >= nativeCost;
    }

    /** reserveClaimTx: a second reservation of the same transaction changes nothing. */
    method ReserveClaimTx(hash: string, r: Reservation)
      requires Valid()
      modifies this`balance, this`nativeBalance, this`nonce, this`reservedClaims
      ensures Valid()
      ensures hash in old(reservedClaims) ==>
                reservedClaims == old(reservedClaims) && balance == old(balance) && nativeBalance == old(nativeBalance) && nonce == old(nonce)
      ensures hash !in old(reservedClaims) ==>
                && reservedClaims == old(reservedClaims)[hash := r] && nonce == Max(old(nonce), r.nonce + 1)
                && balance == old(balance) - FaucetCost(r, token) && nativeBalance == old(nativeBalance) - NativeCost(r, token)
    {
      if hash in reservedClaims { return; }
      SumsAdd(reservedClaims, hash, r, token);
      reservedClaims := reservedClaims[hash := r];
      nonce := Max(nonce, r.nonce + 1);
      ApplyClaimReservation(r, -1);
    }

    /** cancelClaimTx: undoes a reservation; the nonce stays used. */
    method CancelClaimTx(hash: string)
      requires Valid()
      modifies this`balance, this`nativeBalance, this`reservedClaims
      ensures Valid() && reservedClaims == old(reservedClaims) - {hash}
      ensures hash !in old(reservedClaims) ==> balance == old(balance) && nativeBalance == old(nativeBalance)
      ensures hash in old(reservedClaims) ==>
                && balance == old(balance) + FaucetCost(old(reservedClaims)[hash], token)
                && nativeBalance == old(nativeBalance) + NativeCost(old(reservedClaims)[hash], token)
    {
      if hash !in reservedClaims { return; }
      var r := reservedClaims[hash];
      SumFaucetSplit(reservedClaims, hash, token);
      SumNativeSplit(reservedClaims, hash, token);
      reservedClaims := reservedClaims - {hash};
      ApplyClaimReservation(r, 1);
    }

    /** releaseClaimTx: the reservation is replaced by what the transaction really cost; a second
        release changes nothing. */
    method ReleaseClaimTx(hash: string, outcome: Outcome, fee: int) returns (ok: bool)
      requires Valid()
      modifies this`balance, this`nativeBalance, this`reservedClaims, this`spentFaucet, this`spentNative
      ensures Valid() && ok == (fee >= 0)
      ensures reservedClaims == if ok then old(reservedClaims) - {hash} else old(reservedClaims)
      ensures !ok || hash !in old(reservedClaims) ==> balance == old(balance) && nativeBalance == old(nativeBalance)
      ensures ok && hash in old(reservedClaims) ==>
                var r := old(reservedClaims)[hash];
                && balance == old(balance) + FaucetCost(r, token) - FaucetSpent(r, outcome, fee, token)
                && nativeBalance == old(nativeBalance) + NativeCost(r, token) - NativeSpent(r, outcome, fee, token)
                && spentFaucet == old(spentFaucet) + FaucetSpent(r, outcome, fee, token)
                && spentNative == old(spentNative) + NativeSpent(r, outcome, fee, token)
    {
      if fee < 0 { return false; }
      ok := true;
      if hash !in reservedClaims { return; }
      var r := reservedClaims[hash];
      SumFaucetSplit(reservedClaims, hash, token);
      SumNativeSplit(reservedClaims, hash, token);
      reservedClaims := reservedClaims - {hash};
      var feeAdjustment := r.maximumFee - fee;
      nativeBalance := nativeBalance + feeAdjustment;
      if token {
        if outcome.RevertedTx? { balance := balance + r.faucetAmount; }
      } else {
        balance := balance + feeAdjustment;
        if outcome.RevertedTx? {
          balance := balance + r.faucetAmount;
          nativeBalance := nativeBalance + r.faucetAmount;
        }
      }
      spentFaucet := spentFaucet + FaucetSpent(r, outcome, fee, token);
      spentNative := spentNative + NativeSpent(r, outcome, fee, token);
    }

    /** sendCustomTx: the nonce moves when the transaction was sent. */
    method CustomTxSent()
      requires Valid()
      modifies this`nonce
      ensures Valid() && nonce == old(nonce) + 1
    {
      nonce := nonce + 1;
    }

    /** And its fee is taken when its receipt arrives. */
    method CustomTxReceipt(fee: nat)
      requires Valid()
      modifies this`balance, this`nativeBalance, this`spentFaucet, this`spentNative
      ensures Valid()
      ensures nativeBalance == old(nativeBalance) - fee && balance == old(balance) - if token then 0 else fee
    {
      nativeBalance := nativeBalance - fee;
      if !token { balance := balance - fee; }
      spentNative := spentNative + fee;
      spentFaucet := spentFaucet + if token then 0 else fee;
    }
  }

  datatype Operation =
    | Load(answer: Option<Loaded>)
    | Reserve(hash: string, r: Reservation)
    | Cancel(hash: string)
    | Settle(hash: string, outcome: Outcome, fee: int)
    | CustomSent
    | CustomReceipt(paid: nat)

  method Perform(w: EthWalletManager, op: Operation)
    requires w.Valid()
    modifies w
    ensures w.Valid()
  {
    match op
    case Load(answer) => w.LoadWalletState(answer);
    case Reserve(hash, r) => w.ReserveClaimTx(hash, r);
    case Cancel(hash) => w.CancelClaimTx(hash);
    case Settle(hash, outcome, fee) => var _ := w.ReleaseClaimTx(hash, outcome, fee);
    case CustomSent => w.CustomTxSent();
    case CustomReceipt(paid) => w.CustomTxReceipt(paid);
  }

  /** After any sequence of operations both balance equations hold while the wallet is ready, in
      native and in token mode; and in native mode the two balances never part. */
  method RunOperations(token: bool, spareFunds: int, ops: seq<Operation>) returns (w: EthWalletManager)
    ensures fresh(w) && w.Valid() && w.token == token
    ensures w.ready ==> w.balance == w.loaded.faucet - SumFaucet(w.reservedClaims, token) - w.spentFaucet
    ensures w.ready ==> w.nativeBalance == w.loaded.native - SumNative(w.reservedClaims, token) - w.spentNative
    ensures !token ==> w.balance == w.nativeBalance
  {
    w := new EthWalletManager(token, spareFunds);
    for i := 0 to |ops|
      invariant fresh(w) && w.Valid() && w.token == token
    {
      Perform(w, ops[i]);
    }
  }
}
