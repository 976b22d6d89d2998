/** The mining client's classes, with the fields their methods update, each proved to do what
    MinerData says. */
module MinerClient {
  import opened Wrappers
  import opened MinerData
  import opened MinerNet

  lemma {:induction false} CountsSplit(rs: seq<Range>, k: nat)
    requires k < |rs|
    ensures Counts(rs[..k + 1]) == Counts(rs[..k]) + rs[k].last - rs[k].first + 1.0
    decreases k
  {
    if k == 0 {
      assert rs[..1] == [rs[0]] && rs[..0] == [] && [rs[0]][1..] == [];
    } else {
      CountsSplit(rs[1..], k - 1);
      assert rs[..k + 1][1..] == rs[1..][..k] && rs[..k][1..] == rs[1..][..k - 1];
    }
  }

  /** One check after another. */
  function WorkAll(w: Worker, hits: seq<bool>): Worker
    decreases |hits|
  {
    if hits == [] then w else WorkAll(Work(w, hits[0]), hits[1..])
  }

  lemma {:induction false} WorkAllSplit(w: Worker, hits: seq<bool>, k: nat)
    requires k < |hits|
    ensures WorkAll(w, hits[..k + 1]) == Work(WorkAll(w, hits[..k]), hits[k])
    decreases k
  {
    if k == 0 {
      assert hits[..1] == [hits[0]] && hits[..0] == [] && [hits[0]][1..] == [];
    } else {
      WorkAllSplit(Work(w, hits[0]), hits[1..], k - 1);
      assert hits[..k + 1][1..] == hits[1..][..k] && hits[..k][1..] == hits[1..][..k - 1];
    }
  }

  /** Without ranges a check does nothing. */
  lemma {:induction false} WorkAllIdle(w: Worker, hits: seq<bool>)
    requires w.ranges == []
    ensures WorkAll(w, hits) == w
    decreases |hits|
  {
    if hits != [] { WorkAllIdle(w, hits[1..]); }
  }

  /** A batch of the whole client is, for its worker, one check after another; the others stand still. */
  lemma {:induction false} ChecksAreWork(n: Net, i: nat, hits: seq<bool>)
    requires i < |n.workers| && n.workers[i].working
    ensures Checks(n, i, hits).workers == n.workers[i := WorkAll(n.workers[i], hits)]
    ensures Checks(n, i, hits).miner == n.miner
    decreases |hits|
  {
    if hits == [] {
    } else if |n.workers[i].ranges| == 0 {
      WorkAllIdle(n.workers[i], hits);
    } else {
      ChecksAreWork(Moved(n, Check(i, hits[0])), i, hits[1..]);
    }
  }

  class PoWWorker {
    var working: bool
    var nonceRanges: seq<Range>
    var workNonce: real
    var params: string
    var posted: seq<Up>

    ghost function View(): Worker
      reads this
    {
      Worker(working, nonceRanges, workNonce, params, posted)
    }

    constructor ()
      ensures View() == FRESH_WORKER
    {
      working, nonceRanges, workNonce, params, posted := false, [], 0.0, "", [Init];
    }

    method OnControlMessage(d: Down)
      modifies this
      ensures View() == Receive(old(View()), d)
    {
      match d
      case SetWork(start, count, p) =>
        params := p;
        nonceRanges := [Range(start, start + count - 1.0)];
        workNonce := start;
        working := true;
      case AddRange(start, count) =>
        nonceRanges := nonceRanges + [Range(start, start + count - 1.0)];
        if |nonceRanges| == 1 { workNonce := start; }
      case SetParams(p) =>
        params := p;
    }

    method CollectStats()
      modifies this`posted
      ensures View() == MinerData.CollectStats(old(View()))
    {
      var nonces := 0.0;
      if |nonceRanges| > 0 {
        nonces := nonces + nonceRanges[0].last - workNonce;
        ghost var rest := nonceRanges[1..];
        assert rest[..0] == [];
        for i := 1 to |nonceRanges|
          invariant nonces == nonceRanges[0].last - workNonce + Counts(rest[..i - 1]) && posted == old(posted)
        {
          CountsSplit(rest, i - 1);
          nonces := nonces + (nonceRanges[i].last - nonceRanges[i].first + 1.0);
        }
        assert rest[..|rest|] == rest;
      }
      posted := posted + [Stats(workNonce, nonces)];
    }

    /** found is the outcome of the hash check. */
    method CheckNext(found: bool)
      modifies this`nonceRanges, this`workNonce, this`posted
      ensures View() == Work(old(View()), found)
    {
      var rangeCount := |nonceRanges|;
      if rangeCount == 0 { return; }
      var nonce := workNonce;
      workNonce := workNonce + 1.0;
      if nonce >= nonceRanges[0].last {
        nonceRanges := nonceRanges[1..];
        if rangeCount != 1 { workNonce := nonceRanges[0].first; }
      }
      if found { posted := posted + [NonceFound(nonce, params)]; }
    }

    /** One turn of workLoop while the worker works; found[i] is the outcome of check i. */
    method WorkLoop(found: seq<bool>)
      requires |found| == BATCH
      modifies this`nonceRanges, this`workNonce, this`posted
      ensures View() == WorkAll(old(View()), found)
    {
      for i := 0 to BATCH
        invariant View() == WorkAll(old(View()), found[..i])
      {
        WorkAllSplit(old(View()), found, i);
        CheckNext(found[i]);
      }
      assert found[..BATCH] == found;
    }
  }

  lemma {:induction false} WithoutParamsSplit(q: seq<Share>, k: nat, p: string)
    requires k < |q|
    ensures WithoutParams(q[..k + 1], p) == WithoutParams(q[..k], p) + (if q[k].params == p then [] else [q[k]])
    decreases k
  {
    if k == 0 {
      assert q[..1] == [q[0]] && q[..0] == [] && [q[0]][1..] == [];
    } else {
      WithoutParamsSplit(q[1..], k - 1, p);
      assert q[..k + 1][1..] == q[1..][..k] && q[..k][1..] == q[1..][..k - 1];
    }
  }

  class PoWSession {
    var lastNonce: real
    var shareQueue: seq<Share>
    ghost var submitted: seq<Share>
    ghost var sent: seq<Share>

    ghost function View(): Session
      reads this
    {
      Session(lastNonce, shareQueue, submitted, sent)
    }

    constructor (resumed: int)
      ensures View() == Session((resumed + 1) as real, [], [], [])
    {
      lastNonce, shareQueue, submitted, sent := (resumed + 1) as real, [], [], [];
    }

    method GetNonceRange(count: real) returns (noncePos: real)
      modifies this`lastNonce
      ensures noncePos == old(lastNonce) && View() == TakeRange(old(View()), count)
    {
      noncePos := lastNonce;
      lastNonce := lastNonce + count;
    }

    method SubmitShare(share: Share)
      modifies this`shareQueue, this`submitted
      ensures View() == MinerData.SubmitShare(old(View()), share)
    {
      shareQueue := shareQueue + [share];
      submitted := submitted + [share];
    }

    /** One turn of processShareQueue with the client ready and no request in flight. */
    method SendNext()
      modifies this`shareQueue, this`sent
      ensures View() == SendShare(old(View()))
    {
      if |shareQueue| > 0 {
        sent := sent + [shareQueue[0]];
        shareQueue := shareQueue[1..];
      }
    }

    /** The filter after INVALID_SHARE / Invalid share params. */
    method DropParams(p: string)
      modifies this`shareQueue
      ensures View() == RejectParams(old(View()), p)
    {
      var kept: seq<Share> := [];
      assert shareQueue[..0] == [];
      for i := 0 to |shareQueue|
        invariant shareQueue == old(shareQueue) && kept == WithoutParams(shareQueue[..i], p)
      {
        WithoutParamsSplit(shareQueue, i, p);
        if shareQueue[i].params != p { kept := kept + [shareQueue[i]]; }
      }
      assert shareQueue[..|shareQueue|] == shareQueue;
      shareQueue := kept;
    }
  }

  lemma {:induction false} InsertAtReached(queue: seq<real>, x: real, k: nat)
    requires k <= |queue| && (forall j :: 0 <= j < k ==> x > queue[j]) && (k < |queue| ==> x <= queue[k])
    ensures InsertAt(queue, x) == k
    decreases |queue|
  {
    if k > 0 {
      assert forall j :: 0 <= j < k - 1 ==> queue[1..][j] == queue[j + 1];
      InsertAtReached(queue[1..], x, k - 1);
    }
  }

  lemma {:induction false} SafeCountReached(queue: seq<real>, save: real, k: nat)
    requires k <= |queue| && (forall j :: 0 <= j < k ==> queue[j] <= save) && (k < |queue| ==> queue[k] > save)
    ensures SafeCount(queue, save) == k
    decreases |queue|
  {
    if k > 0 {
      assert forall j :: 0 <= j < k - 1 ==> queue[1..][j] == queue[j + 1];
      SafeCountReached(queue[1..], save, k - 1);
    }
  }

  function StartMany(m: Miner, born: nat, count: nat): Miner
    decreases count
  {
    if count == 0 then m else StartMany(StartWorker(m, born), born + 1, count - 1)
  }

  /** stopWorker until at most count workers are left. */
  function StopDownTo(m: Miner, count: nat): Miner
    decreases |m.handles|
  {
    if |m.handles| <= count then m
    else
      StopWorkerSize(m);
      StopDownTo(StopWorker(m), count)
  }

  /** startStopWorkers: stop the newest workers, or start new ones, until there are count. */
  function Resize(m: Miner, born: nat, count: nat): Miner {
    var r := StopDownTo(m, count);
    if |r.handles| < count then StartMany(r, born, count - |r.handles|) else r
  }

  class PoWMiner {
    const session: PoWSession
    const limit: real
    var workers: seq<Handle>
    var params: string
    var nonceQueue: seq<real>
    var lastSaveNonce: Option<real>
    var started: nat
    var targetNoncePrefill: nat
    var updateStatsTimer: bool

    ghost function View(): Miner
      reads this, session
    {
      Miner(workers, nonceQueue, lastSaveNonce, params, limit, session.View(), targetNoncePrefill, updateStatsTimer)
    }

    constructor (session: PoWSession, limit: real, params: string)
      ensures this.session == session && this.limit == limit && started == 0
      ensures View() == Miner([], [], None, params, limit, session.View(), FIRST_TARGET, false)
    {
      this.session, this.limit, this.params := session, limit, params;
      workers, nonceQueue, lastSaveNonce, started := [], [], None, 0;
      targetNoncePrefill, updateStatsTimer := FIRST_TARGET, false;
    }

    method PostMessage(i: nat, d: Down)
      requires i < |workers|
      modifies this`workers
      ensures workers == old(workers)[i := old(workers)[i].(down := old(workers)[i].down + [d])]
    {
      workers := workers[i := workers[i].(down := workers[i].down + [d])];
    }

    method OnWorkerInit(i: nat, age: int)
      requires i < |workers|
      modifies this`workers, session`lastNonce
      ensures View() == OnInit(old(View()), i, age)
    {
      workers := workers[i := workers[i].(ready := true)];
      var refillCount := LimitedRefill(targetNoncePrefill as real, limit, age, session.lastNonce);
      if refillCount == 0.0 { refillCount := 1.0; }
      var nonceRange := session.GetNonceRange(refillCount);
      workers := workers[i := workers[i].(lastNonce := nonceRange)];
      PostMessage(i, SetWork(nonceRange, refillCount, params));
    }

    method OnWorkerNonce(i: nat, nonce: real, nonceParams: string)
      requires i < |workers|
      modifies this`workers, this`nonceQueue, this`lastSaveNonce, session`shareQueue, session`submitted
      ensures View() == OnNonce(old(View()), i, nonce, nonceParams)
    {
      if nonceParams != params { return; }
      workers := workers[i := workers[i].(lastNonce := nonce)];
      var insertIdx := 0;
      var queueLen := |nonceQueue|;
      while insertIdx < queueLen && nonce > nonceQueue[insertIdx]
        invariant 0 <= insertIdx <= queueLen
        invariant forall j :: 0 <= j < insertIdx ==> nonce > nonceQueue[j]
      {
        insertIdx := insertIdx + 1;
      }
      InsertAtReached(nonceQueue, nonce, insertIdx);
      nonceQueue := nonceQueue[..insertIdx] + [nonce] + nonceQueue[insertIdx..];
      ProcessNonceQueue();
    }

    method OnWorkerStats(i: nat, last: real, nonces: real, age: int)
      requires i < |workers|
      modifies this`workers, this`nonceQueue, this`lastSaveNonce, this`updateStatsTimer, session`lastNonce, session`shareQueue,
               session`submitted
      ensures View() == OnStats(old(View()), i, last, nonces, age)
    {
      hide LimitedRefill, ProcessQueue;
      workers := workers[i := workers[i].(lastNonce := last)];
      if nonces < targetNoncePrefill as real {
        var refill := LimitedRefill(targetNoncePrefill as real - nonces, limit, age, session.lastNonce);
        if refill > 0.0 {
          var start := session.GetNonceRange(refill);
          PostMessage(i, AddRange(start, refill));
        }
      }
      ProcessNonceQueue();
      if !updateStatsTimer { updateStatsTimer := true; }
    }

    /** The timer's callback; hashRate is the sum over the ready workers. Each is to be given the
        nonces of four seconds, but not fewer than LEAST_TARGET. */
    method GenerateMinerStats(hashRate: real)
      requires hashRate > 0.0 ==> exists i :: 0 <= i < |workers| && workers[i].ready
      modifies this`targetNoncePrefill, this`updateStatsTimer
      ensures View() == OnStatsTimer(old(View()), targetNoncePrefill) && MayTarget(old(View()), targetNoncePrefill)
      ensures hashRate <= 0.0 ==> targetNoncePrefill == old(targetNoncePrefill)
      ensures hashRate > 0.0 ==>
                && targetNoncePrefill >= LEAST_TARGET && hashRate * 4.0 / |workers| as real <= targetNoncePrefill as real
                && (targetNoncePrefill > LEAST_TARGET ==> (targetNoncePrefill - 1) as real < hashRate * 4.0 / |workers| as real)
    {
      updateStatsTimer := false;
      if hashRate > 0.0 {
        var each := hashRate * 4.0 / |workers| as real;
        var ceil := -(-each).Floor;
        targetNoncePrefill := if ceil < LEAST_TARGET then LEAST_TARGET else ceil;
      }
    }

    method ProcessNonceQueue()
      modifies this`nonceQueue, this`lastSaveNonce, session`shareQueue, session`submitted
      ensures View() == ProcessQueue(old(View()))
    {
      var saveNonce := LowestNonce();
      if saveNonce.None? || lastSaveNonce == saveNonce { return; }
      lastSaveNonce := saveNonce;
      var saveNonces := 0;
      var queueLen := |nonceQueue|;
      while saveNonces < queueLen && nonceQueue[saveNonces] <= saveNonce.value
        invariant 0 <= saveNonces <= queueLen
        invariant forall j :: 0 <= j < saveNonces ==> nonceQueue[j] <= saveNonce.value
      {
        saveNonces := saveNonces + 1;
      }
      SafeCountReached(nonceQueue, saveNonce.value, saveNonces);
      SubmitLowest(saveNonces);
    }

    method LowestNonce() returns (saveNonce: Option<real>)
      ensures saveNonce == Watermark(workers)
    {
      saveNonce := None;
      assert workers[..0] == [];
      for i := 0 to |workers|
        invariant saveNonce == Watermark(workers[..i])
      {
        assert workers[..i + 1][..i] == workers[..i];
        if workers[i].ready && (saveNonce.None? || workers[i].lastNonce < saveNonce.value) {
          saveNonce := Some(workers[i].lastNonce);
        }
      }
      assert workers[..|workers|] == workers;
    }

    /** The submission loop: the lowest count entries leave the queue one by one. */
    method SubmitLowest(count: nat)
      requires count <= |nonceQueue|
      modifies this`nonceQueue, session`shareQueue, session`submitted
      ensures nonceQueue == old(nonceQueue)[count..]
      ensures session.View() == SubmitAll(old(session.View()), old(nonceQueue)[..count], params)
    {
      ghost var all, start := nonceQueue, session.View();
      var saveNonces := count;
      while saveNonces >= 1
        invariant 0 <= saveNonces <= count && nonceQueue == all[count - saveNonces..]
        invariant SubmitAll(session.View(), all[count - saveNonces..count], params) == SubmitAll(start, all[..count], params)
        invariant session.lastNonce == old(session.lastNonce) && session.sent == old(session.sent)
      {
        ghost var before, todo := session.View(), all[count - saveNonces..count];
        var share := Share(nonceQueue[0], params);
        nonceQueue := nonceQueue[1..];
        saveNonces := saveNonces - 1;
        session.SubmitShare(share);
        assert todo[0] == share.nonce && todo[1..] == all[count - saveNonces..count];
      }
    }

    method StopOneWorker()
      modifies this`workers, this`nonceQueue, this`lastSaveNonce, session`shareQueue, session`submitted
      ensures View() == StopWorker(old(View()))
    {
      if |workers| == 0 { return; }
      workers := workers[..|workers| - 1];
      ProcessNonceQueue();
    }

    method StopAllWorker()
      modifies this`workers, this`nonceQueue, this`lastSaveNonce, session`shareQueue, session`submitted
      ensures View() == StopAll(old(View()))
    {
      while |workers| > 0
        invariant StopAll(View()) == StopAll(old(View()))
        decreases |workers|
      {
        StopWorkerSize(View());
        StopOneWorker();
      }
    }

    method StartStopWorkers(workerCount: nat)
      modifies this`workers, this`nonceQueue, this`lastSaveNonce, this`started, session`shareQueue, session`submitted
      ensures View() == Resize(old(View()), old(started), workerCount)
    {
      while |workers| > workerCount
        invariant StopDownTo(View(), workerCount) == StopDownTo(old(View()), workerCount) && started == old(started)
        decreases |workers|
      {
        StopWorkerSize(View());
        StopOneWorker();
      }
      assert View() == StopDownTo(old(View()), workerCount);
      while |workers| < workerCount
        invariant |workers| <= workerCount || |workers| == |StopDownTo(old(View()), workerCount).handles|
        invariant |workers| < workerCount ==>
                    StartMany(View(), started, workerCount - |workers|) == Resize(old(View()), old(started), workerCount)
        invariant |workers| >= workerCount ==> View() == Resize(old(View()), old(started), workerCount)
        decreases workerCount - |workers|
      {
        workers := workers + [Handle(started, false, 0.0, [])];
        started := started + 1;
      }
    }

    /** setPoWParams; newAlgorithm tells whether the hash algorithm differs. */
    method SetPoWParams(p: string, newAlgorithm: bool, workerCount: nat)
      modifies this`workers, this`params, this`nonceQueue, this`lastSaveNonce, this`started, session`shareQueue, session`submitted
      ensures View() == if p == old(params) then old(View())
                        else if !newAlgorithm then ChangeParams(old(View()), p)
                        else Resize(StopAll(old(View()).(params := p, queue := [])), old(started), workerCount)
    {
      if params == p { return; }
      params := p;
      nonceQueue := [];
      if newAlgorithm {
        StopAllWorker();
        StartStopWorkers(workerCount);
      } else {
        for i := 0 to |workers|
          invariant |workers| == |old(workers)| && params == p && nonceQueue == [] && lastSaveNonce == old(lastSaveNonce)
          invariant session.View() == old(session.View())
          invariant forall j :: 0 <= j < i ==> workers[j] == Notified(old(workers)[j], p)
          invariant forall j :: i <= j < |workers| ==> workers[j] == old(workers)[j]
        {
          if workers[i].ready { PostMessage(i, SetParams(p)); }
        }
        assert workers == seq(|old(workers)|, i requires 0 <= i < |old(workers)| => Notified(old(workers)[i], p));
      }
    }
  }
}
