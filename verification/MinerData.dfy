/** The mining client (faucet-client/src/pow/PoWMiner.ts, faucet-client/src/pow/PoWSession.ts,
    faucet-client/src/worker/PoWWorker.ts): messages, states, and what each handler does to
    them. A fractional hash-rate limit makes range sizes fractional, so nonces are reals. */
module MinerData {
  import opened Wrappers

  /** The worker checks first, first + 1, ... up to the first value not below last. */
  datatype Range = Range(first: real, last: real)

  datatype Up = Init | NonceFound(nonce: real, params: string) | Stats(last: real, nonces: real)

  datatype Down = SetWork(start: real, count: real, params: string) | AddRange(start: real, count: real) | SetParams(params: string)

  datatype Share = Share(nonce: real, params: string)

  /** A worker thread and its outgoing channel. Before setWork it does not work. */
  datatype Worker = Worker(working: bool, ranges: seq<Range>, workNonce: real, params: string, up: seq<Up>)

  /** The miner's record of a worker and the channel to it; incarnation is history. */
  datatype Handle = Handle(incarnation: nat, ready: bool, lastNonce: real, down: seq<Down>)

  /** PoWSession: the next unassigned nonce, the share queue, and, as history, every share
      submitted to it and every share sent to the server. */
  datatype Session = Session(lastNonce: real, shareQueue: seq<Share>, submitted: seq<Share>, sent: seq<Share>)

  /** limit is the configured hash-rate limit, target the prefill target, and statsTimer tells
      whether generateMinerStats is scheduled. */
  datatype Miner = Miner(handles: seq<Handle>, queue: seq<real>, lastSave: Option<real>, params: string, limit: real, session: Session,
                         target: nat, statsTimer: bool)

  const FIRST_TARGET: nat := 200
  const LEAST_TARGET: nat := 20

  const FRESH_WORKER := Worker(false, [], 0.0, "", [Init])

  // ------------------------------------------------------------------ PoWWorker

  function RangeOf(start: real, count: real): Range { Range(start, start + count - 1.0) }

  /** onControlMessage. */
  function Receive(w: Worker, d: Down): Worker {
    match d
    case SetWork(start, count, p) => w.(working := true, params := p, ranges := [RangeOf(start, count)], workNonce := start)
    case AddRange(start, count) =>
      w.(ranges := w.ranges + [RangeOf(start, count)], workNonce := if |w.ranges| == 0 then start else w.workNonce)
    case SetParams(p) => w.(params := p)
  }

  /** work: check one nonce, post it when found. */
  function Work(w: Worker, found: bool): Worker {
    if |w.ranges| == 0 then w
    else
      var nonce := w.workNonce;
      var moved :=
        if nonce >= w.ranges[0].last then
          w.(ranges := w.ranges[1..], workNonce := if |w.ranges| > 1 then w.ranges[1].first else nonce + 1.0)
        else w.(workNonce := nonce + 1.0);
      if found then moved.(up := w.up + [NonceFound(nonce, w.params)]) else moved
  }

  function Counts(rs: seq<Range>): real
    decreases |rs|
  {
    if rs == [] then 0.0 else rs[0].last - rs[0].first + 1.0 + Counts(rs[1..])
  }

  /** collectStats. */
  function CollectStats(w: Worker): Worker {
    w.(up := w.up + [Stats(w.workNonce, if |w.ranges| == 0 then 0.0 else w.ranges[0].last - w.workNonce + Counts(w.ranges[1..]))])
  }

  // ------------------------------------------------------------------ PoWSession

  /** getNonceRange returns s.lastNonce. */
  function TakeRange(s: Session, count: real): Session { s.(lastNonce := s.lastNonce + count) }

  function SubmitShare(s: Session, share: Share): Session {
    s.(shareQueue := s.shareQueue + [share], submitted := s.submitted + [share])
  }

  function SubmitAll(s: Session, nonces: seq<real>, params: string): Session
    decreases |nonces|
  {
    if nonces == [] then s else SubmitAll(SubmitShare(s, Share(nonces[0], params)), nonces[1..], params)
  }

  /** One turn of the queue loop: a single request is in flight at a time. */
  function SendShare(s: Session): Session {
    if s.shareQueue == [] then s else s.(sent := s.sent + [s.shareQueue[0]], shareQueue := s.shareQueue[1..])
  }

  function WithoutParams(q: seq<Share>, params: string): seq<Share>
    decreases |q|
  {
    if q == [] then []
    else (if q[0].params == params then [] else [q[0]]) + WithoutParams(q[1..], params)
  }

  /** The reaction to INVALID_SHARE / Invalid share params. */
  function RejectParams(s: Session, params: string): Session { s.(shareQueue := WithoutParams(s.shareQueue, params)) }

  // ------------------------------------------------------------------ PoWMiner

  /** getLimitedNonceRefillCount. */
  function LimitedRefill(requested: real, limit: real, age: int, lastNonce: real): (r: real)
    ensures requested > 0.0 ==> 0.0 < r
    ensures limit > 0.0 && age > 1 && requested > 0.0 ==> r <= 1.0 || lastNonce + r <= (age + 4) as real * limit
  {
    if limit <= 0.0 || age <= 1 then requested
    else
      var nonceCount := (age + 4) as real * limit - lastNonce;
      if nonceCount <= 0.0 then (if requested > 0.0 then 1.0 else 0.0)
      else if requested > nonceCount then nonceCount else requested
  }

  function Post(m: Miner, i: nat, d: Down): Miner
    requires i < |m.handles|
  {
    m.(handles := m.handles[i := m.handles[i].(down := m.handles[i].down + [d])])
  }

  function InitialRefill(m: Miner, age: int): real {
    var r := LimitedRefill(m.target as real, m.limit, age, m.session.lastNonce);
    if r == 0.0 then 1.0 else r
  }

  /** onWorkerInit: age is the session age in seconds. */
  function OnInit(m: Miner, i: nat, age: int): Miner
    requires i < |m.handles|
  {
    var start := m.session.lastNonce;
    var refill := InitialRefill(m, age);
    var h := m.handles[i].(ready := true, lastNonce := start);
    Post(m.(handles := m.handles[i := h], session := TakeRange(m.session, refill)), i, SetWork(start, refill, m.params))
  }

  /** The position where an arriving nonce is spliced in. */
  function InsertAt(queue: seq<real>, n: real): (k: nat)
    ensures k <= |queue|
    decreases |queue|
  {
    if queue == [] || n <= queue[0] then 0 else 1 + InsertAt(queue[1..], n)
  }

  function Insert(queue: seq<real>, n: real): seq<real> {
    queue[..InsertAt(queue, n)] + [n] + queue[InsertAt(queue, n)..]
  }

  /** onWorkerNonce. */
  function OnNonce(m: Miner, i: nat, n: real, p: string): Miner
    requires i < |m.handles|
  {
    if p != m.params then m
    else ProcessQueue(m.(handles := m.handles[i := m.handles[i].(lastNonce := n)], queue := Insert(m.queue, n)))
  }

  /** onWorkerStats. */
  function OnStats(m: Miner, i: nat, last: real, nonces: real, age: int): Miner
    requires i < |m.handles|
  {
    var m1 := m.(handles := m.handles[i := m.handles[i].(lastNonce := last)]);
    var refill := LimitedRefill(m.target as real - nonces, m.limit, age, m.session.lastNonce);
    var m2 := if nonces < m.target as real && refill > 0.0
              then Post(m1.(session := TakeRange(m1.session, refill)), i, AddRange(m1.session.lastNonce, refill)) else m1;
    ProcessQueue(m2).(statsTimer := true)
  }

  /** generateMinerStats, as far as the prefill target goes: a rate, if there is one, gives any
      value from LEAST_TARGET on. Rates come from ready workers. */
  predicate MayTarget(m: Miner, target: nat) {
    target == m.target || (target >= LEAST_TARGET && exists i :: 0 <= i < |m.handles| && m.handles[i].ready)
  }

  function OnStatsTimer(m: Miner, target: nat): Miner { m.(target := target, statsTimer := false) }

  /** The smallest lastNonce of the ready workers. */
  function Watermark(hs: seq<Handle>): Option<real>
    decreases |hs|
  {
    if hs == [] then None
    else
      var rest := Watermark(hs[..|hs| - 1]);
      var h := hs[|hs| - 1];
      if h.ready && (rest.None? || h.lastNonce < rest.value) then Some(h.lastNonce) else rest
  }

  /** How many queue entries, from the front, are not above the watermark. */
  function SafeCount(queue: seq<real>, save: real): (k: nat)
    ensures k <= |queue|
    decreases |queue|
  {
    if queue == [] || queue[0] > save then 0 else 1 + SafeCount(queue[1..], save)
  }

  /** processNonceQueue. */
  function ProcessQueue(m: Miner): Miner {
    var save := Watermark(m.handles);
    if save.None? || m.lastSave == save then m
    else
      var k := SafeCount(m.queue, save.value);
      m.(lastSave := save, queue := m.queue[k..], session := SubmitAll(m.session, m.queue[..k], m.params))
  }

  /** startWorker of a mining worker. */
  function StartWorker(m: Miner, incarnation: nat): Miner {
    m.(handles := m.handles + [Handle(incarnation, false, 0.0, [])])
  }

  /** stopWorker. */
  function StopWorker(m: Miner): Miner {
    if |m.handles| == 0 then m else ProcessQueue(m.(handles := m.handles[..|m.handles| - 1]))
  }

  function StopAll(m: Miner): Miner
    decreases |m.handles|
  {
    if |m.handles| == 0 then m
    else
      StopWorkerSize(m);
      StopAll(StopWorker(m))
  }

  lemma StopWorkerSize(m: Miner)
    requires |m.handles| > 0
    ensures |StopWorker(m).handles| == |m.handles| - 1
  {}

  /** The setParams message to one worker. */
  function Notified(h: Handle, p: string): Handle { if h.ready then h.(down := h.down + [SetParams(p)]) else h }

  /** setPoWParams with the same algorithm; a change of algorithm restarts the workers instead. */
  function ChangeParams(m: Miner, p: string): Miner {
    m.(params := p, queue := [], handles := seq(|m.handles|, i requires 0 <= i < |m.handles| => Notified(m.handles[i], p)))
  }
}
