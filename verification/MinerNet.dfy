/** The whole mining client: one miner, its workers and the channels between them, with any
    interleaving and any message delays. */
module MinerNet {
  import opened Wrappers
  import opened MinerData

  /** History: a range handed to a worker, [first, end). */
  datatype Grant = Grant(first: real, end: real, incarnation: nat)

  /** workers[i] belongs to miner.handles[i]. born, grants, checked and found are history. */
  datatype Net = Net(miner: Miner, workers: seq<Worker>, born: nat, grants: seq<Grant>, checked: seq<real>,
                     found: set<(real, string)>)

  /** What happens without interruption is made of these moves. */
  datatype Move =
    | Start
    | Stop
    | Read(i: nat, age: int)
    | Obey(i: nat)
    | Check(i: nat, hit: bool)
    | Tell(i: nat)
    | Timer(target: nat)
    | Params(params: string)
    | Algorithm(params: string)
    | Send
    | Reject(params: string)

  predicate CanMove(n: Net, e: Move) {
    match e
    case Read(i, _) => i < |n.workers| == |n.miner.handles| && |n.workers[i].up| > 0
    case Obey(i) => i < |n.workers| == |n.miner.handles| && |n.miner.handles[i].down| > 0
    case Check(i, _) => i < |n.workers| && n.workers[i].working && |n.workers[i].ranges| > 0
    case Tell(i) => i < |n.workers| && n.workers[i].working
    case Timer(target) => n.miner.statsTimer && MayTarget(n.miner, target)
    case _ => |n.workers| == |n.miner.handles|
  }

  /** The miner's reaction to the oldest message of worker i. */
  function React(m: Miner, i: nat, u: Up, age: int): Miner
    requires i < |m.handles|
  {
    match u
    case Init => OnInit(m, i, age)
    case NonceFound(x, p) => OnNonce(m, i, x, p)
    case Stats(last, nonces) => OnStats(m, i, last, nonces, age)
  }

  function Granted(grants: seq<Grant>, before: real, after: real, incarnation: nat): seq<Grant> {
    if before < after then grants + [Grant(before, after, incarnation)] else grants
  }

  function Moved(n: Net, e: Move): Net
    requires CanMove(n, e)
  {
    match e
    case Start => n.(miner := StartWorker(n.miner, n.born), workers := n.workers + [FRESH_WORKER], born := n.born + 1)
    case Stop =>
      if |n.workers| == 0 then n
      else n.(miner := StopWorker(n.miner), workers := n.workers[..|n.workers| - 1])
    case Read(i, age) =>
      var m := React(n.miner, i, n.workers[i].up[0], age);
      n.(miner := m, workers := n.workers[i := n.workers[i].(up := n.workers[i].up[1..])],
         grants := Granted(n.grants, n.miner.session.lastNonce, m.session.lastNonce, n.miner.handles[i].incarnation))
    case Obey(i) =>
      var h := n.miner.handles[i];
      n.(miner := n.miner.(handles := n.miner.handles[i := h.(down := h.down[1..])]),
         workers := n.workers[i := Receive(n.workers[i], h.down[0])])
    case Check(i, hit) =>
      var w := n.workers[i];
      n.(workers := n.workers[i := Work(w, hit)], checked := n.checked + [w.workNonce],
         found := if hit then n.found + {(w.workNonce, w.params)} else n.found)
    case Tell(i) => n.(workers := n.workers[i := CollectStats(n.workers[i])])
    case Timer(target) => n.(miner := OnStatsTimer(n.miner, target))
    case Params(p) => n.(miner := ChangeParams(n.miner, p))
    case Algorithm(p) => n.(miner := n.miner.(params := p, queue := []))
    case Send => n.(miner := n.miner.(session := SendShare(n.miner.session)))
    case Reject(p) => n.(miner := n.miner.(session := RejectParams(n.miner.session, p)))
  }

  // ------------------------------------------------------------------ turns

  /** One turn of an event loop. A worker checks nonces in batches of BATCH, the first one in the
      turn that reads setWork, and reports only between batches; hits tells which checks of a
      batch succeed. A change of algorithm is NewAlgorithm followed by StopOne and StartOne
      events. */
  datatype Event =
    | StartOne
    | StopOne
    | MinerReads(i: nat, age: int)
    | WorkerReads(i: nat, hits: seq<bool>)
    | Batch(i: nat, hits: seq<bool>)
    | Report(i: nat)
    | StatsTimer(target: nat)
    | NewParams(params: string)
    | NewAlgorithm(params: string)
    | SendNext
    | Rejected(params: string)

  const BATCH: nat := 8

  /** The move that a turn starts with; a batch has none of its own. */
  function MoveOf(e: Event): Option<Move> {
    match e
    case StartOne => Some(Start)
    case StopOne => Some(Stop)
    case MinerReads(i, age) => Some(Read(i, age))
    case WorkerReads(i, _) => Some(Obey(i))
    case Batch(_, _) => None
    case Report(i) => Some(Tell(i))
    case StatsTimer(target) => Some(Timer(target))
    case NewParams(p) => Some(Params(p))
    case NewAlgorithm(p) => Some(Algorithm(p))
    case SendNext => Some(Send)
    case Rejected(p) => Some(Reject(p))
  }

  predicate Enabled(n: Net, e: Event) {
    && (MoveOf(e).Some? ==> CanMove(n, MoveOf(e).value))
    && (e.Batch? ==> e.i < |n.workers| && n.workers[e.i].working)
    && (e.Batch? || e.WorkerReads? ==> |e.hits| == BATCH)
  }

  /** The checks of a batch; without ranges a check does nothing. */
  function Checks(n: Net, i: nat, hits: seq<bool>): Net
    requires i < |n.workers| && n.workers[i].working
    decreases |hits|
  {
    if hits == [] || |n.workers[i].ranges| == 0 then n
    else Checks(Moved(n, Check(i, hits[0])), i, hits[1..])
  }

  function Apply(n: Net, e: Event): Net
    requires Enabled(n, e)
  {
    if e.Batch? then Checks(n, e.i, e.hits)
    else
      var r := Moved(n, MoveOf(e).value);
      if e.WorkerReads? && n.miner.handles[e.i].down[0].SetWork? then Checks(r, e.i, e.hits) else r
  }

  // ------------------------------------------------------------------ streams

  function Unchecked(w: Worker): seq<Range> {
    if |w.ranges| == 0 then [] else [Range(w.workNonce, w.ranges[0].last)] + w.ranges[1..]
  }

  function Part(d: Down): seq<Range> { if d.SetParams? then [] else [RangeOf(d.start, d.count)] }

  function DownRanges(down: seq<Down>): seq<Range>
    decreases |down|
  {
    if down == [] then [] else Part(down[0]) + DownRanges(down[1..])
  }

  /** What worker w of handle h has still to check, oldest first. */
  function Stream(h: Handle, w: Worker): seq<Range> { Unchecked(w) + DownRanges(h.down) }

  lemma {:induction false} DownAppend(down: seq<Down>, d: Down)
    ensures DownRanges(down + [d]) == DownRanges(down) + Part(d)
    decreases |down|
  {
    if down == [] {
      assert down + [d] == [d];
      assert DownRanges([d]) == Part(d) + DownRanges([]);
    } else {
      assert (down + [d])[1..] == down[1..] + [d];
      DownAppend(down[1..], d);
    }
  }

  predicate Ascending(rs: seq<Range>) {
    && (forall k :: 0 <= k < |rs| ==> rs[k].first < rs[k].last + 1.0)
    && (forall j, k :: 0 <= j < k < |rs| ==> rs[j].last + 1.0 <= rs[k].first)
  }

  predicate InGrant(g: Grant, x: real, incarnation: nat) { g.incarnation == incarnation && g.first <= x < g.end }

  /** x lies in a range handed to the given incarnation. */
  predicate Owned(grants: seq<Grant>, x: real, incarnation: nat) {
    exists k :: 0 <= k < |grants| && InGrant(grants[k], x, incarnation)
  }

  predicate RangeIn(g: Grant, r: Range, incarnation: nat) {
    g.incarnation == incarnation && g.first <= r.first && r.last + 1.0 <= g.end
  }

  predicate OwnedRange(grants: seq<Grant>, r: Range, incarnation: nat) {
    exists k :: 0 <= k < |grants| && RangeIn(grants[k], r, incarnation)
  }

  predicate Disjoint(grants: seq<Grant>, next: real) {
    && (forall k :: 0 <= k < |grants| ==> grants[k].first < grants[k].end <= next)
    && (forall j, k :: 0 <= j < k < |grants| ==> grants[j].end <= grants[k].first)
  }

  lemma OwnerUnique(grants: seq<Grant>, next: real, x: real, a: nat, b: nat)
    requires Disjoint(grants, next) && Owned(grants, x, a) && Owned(grants, x, b)
    ensures a == b && x < next
  {}

  // ------------------------------------------------------------------ base invariant

  /** The life of one worker: init, then setWork, then work; what it has to check ascends and
      was handed to it. */
  ghost predicate SeatOk(h: Handle, w: Worker, grants: seq<Grant>) {
    && (!h.ready ==> w == FRESH_WORKER && h.down == [])
    && (h.ready && !w.working ==> w.up == [] && w.ranges == [] && |h.down| > 0 && h.down[0].SetWork?)
    && (forall k :: 0 <= k < |h.down| && h.down[k].SetWork? ==> k == 0 && !w.working)
    && (h.ready ==> Init !in w.up)
    && Ascending(Stream(h, w))
    && AllOwned(grants, Stream(h, w), h.incarnation)
  }

  predicate AllOwned(grants: seq<Grant>, rs: seq<Range>, incarnation: nat) {
    forall k :: 0 <= k < |rs| ==> OwnedRange(grants, rs[k], incarnation)
  }

  predicate AllAfter(rs: seq<Range>, x: real) { forall k :: 0 <= k < |rs| ==> x < rs[k].first }

  /** x lies before everything the worker has still to check. */
  predicate Before(h: Handle, w: Worker, x: real) { AllAfter(Stream(h, w), x) }

  ghost predicate OwnedChecked(n: Net, c: real)
    requires |n.workers| == |n.miner.handles|
  {
    && (exists a: nat :: Owned(n.grants, c, a))
    && forall i :: 0 <= i < |n.workers| && Owned(n.grants, c, n.miner.handles[i].incarnation) ==> Before(n.miner.handles[i], n.workers[i], c)
  }

  predicate NoDuplicates(s: seq<real>) { forall j, k :: 0 <= j < k < |s| ==> s[j] != s[k] }

  ghost predicate Base(n: Net) {
    && |n.workers| == |n.miner.handles| && n.miner.target >= LEAST_TARGET
    && Disjoint(n.grants, n.miner.session.lastNonce)
    && (forall k :: 0 <= k < |n.grants| ==> n.grants[k].incarnation < n.born)
    && (forall i :: 0 <= i < |n.workers| ==> n.miner.handles[i].incarnation < n.born)
    && (forall i, j :: 0 <= i < j < |n.workers| ==> n.miner.handles[i].incarnation != n.miner.handles[j].incarnation)
    && (forall i :: 0 <= i < |n.workers| ==> SeatOk(n.miner.handles[i], n.workers[i], n.grants))
    && NoDuplicates(n.checked)
    && forall c :: c in n.checked ==> OwnedChecked(n, c)
  }
}
