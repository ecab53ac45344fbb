/** Every statement the daemon, the app and cron send to the shared queue, as a
    function from database to database. One statement is one atomic step. */
module Statements {
  import opened Types

  /** The WHERE clause of every write after a claim. It does not look at paused. */
  predicate Holds(db: Db, id: JobId, token: Token) {
    id in db.jobs && db.jobs[id].token == Some(token) && db.jobs[id].state == Running
  }

  /** The stricter fence of the checkpoint write. */
  predicate Mine(db: Db, id: JobId, token: Token) {
    Holds(db, id, token) && !db.jobs[id].paused
  }

  predicate Claimable(j: Job) {
    && ((j.state == Queued && !j.cancel && !j.stop) || (j.state == Running && j.paused))
    && j.req.take.Some?
  }

  function Rank(p: Priority): nat {
    match p case High => 0 case Normal => 1 case Low => 2
  }

  /** The drain order: priority, queued_at, id. */
  predicate Before(a: Job, i: JobId, b: Job, k: JobId) {
    var ra, rb := Rank(a.req.priority), Rank(b.req.priority);
    ra < rb || (ra == rb && (a.req.queuedAt < b.req.queuedAt || (a.req.queuedAt == b.req.queuedAt && i <= k)))
  }

  predicate Candidate(db: Db, lane: Lane, version: string, locked: set<JobId>, id: JobId) {
    && id in db.jobs && id !in locked
    && Claimable(db.jobs[id])
    && LaneOf(db.jobs[id].req.kind) == lane
    && db.jobs[id].req.version == version
  }

  /** The row ORDER BY … LIMIT 1 FOR UPDATE SKIP LOCKED picks. */
  predicate IsNext(db: Db, lane: Lane, version: string, locked: set<JobId>, id: JobId) {
    && Candidate(db, lane, version, locked, id)
    && forall k | k in db.jobs && Candidate(db, lane, version, locked, k) :: Before(db.jobs[id], id, db.jobs[k], k)
  }

  /** The schema refuses a negative figure; it is stored as not said. */
  function EsrArg(v: Option<real>): Option<real> {
    if v.Some? && v.value >= 0.0 then v else None
  }

  function StrArg(s: string): Option<string> {
    if s == "" then None else Some(s)
  }

  function Positive(v: real): Option<real> {
    if v > 0.0 then Some(v) else None
  }

  /** What an attempt can write once it has claimed a row. */
  datatype Write =
    | SetPgid(pgid: int)
    | Progress(epoch: int, sPerEpoch: real, esr: Option<real>)
    | Epoch(epoch: int, esr: Option<real>, seconds: real)
    | Log(line: string)
    | Put(take: TakeId, last: Pair, best: Option<Pair>)
    | Succeed(result: Result)
    | CloseProbe(verdict: Verdict, esr: Option<real>)
    | CloseFailed(code: ErrorCode, message: string)
    | CloseCancelled
    | Requeue

  datatype Stmt =
    | Held(id: JobId, token: Token, w: Write)
    | Claim(id: JobId, worker: string, instance: string)
    // the app
    | Enqueue(req: Request)
    | AskStop(id: JobId)
    | AskCancel(id: JobId)
    | AppCancel(id: JobId)
    | DropWeights(take: TakeId)
    // cron
    | MarkSilent(id: JobId)

  /** The run's own columns after a held write. */
  function ColumnsAfter(c: Columns, w: Write, cancelled: bool): Columns {
    match w
    case SetPgid(p) => c.(pgid := Some(p))
    case Progress(e, s, v) =>
      c.(epoch := Some(e), sPerEpoch := Positive(s), esr := if EsrArg(v).Some? then EsrArg(v) else c.esr)
    case Succeed(r) =>
      if r.nam == [] then c
      else c.(reached := Some(r.reached), esr := EsrArg(r.esr), pgid := None,
              error := if cancelled then Some(WasCancelled) else None, message := None)
    case CloseProbe(v, e) =>
      c.(verdict := Some(v), esr := EsrArg(e), pgid := None,
         error := if cancelled then Some(WasCancelled) else None, message := None)
    case CloseFailed(code, m) => c.(pgid := None, error := Some(code), message := StrArg(m))
    case CloseCancelled => c.(pgid := None, error := Some(WasCancelled), message := None)
    case Requeue => c.(worker := None, instance := None, pgid := None, epoch := None, sPerEpoch := None)
    case Epoch(_, _, _) => c
    case Log(_) => c
    case Put(_, _, _) => c
  }

  /** The jobs row a held write leaves behind. A success on a row with a cancel on it is
      a cancel. */
  function RowAfter(j: Job, w: Write): Job {
    var cols := ColumnsAfter(j.cols, w, j.cancel);
    match w
    case Succeed(r) =>
      if r.nam == [] then j
      else j.(state := if j.cancel then Cancelled else Succeeded, cols := cols)
    case CloseProbe(_, _) => j.(state := if j.cancel then Cancelled else Succeeded, cols := cols)
    case CloseFailed(_, _) => j.(state := Failed, cols := cols)
    case CloseCancelled => j.(state := Cancelled, cols := cols)
    case Requeue => j.(state := Queued, token := None, stop := false, cols := cols)
    case _ => j.(cols := cols)
  }

  function ClaimedRow(j: Job, worker: string, instance: string, token: Token): Job {
    j.(state := Running, token := Some(token), paused := false,
       cols := j.cols.(worker := Some(worker), instance := Some(instance),
                       epoch := None, sPerEpoch := None, pgid := None))
  }

  function NewRow(req: Request): Job {
    Job(req, false, false, false, Queued, None, Columns(None, None, None, None, None, None, None, None, None, None))
  }

  /** The upsert of PutCheckpoint: the last pair is overwritten, the best pair only
      displaced by an offer that carries a lower figure. */
  function Inserted(id: JobId, token: Token, last: Pair, best: Option<Pair>): Ckpt {
    Ckpt(Some(id), Some(token), last.reached, last.esr, last.sha, last.nam, last.ckpt,
         if best.Some? then Some(best.value.reached) else None,
         if best.Some? then best.value.esr else None,
         if best.Some? then Some(best.value.sha) else None,
         if best.Some? then Some(best.value.nam) else None,
         if best.Some? then Some(best.value.ckpt) else None)
  }

  predicate Displaces(was: Ckpt, excluded: Ckpt) {
    excluded.bestEsr.Some? && (was.bestEsr.None? || excluded.bestEsr.value < was.bestEsr.value)
  }

  function Updated(was: Ckpt, excluded: Ckpt): Ckpt {
    Ckpt(excluded.job, excluded.token, excluded.reached, excluded.esr, excluded.sha, excluded.nam, excluded.ckpt,
         if Displaces(was, excluded) then excluded.bestReached else was.bestReached,
         if Displaces(was, excluded) then excluded.bestEsr else was.bestEsr,
         if Displaces(was, excluded) then excluded.bestSha else was.bestSha,
         if Displaces(was, excluded) then excluded.bestNam else was.bestNam,
         if Displaces(was, excluded) then excluded.bestCkpt else was.bestCkpt)
  }

  function Upsert(was: Option<Ckpt>, excluded: Ckpt): Ckpt {
    if was.Some? then Updated(was.value, excluded) else excluded
  }

  function Lookup<K, V>(m: map<K, V>, k: K): Option<V> {
    if k in m then Some(m[k]) else None
  }

  predicate LiveOn(db: Db, take: TakeId, id: JobId) {
    id in db.jobs && db.jobs[id].req.take == Some(take) && !Terminal(db.jobs[id].state)
  }

  /** Whether a statement finds the one row it updates. */
  predicate Touches(db: Db, s: Stmt) {
    match s
    case Held(id, token, _) => Holds(db, id, token)
    case Claim(id, _, _) => id in db.jobs && Claimable(db.jobs[id])
    case AskStop(id) => id in db.jobs
    case AskCancel(id) => id in db.jobs
    case AppCancel(id) => id in db.jobs && !Terminal(db.jobs[id].state)
    case MarkSilent(id) => id in db.jobs && db.jobs[id].state == Running && !db.jobs[id].paused
    case Enqueue(_) => false
    case DropWeights(_) => false
  }

  /** What it makes of that row. */
  function Touched(j: Job, s: Stmt, minted: Token): Job {
    match s
    case Held(_, _, w) => RowAfter(j, w)
    case Claim(_, worker, instance) => ClaimedRow(j, worker, instance, minted)
    case AskStop(_) => j.(stop := true)
    case AskCancel(_) => j.(cancel := true)
    case AppCancel(_) => j.(state := Cancelled)
    case MarkSilent(_) => j.(paused := true)
    case Enqueue(_) => j
    case DropWeights(_) => j
  }

  /** jobs_one_live: a second live job on a take is refused. */
  predicate Admitted(db: Db, req: Request) {
    req.take.Some? ==> forall k | k in db.jobs :: !LiveOn(db, req.take.value, k)
  }

  function JobsAfter(db: Db, s: Stmt): map<JobId, Job> {
    if Touches(db, s) then db.jobs[s.id := Touched(db.jobs[s.id], s, db.nextToken)]
    else if s.Enqueue? && Admitted(db, s.req) then db.jobs[db.nextJob := NewRow(s.req)]
    else db.jobs
  }

  function CkptsAfter(db: Db, s: Stmt): map<TakeId, Ckpt> {
    if s.DropWeights? then db.ckpts - {s.take}
    else if s.Held? && s.w.Put? && Mine(db, s.id, s.token) then
      db.ckpts[s.w.take := Upsert(Lookup(db.ckpts, s.w.take), Inserted(s.id, s.token, s.w.last, s.w.best))]
    else db.ckpts
  }

  function ResultsAfter(db: Db, s: Stmt): map<JobId, ResultRow> {
    if s.Held? && s.w.Succeed? && Holds(db, s.id, s.token) && s.w.result.nam != [] && !db.jobs[s.id].cancel then
      var r := s.w.result;
      db.results[s.id := ResultRow(s.token, ShaOf(r.nam), r.nam, r.reached, EsrArg(r.esr))]
    else db.results
  }

  function EpochsAfter(db: Db, s: Stmt): map<(JobId, int), EpochRow> {
    if s.Held? && s.w.Epoch? && Holds(db, s.id, s.token)
    then db.epochs[(s.id, s.w.epoch) := EpochRow(s.token, EsrArg(s.w.esr), Positive(s.w.seconds))]
    else db.epochs
  }

  function LogAfter(db: Db, s: Stmt): seq<LogLine> {
    if s.Held? && s.w.Log? && Holds(db, s.id, s.token)
    then db.log + [LogLine(s.id, s.token, s.w.line)]
    else db.log
  }

  function Exec(db: Db, s: Stmt): Db {
    Db(JobsAfter(db, s), CkptsAfter(db, s), ResultsAfter(db, s), EpochsAfter(db, s), LogAfter(db, s),
       if s.Enqueue? && Admitted(db, s.req) then db.nextJob + 1 else db.nextJob,
       if s.Claim? && Touches(db, s) then db.nextToken + 1 else db.nextToken)
  }

  function Run(db: Db, ss: seq<Stmt>): Db
    decreases |ss|
  {
    if ss == [] then db else Run(Exec(db, ss[0]), ss[1..])
  }

  /** What the checkpoint write answers. */
  function AnswerTo(db: Db, id: JobId, token: Token): Answer {
    if Mine(db, id, token) then Answer(true, db.jobs[id].stop, db.jobs[id].cancel)
    else Answer(false, false, false)
  }
}
