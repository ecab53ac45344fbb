/** The vocabulary of the shared queue: the closed lists of the schema, the row a
    job is, the weights a take carries, and the database made of them. */
module Types {

  datatype Option<+T> = None | Some(value: T)

  newtype Byte = x: int | 0 <= x < 256

  type Blob = seq<Byte>
  type JobId = nat
  type TakeId = nat
  type Token = nat

  /** A sha256 as an injective tag of the bytes it was taken of. */
  datatype Sha = ShaOf(content: Blob)

  datatype Kind = Train | TrainMore | ProbeSelf
  datatype Lane = TrainLane | ProbeLane
  datatype State = Queued | Running | Succeeded | Failed | Cancelled
  datatype Priority = High | Normal | Low
  datatype Verdict = Pass | Fail

  datatype ErrorCode =
    | TrainFailed | ResumeFailed | Stalled | NoVerdict | StopFailed | Scratch | SpawnFailed
    | MaterializeFailed | WavInvalid | TakeGone | SignalMismatch | BaseUnavailable | WasCancelled

  /** The schema's generated lane column. */
  function LaneOf(k: Kind): Lane {
    if k.ProbeSelf? then ProbeLane else TrainLane
  }

  predicate Terminal(s: State) {
    s.Succeeded? || s.Failed? || s.Cancelled?
  }

  /** What the app writes when it queues a job; frozen from then on. */
  datatype Request = Request(
    take: Option<TakeId>, kind: Kind, epochs: nat,
    priority: Priority, queuedAt: int, version: string)

  /** What the run writes on its row and nothing else reads. */
  datatype Columns = Columns(
    worker: Option<string>, instance: Option<string>,
    pgid: Option<int>, epoch: Option<int>, sPerEpoch: Option<real>, esr: Option<real>,
    reached: Option<int>, verdict: Option<Verdict>,
    error: Option<ErrorCode>, message: Option<string>)

  /** A row of jobs: the request, the asks on it, cron's mark for a task gone silent,
      and the run. */
  datatype Job = Job(
    req: Request,
    stop: bool, cancel: bool, paused: bool,
    state: State, token: Option<Token>, cols: Columns)

  /** One checkpoint on its way to the library: the pair of files of one epoch. */
  datatype Pair = Pair(reached: int, esr: Option<real>, nam: Blob, ckpt: Blob, sha: Sha)

  /** A row of take_checkpoint: one per take. The five best columns are separate
      nullable columns, exactly as the table has them. */
  datatype Ckpt = Ckpt(
    job: Option<JobId>, token: Option<Token>,
    reached: int, esr: Option<real>, sha: Sha, nam: Blob, ckpt: Blob,
    bestReached: Option<int>, bestEsr: Option<real>, bestSha: Option<Sha>,
    bestNam: Option<Blob>, bestCkpt: Option<Blob>)

  datatype Result = Result(reached: int, esr: Option<real>, nam: Blob)

  datatype ResultRow = ResultRow(token: Token, sha: Sha, nam: Blob, epochs: int, esr: Option<real>)

  datatype EpochRow = EpochRow(token: Token, esr: Option<real>, seconds: Option<real>)

  datatype LogLine = LogLine(job: JobId, token: Token, line: string)

  datatype Db = Db(
    jobs: map<JobId, Job>,
    ckpts: map<TakeId, Ckpt>,
    results: map<JobId, ResultRow>,
    epochs: map<(JobId, int), EpochRow>,
    log: seq<LogLine>,
    nextJob: JobId,
    nextToken: Token)

  /** What PutCheckpoint answers: the run's only control channel. */
  datatype Answer = Answer(mine: bool, stop: bool, cancel: bool)
}
