/** The attempt: what one daemon does with one claim, from the claim to the terminal
    write, as a machine whose every step sends at most one statement to the library.
    Any number of attempts of any number of daemons run side by side with the app and cron. */
module Attempts {
  import opened Types
  import opened Statements
  import TakeWeights

  datatype Reason = ByCancel | ByStall | ByVerdict | ByShutdown | ByPause | ByStop | ByLost

  /** How a child ended, and what its output had said by then. */
  datatype Exit = Exit(clean: bool, verdict: Option<Verdict>, probeEsr: Option<real>, sawEpoch: bool)

  /** A pair of files the trainer of some attempt wrote. */
  datatype Weights = Weights(reached: int, nam: Blob, ckpt: Blob)

  /** Such a pair under a best name, which carries the figure it was best by. */
  datatype Named = Named(w: Weights, figure: real)

  /** What a saver look takes off the disk: a checkpoint that opens and a model that
      parses, so neither is empty. */
  predicate Whole(w: Weights) {
    w.nam != [] && w.ckpt != []
  }

  /** A figure on the trainer's output: of one epoch, or of the exported model. */
  datatype Figure = OfEpoch(job: JobId, epoch: int, esr: real) | OfModel(job: JobId, esr: real)

  datatype Phase =
    | Claimed
    | AskRead(own: Option<Ckpt>)
    | Ready(resume: Option<Blob>)
    | Doomed(code: ErrorCode)
    | Alive
    | Reaped(exit: Exit)
    | Harvested(own: Option<Ckpt>)
    | Exporting
    | Over

  /** How far the saver has got with a look: it takes what the reader last told it, then
      reads the disk, then finds the figure of the pair it read, then writes. */
  datatype Looking =
    | Resting
    | Took(told: Option<(int, real)>)
    | Found(told: Option<(int, real)>, w: Weights, beside: Option<Pair>)
    | Bearing(last: Pair, best: Option<Pair>)

  datatype Attempt = Attempt(
    job: JobId,
    row: Job,                       // the row as the claim returned it
    claimedAt: nat,                 // how many statements had run when the claim was made
    phase: Phase,
    spawned: bool, resume: Option<Blob>,
    readAt: nat,                    // how many statements had run when the take's weights were read
    made: set<Weights>,             // everything this attempt's trainer wrote
    bests: set<Named>,              // and what of it stood under a best name
    model: Option<Weights>,         // the exported model, if the driver got that far
    modelEsr: Option<real>,
    reason: Option<Reason>,         // the first kill reason recorded
    parsed: Option<(int, real)>,    // an epoch figure read off the output, not yet recorded
    heard: Option<(int, real)>,     // what the reader last told the saver
    look: Looking,
    sent: Option<Sha>,              // the last best pair an answer was heard about
    answer: Option<Answer>)

  datatype Sys = Sys(init: Db, stmts: seq<Stmt>, db: Db, attempts: map<Token, Attempt>, printed: set<Figure>)

  /** The fortune of an ending: whether the file or row it needs can be read, and whether
      the exported pair reaches the library. */
  datatype Io = Io(readable: bool, lands: bool)

  /** One step of one attempt. */
  datatype Move =
    | CloseAskedCancel
    | ReadAsk(readable: bool)
    | CloseAskedStop
    | Materialize(failure: Option<ErrorCode>)
    | FailNow(message: string)
    | Spawn(ok: bool)
    | RecordPgid(pgid: int)
    | Chatter(said: Write)
    | PrintEpoch(epoch: int, esr: real)
    | RecordParsed(seconds: real, lands: bool)
    | PrintModel(esr: real)
    | Save(w: Weights)
    | SaveBest(b: Named)
    | ExportModel(nam: Blob, ckpt: Blob)
    | TakeFigure
    | ReadDisk(w: Weights, best: Option<Named>)
    | Attribute(known: bool)
    | PutLook(heard: bool)
    | LoseLook
    | Obey
    | Kill(why: Reason)
    | Reap(exit: Exit)
    | Classify(io: Io, message: string)
    | Conclude(io: Io, message: string)
    | File
    | Crash

  datatype Step =
    | Outside(s: Stmt)
    | Claims(id: JobId, worker: string, instance: string)
    | Takes(t: Token, m: Move)

  function PairOf(w: Weights, esr: Option<real>): Pair {
    Pair(w.reached, esr, w.nam, w.ckpt, ShaOf(w.nam))
  }

  /** A best pair is offered under its name's figure, if that is positive. */
  function BestPair(b: Named): Pair {
    PairOf(b.w, Positive(b.figure))
  }

  /** Where classify goes before it looks at the library. */
  datatype Plan = Silence | WriteCancelled | PutBack | GiveVerdict(v: Verdict)
    | FailWith(code: ErrorCode) | Natural | Harvest

  function PlanOf(kind: Kind, reason: Option<Reason>, exit: Exit, exported: bool): Plan {
    if reason == Some(ByLost) then Silence
    else if reason == Some(ByCancel) then WriteCancelled
    else if (reason == Some(ByShutdown) || (reason == Some(ByPause) && kind == ProbeSelf)) && !exit.clean then PutBack
    else if kind == ProbeSelf then
      if exit.verdict.Some? then GiveVerdict(exit.verdict.value)
      else if reason == Some(ByStall) then FailWith(Stalled)
      else FailWith(NoVerdict)
    else if exit.clean && exported then Natural
    else if reason == Some(ByStop) || reason == Some(ByPause) then Harvest
    else if reason == Some(ByStall) then FailWith(Stalled)
    else if kind == TrainMore && !exit.sawEpoch then FailWith(ResumeFailed)
    else FailWith(TrainFailed)
  }

  /** When each ending is chosen. A clean restart never fails an in-flight job; a finished
      run is never thrown away by a stop, a pause, a stall or a restart; a probe keeps
      nothing to harvest. */
  lemma ClassifyPromises(kind: Kind, reason: Option<Reason>, exit: Exit, exported: bool)
    ensures var p := PlanOf(kind, reason, exit, exported);
            var heard := reason == Some(ByLost) || reason == Some(ByCancel);
            var finished := kind != ProbeSelf && exit.clean && exported;
            && (p == Silence <==> reason == Some(ByLost))
            && (p == WriteCancelled <==> reason == Some(ByCancel))
            && (p == PutBack <==>
                  !exit.clean && (reason == Some(ByShutdown) || (reason == Some(ByPause) && kind == ProbeSelf)))
            && (p == Natural <==> finished && !heard)
            && (p == Harvest <==> kind != ProbeSelf && !finished && (reason == Some(ByStop) || reason == Some(ByPause)))
            && (p.GiveVerdict? <==> kind == ProbeSelf && exit.verdict.Some? && !heard && p != PutBack)
            && (p.GiveVerdict? ==> exit.verdict == Some(p.v))
            && (p == FailWith(Stalled) <==>
                  reason == Some(ByStall) && !finished && !(kind == ProbeSelf && exit.verdict.Some?))
            && (p == FailWith(ResumeFailed) ==> kind == TrainMore && !exit.sawEpoch)
  {
  }

  /** The take's weights as this job's own: the row says which run put them there. */
  function OwnRow(db: Db, a: Attempt, readable: bool): Option<Ckpt>
    requires a.row.req.take.Some?
  {
    var c := Lookup(db.ckpts, a.row.req.take.value);
    if readable && c.Some? && c.value.job == Some(a.job) then c else None
  }

  /** The kill and its first-reason-sticks rule; a reaped attempt no longer listens. */
  function Killed(a: Attempt, why: Reason): Attempt {
    if a.phase == Alive && a.reason.None? then a.(reason := Some(why)) else a
  }

  function Heeded(a: Attempt, v: Answer): Attempt {
    if !v.mine then Killed(a, ByLost)
    else if v.cancel then Killed(a, ByCancel)
    else if v.stop then Killed(a, ByStop)
    else a
  }

  /** The figure the saver stores beside a pair: the one the reader told it when that is of
      this very epoch, else the recorded one, if it can be read. */
  function FigureFor(db: Db, id: JobId, told: Option<(int, real)>, reached: int, known: bool): Option<real> {
    if told.Some? && told.value.0 == reached - 1 then Some(told.value.1)
    else if known && (id, reached - 1) in db.epochs then db.epochs[(id, reached - 1)].esr
    else None
  }

  function ResultOf(c: Ckpt): Result {
    Result(c.reached, c.esr, c.nam)
  }

  predicate CanMove(a: Attempt, m: Move) {
    match m
    case CloseAskedCancel => a.phase == Claimed && a.row.cancel
    case ReadAsk(_) => a.phase == Claimed && !a.row.cancel && a.row.stop
    case CloseAskedStop => a.phase.AskRead?
    case Materialize(_) => a.phase == Claimed && !a.row.cancel && !a.row.stop
    case FailNow(_) => a.phase.Doomed?
    case Spawn(_) => a.phase.Ready?
    case RecordPgid(_) => a.phase == Alive
    case Chatter(w) => a.spawned && (w.Progress? || w.Log?)
    case PrintEpoch(_, _) => a.phase == Alive && a.parsed.None?
    case RecordParsed(_, _) => a.parsed.Some?
    case PrintModel(_) => a.phase == Alive
    case Save(_) => a.phase == Alive
    case SaveBest(_) => a.phase == Alive
    // an empty model file counts as no model at all
    case ExportModel(nam, _) => a.phase == Alive && nam != []
    case TakeFigure => a.spawned && a.look.Resting? && a.row.req.kind != ProbeSelf
    case ReadDisk(w, best) =>
      && a.look.Took? && w in a.made && Whole(w)
      && (best.Some? ==> best.value in a.bests && Whole(best.value.w))
    case Attribute(_) => a.look.Found?
    case PutLook(_) => a.look.Bearing?
    case LoseLook => !a.look.Resting?
    case Obey => a.answer.Some?
    case Kill(why) =>
      a.phase == Alive && (why == ByStall || why == ByVerdict || why == ByShutdown || why == ByPause)
    case Reap(_) => a.phase == Alive
    case Classify(_, _) => a.phase.Reaped?
    case Conclude(_, _) => a.phase.Harvested?
    case File => a.phase == Exporting && a.model.Some?
    case Crash => true
  }

  function PlanFor(a: Attempt): Plan
    requires a.phase.Reaped?
  {
    PlanOf(a.row.req.kind, a.reason, a.phase.exit, a.model.Some?)
  }

  /** The natural finish: the exported pair goes to the take, if there is one and the write
      gets through, then the result is filed either way. */
  function ExportWrite(a: Attempt, io: Io, message: string): Option<Write>
    requires a.model.Some? && a.row.req.take.Some?
  {
    if !io.readable then Some(CloseFailed(TrainFailed, message))
    else if a.model.value.ckpt == [] || !io.lands then None
    else Some(Put(a.row.req.take.value, PairOf(a.model.value, a.modelEsr), None))
  }

  function ClassifyWrite(a: Attempt, io: Io, message: string): Option<Write>
    requires a.phase.Reaped? && a.row.req.take.Some?
  {
    match PlanFor(a)
    case Silence => None
    case WriteCancelled => Some(CloseCancelled)
    case PutBack => Some(Requeue)
    case GiveVerdict(v) => Some(CloseProbe(v, a.phase.exit.probeEsr))
    case FailWith(code) => Some(CloseFailed(code, message))
    case Natural => if a.model.Some? then ExportWrite(a, io, message) else None
    case Harvest => None
  }

  /** An early stop keeps what the library holds of this very run; a pause with nothing
      to keep goes back to the queue. */
  function ConcludeWrite(a: Attempt, io: Io, message: string): Option<Write>
    requires a.phase.Harvested? && a.row.req.take.Some?
  {
    if a.phase.own.Some? then Some(Succeed(ResultOf(a.phase.own.value)))
    else if a.model.Some? then ExportWrite(a, io, message)
    else if a.reason == Some(ByPause) then Some(Requeue)
    else Some(CloseFailed(StopFailed, message))
  }

  /** The one write a move sends under its claim, if it sends any. */
  function WriteOf(a: Attempt, m: Move): Option<Write>
    requires CanMove(a, m) && a.row.req.take.Some?
  {
    match m
    case CloseAskedCancel => Some(CloseCancelled)
    case CloseAskedStop =>
      if a.phase.own.Some? then Some(Succeed(ResultOf(a.phase.own.value)))
      else Some(CloseFailed(StopFailed, "stopped while paused with nothing kept"))
    case FailNow(msg) => Some(CloseFailed(a.phase.code, msg))
    case RecordPgid(p) => Some(SetPgid(p))
    case Chatter(w) => Some(w)
    case RecordParsed(secs, lands) =>
      if lands then Some(Epoch(a.parsed.value.0, Some(a.parsed.value.1), secs)) else None
    case PutLook(_) =>
      Some(Put(a.row.req.take.value, a.look.last, TakeWeights.Thin(a.look.best, a.sent)))
    case Classify(io, msg) => ClassifyWrite(a, io, msg)
    case Conclude(io, msg) => ConcludeWrite(a, io, msg)
    case File => Some(Succeed(Result(a.row.req.epochs, a.modelEsr, a.model.value.nam)))
    case _ => None
  }

  function NewAttempt(id: JobId, row: Job, now: nat): Attempt {
    Attempt(id, row, now, Claimed, false, None, 0, {}, {}, None, None, None, None, None, Resting, None, None)
  }

  /** What materialize makes of the take's weights. A continuation with none to continue
      from does not run from scratch. */
  function Materialized(db: Db, a: Attempt): Phase
    requires a.row.req.take.Some?
  {
    var c := Lookup(db.ckpts, a.row.req.take.value);
    if LaneOf(a.row.req.kind) == TrainLane && c.Some? then Ready(Some(c.value.ckpt))
    else if a.row.req.kind == TrainMore then Doomed(BaseUnavailable)
    else Ready(None)
  }

  /** What a move makes of the attempt. `now` is the number of statements run so far. */
  function Moved(db: Db, now: nat, t: Token, a: Attempt, m: Move): Attempt
    requires CanMove(a, m) && a.row.req.take.Some?
  {
    match m
    case ReadAsk(readable) => a.(phase := AskRead(OwnRow(db, a, readable)))
    case Materialize(failure) =>
      if failure.Some? then a.(phase := Doomed(failure.value))
      else a.(phase := Materialized(db, a), readAt := now)
    case Spawn(ok) =>
      if ok then a.(phase := Alive, spawned := true, resume := a.phase.resume)
      else a.(phase := Doomed(SpawnFailed))
    case RecordPgid(_) => if Holds(db, a.job, t) then a else Killed(a, ByLost)
    case PrintEpoch(e, v) => a.(parsed := Some((e, v)))
    case RecordParsed(_, _) => a.(parsed := None, heard := a.parsed)
    case PrintModel(v) => a.(modelEsr := Some(v))
    case Save(w) => a.(made := a.made + {w})
    case SaveBest(b) => a.(made := a.made + {b.w}, bests := a.bests + {b})
    case ExportModel(nam, ckpt) =>
      var w := Weights(a.row.req.epochs, nam, ckpt);
      a.(made := a.made + {w}, model := Some(w))
    case TakeFigure => a.(look := Took(a.heard))
    case ReadDisk(w, best) =>
      a.(look := Found(a.look.told, w, if best.Some? then Some(BestPair(best.value)) else None))
    case Attribute(known) =>
      var figure := FigureFor(db, a.job, a.look.told, a.look.w.reached, known);
      a.(look := Bearing(PairOf(a.look.w, figure), a.look.beside))
    case PutLook(heard) =>
      a.(look := Resting, answer := if heard then Some(AnswerTo(db, a.job, t)) else a.answer,
         sent := TakeWeights.SentAfter(a.look.best, heard, a.sent))
    case LoseLook => a.(look := Resting)
    case Obey => Heeded(a, a.answer.value).(answer := None)
    case Kill(why) => Killed(a, why)
    case Reap(exit) => a.(phase := Reaped(exit))
    case Classify(io, _) =>
      if PlanFor(a) == Harvest then a.(phase := Harvested(OwnRow(db, a, io.readable)))
      else if PlanFor(a) == Natural && io.readable then a.(phase := Exporting)
      else a.(phase := Over)
    case Conclude(io, _) =>
      if a.phase.own.None? && a.model.Some? && io.readable then a.(phase := Exporting)
      else a.(phase := Over)
    case Chatter(_) => a
    case CloseAskedCancel => a.(phase := Over)
    case CloseAskedStop => a.(phase := Over)
    case FailNow(_) => a.(phase := Over)
    case File => a.(phase := Over)
    case Crash => a.(phase := Over)
  }

  function Prints(a: Attempt, m: Move): set<Figure> {
    match m
    case PrintEpoch(e, v) => {OfEpoch(a.job, e, v)}
    case PrintModel(v) => {OfModel(a.job, v)}
    case _ => {}
  }

  predicate Enabled(s: Sys, step: Step) {
    match step
    case Outside(st) => !st.Held? && !st.Claim?
    case Claims(id, _, _) => id in s.db.jobs && Claimable(s.db.jobs[id])
    case Takes(t, m) => t in s.attempts && s.attempts[t].row.req.take.Some? && CanMove(s.attempts[t], m)
  }

  function StmtOf(s: Sys, step: Step): Option<Stmt>
    requires Enabled(s, step)
  {
    match step
    case Outside(st) => Some(st)
    case Claims(id, worker, instance) => Some(Claim(id, worker, instance))
    case Takes(t, m) =>
      var a := s.attempts[t];
      var w := WriteOf(a, m);
      if w.Some? then Some(Held(a.job, t, w.value)) else None
  }

  function AttemptsAfter(s: Sys, db': Db, step: Step): map<Token, Attempt>
    requires Enabled(s, step)
    requires step.Claims? ==> step.id in db'.jobs
  {
    match step
    case Outside(_) => s.attempts
    case Claims(id, _, _) => s.attempts[s.db.nextToken := NewAttempt(id, db'.jobs[id], |s.stmts| + 1)]
    case Takes(t, m) => s.attempts[t := Moved(s.db, |s.stmts|, t, s.attempts[t], m)]
  }

  function Next(s: Sys, step: Step): Sys
    requires Enabled(s, step)
  {
    var st := StmtOf(s, step);
    var db' := if st.Some? then Exec(s.db, st.value) else s.db;
    Sys(s.init, if st.Some? then s.stmts + [st.value] else s.stmts, db', AttemptsAfter(s, db', step),
        if step.Takes? then s.printed + Prints(s.attempts[step.t], step.m) else s.printed)
  }

  /** A library with weights but no jobs yet: whatever takes carry belongs to no job. */
  predicate Initial(s: Sys) {
    && s.stmts == [] && s.db == s.init && s.attempts == map[] && s.printed == {}
    && s.db.jobs == map[] && s.db.results == map[] && s.db.epochs == map[]
    && forall take | take in s.db.ckpts :: s.db.ckpts[take].job.None?
  }

  predicate Runs(s: Sys, steps: seq<Step>)
    decreases |steps|
  {
    steps == [] || (Enabled(s, steps[0]) && Runs(Next(s, steps[0]), steps[1..]))
  }

  function After(s: Sys, steps: seq<Step>): Sys
    requires Runs(s, steps)
    decreases |steps|
  {
    if steps == [] then s else After(Next(s, steps[0]), steps[1..])
  }
}
