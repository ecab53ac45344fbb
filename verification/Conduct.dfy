/** What an attempt does at each turn, told by what it leaves on the row and on the take:
    how it begins, what its saver carries, how it obeys, and how each of its ends reads. */
module Conduct {
  import opened Types
  import opened Statements
  import opened Attempts
  import opened Safety
  import opened Outcomes
  import opened Effects
  import Fence
  import TakeWeights

  // ---- the beginning ----

  /** A claim starts an attempt on the row as claimed, under the token the row now has. */
  lemma ClaimBegins(s: Sys, id: JobId, worker: string, instance: string)
    requires Enabled(s, Claims(id, worker, instance))
    ensures var s' := Next(s, Claims(id, worker, instance));
            var t := s.db.nextToken;
            && t in s'.attempts && Holds(s'.db, id, t) && s'.attempts[t].job == id
            && s'.attempts[t].row == s'.db.jobs[id] && s'.attempts[t].phase == Claimed
            && !s'.attempts[t].spawned && s'.attempts[t].reason.None?
            && s'.attempts[t].heard.None? && s'.attempts[t].sent.None? && s'.attempts[t].look.Resting?
  {
  }

  /** A claim that found a cancel closes the row cancelled, and nothing else is open to it. */
  lemma AskedCancelCloses(s: Sys, t: Token)
    requires t in s.attempts && s.attempts[t].row.req.take.Some?
    requires s.attempts[t].phase == Claimed && s.attempts[t].row.cancel && Holds(s.db, s.attempts[t].job, t)
    ensures Enabled(s, Takes(t, CloseAskedCancel))
    ensures var id, s' := s.attempts[t].job, Next(s, Takes(t, CloseAskedCancel));
            && s'.attempts[t].phase.Over? && id in s'.db.jobs && s'.db.jobs[id].state == Cancelled
            && s'.db.jobs[id].cols.error == Some(WasCancelled) && s'.db.results == s.db.results
    ensures forall readable :: !CanMove(s.attempts[t], ReadAsk(readable))
    ensures forall f :: !CanMove(s.attempts[t], Materialize(f))
  {
    hide CkptsAfter, EpochsAfter, LogAfter;
    CancelReads(s.db, s.attempts[t].job, t);
  }

  /** This job's own weights on the take, for whoever reads the row. */
  predicate KeptBy(db: Db, id: JobId, take: TakeId) {
    take in db.ckpts && db.ckpts[take].job == Some(id)
  }

  /** A result filed under a claim, unless a cancel is on the row. */
  predicate Filed(was: Db, now: Db, id: JobId, t: Token, reached: int, esr: Option<real>, nam: Blob) {
    && id in was.jobs && id in now.jobs && now.jobs[id].cols.reached == Some(reached)
    && (was.jobs[id].cancel ==> now.jobs[id].state == Cancelled && now.results == was.results)
    && (!was.jobs[id].cancel ==>
          && now.jobs[id].state == Succeeded
          && now.results == was.results[id := ResultRow(t, ShaOf(nam), nam, reached, Sayable(esr))])
  }

  predicate FailedWith(now: Db, id: JobId, code: ErrorCode) {
    id in now.jobs && now.jobs[id].state == Failed && now.jobs[id].cols.error == Some(code)
  }

  /** A claim that found a stop spawns nothing: what the job has kept on the take is filed
      as its result, and with nothing kept, or nothing readable, the stop fails. */
  lemma AskedStopFiles(s0: Sys, steps: seq<Step>, t: Token, readable: bool)
    requires Initial(s0) && Runs(s0, steps)
    requires var s := After(s0, steps);
             && t in s.attempts && s.attempts[t].phase == Claimed && !s.attempts[t].row.cancel && s.attempts[t].row.stop
             && Holds(s.db, s.attempts[t].job, t)
    ensures AskedStopRight(After(s0, steps), t, readable)
  {
    hide AskedStopRight, AttemptRight, Holds;
    Reached(s0, steps);
    var s := After(s0, steps);
    InReach(s, t);
    OwnIsWhole(s, t);
    AskedStopHere(s, t, readable);
  }

  ghost predicate AskedStopRight(s: Sys, t: Token, readable: bool) {
    && t in s.attempts && s.attempts[t].row.req.take.Some? && Enabled(s, Takes(t, ReadAsk(readable)))
    && var a := s.attempts[t];
       var take := a.row.req.take.value;
       var s1 := Next(s, Takes(t, ReadAsk(readable)));
       && Enabled(s1, Takes(t, CloseAskedStop))
       && var now := Next(s1, Takes(t, CloseAskedStop));
          && now.attempts[t].phase.Over?
          && (if readable && KeptBy(s.db, a.job, take)
              then var c := s.db.ckpts[take]; Filed(s.db, now.db, a.job, t, c.reached, c.esr, c.nam)
              else FailedWith(now.db, a.job, StopFailed) && now.db.results == s.db.results)
  }

  /** What is found as a run's own is never an empty model. */
  lemma OwnIsWhole(s: Sys, t: Token)
    requires Inv(s) && t in s.attempts
    ensures s.attempts[t].row.req.take.Some?
    ensures var id, take := s.attempts[t].job, s.attempts[t].row.req.take.value;
            KeptBy(s.db, id, take) ==> s.db.ckpts[take].nam != []
  {
    InReach(s, t);
    var take := s.attempts[t].row.req.take.value;
    if KeptBy(s.db, s.attempts[t].job, take) { assert Earned(s, s.attempts[t].job, s.db.ckpts[take]); }
  }

  lemma AskedStopHere(s: Sys, t: Token, readable: bool)
    requires t in s.attempts && s.attempts[t].row.req.take.Some?
    requires s.attempts[t].phase == Claimed && !s.attempts[t].row.cancel && s.attempts[t].row.stop
    requires Holds(s.db, s.attempts[t].job, t)
    requires var id, take := s.attempts[t].job, s.attempts[t].row.req.take.value;
             KeptBy(s.db, id, take) ==> s.db.ckpts[take].nam != []
    ensures AskedStopRight(s, t, readable)
  {
    hide CkptsAfter, EpochsAfter, LogAfter, JobsAfter, ResultsAfter;
    var a := s.attempts[t];
    var take := a.row.req.take.value;
    if readable && KeptBy(s.db, a.job, take) {
      var c := s.db.ckpts[take];
      SuccessReads(s.db, a.job, t, Result(c.reached, c.esr, c.nam));
    } else {
      FailureReads(s.db, a.job, t, StopFailed, "stopped while paused with nothing kept");
    }
  }

  /** What materialize hands to the spawn: on the train lane the take's checkpoint if there
      is one; a continuation without one is closed as such; a failure closes with its own code. */
  lemma MaterializeReads(s: Sys, t: Token, failure: Option<ErrorCode>)
    requires t in s.attempts && s.attempts[t].row.req.take.Some? && s.attempts[t].phase == Claimed
    requires !s.attempts[t].row.cancel && !s.attempts[t].row.stop
    ensures Enabled(s, Takes(t, Materialize(failure)))
    ensures var a := s.attempts[t];
            var take := a.row.req.take.value;
            var phase := Next(s, Takes(t, Materialize(failure))).attempts[t].phase;
            && (failure.Some? ==> phase == Doomed(failure.value))
            && (failure.None? && a.row.req.kind == ProbeSelf ==> phase == Ready(None))
            && (failure.None? && a.row.req.kind != ProbeSelf && take in s.db.ckpts ==>
                  phase == Ready(Some(s.db.ckpts[take].ckpt)))
            && (failure.None? && a.row.req.kind == Train && take !in s.db.ckpts ==> phase == Ready(None))
            && (failure.None? && a.row.req.kind == TrainMore && take !in s.db.ckpts ==>
                  phase == Doomed(BaseUnavailable))
    ensures Next(s, Takes(t, Materialize(failure))).db == s.db
  {
  }

  lemma DoomedCloses(s: Sys, t: Token, msg: string)
    requires t in s.attempts && s.attempts[t].row.req.take.Some? && s.attempts[t].phase.Doomed?
    requires Holds(s.db, s.attempts[t].job, t)
    ensures Enabled(s, Takes(t, FailNow(msg)))
    ensures var s' := Next(s, Takes(t, FailNow(msg)));
            s'.attempts[t].phase.Over? && FailedWith(s'.db, s.attempts[t].job, s.attempts[t].phase.code)
  {
    hide CkptsAfter, EpochsAfter, LogAfter, JobsAfter, ResultsAfter;
    FailureReads(s.db, s.attempts[t].job, t, s.attempts[t].phase.code, msg);
  }

  /** A spawn resumes from what materialize handed it; one that fails is closed as such. */
  lemma SpawnReads(s: Sys, t: Token, ok: bool)
    requires t in s.attempts && s.attempts[t].row.req.take.Some? && s.attempts[t].phase.Ready?
    ensures Enabled(s, Takes(t, Spawn(ok)))
    ensures var a, a' := s.attempts[t], Next(s, Takes(t, Spawn(ok))).attempts[t];
            && (ok ==> a'.phase == Alive && a'.spawned && a'.resume == a.phase.resume)
            && (!ok ==> a'.phase == Doomed(SpawnFailed) && a'.spawned == a.spawned)
  {
  }

  // ---- the control channel ----

  /** Obeying an answer: a row that is no longer ours ends the run as lost, a cancel as
      cancelled, a stop as stopped, in that order; nothing asked, nothing done; a reason already
      there stays, and so does that of a child already reaped. */
  lemma ObeyReads(s: Sys, t: Token)
    requires t in s.attempts && s.attempts[t].row.req.take.Some? && s.attempts[t].answer.Some?
    ensures Enabled(s, Takes(t, Obey))
    ensures var v, was := s.attempts[t].answer.value, s.attempts[t].reason;
            var a' := Next(s, Takes(t, Obey)).attempts[t];
            && a'.phase == s.attempts[t].phase && a'.answer.None?
            && (was.Some? || a'.phase != Alive ==> a'.reason == was)
            && (was.None? && a'.phase == Alive && !v.mine ==> a'.reason == Some(ByLost))
            && (was.None? && a'.phase == Alive && v.mine && v.cancel ==> a'.reason == Some(ByCancel))
            && (was.None? && a'.phase == Alive && v.mine && !v.cancel && v.stop ==> a'.reason == Some(ByStop))
            && (was.None? && v.mine && !v.cancel && !v.stop ==> a'.reason.None?)
  {
  }

  /** The checkpoint write is the control channel: what the row says when a look is
      written is what the run, told of it, does. */
  lemma WriteIsObeyed(s: Sys, t: Token)
    requires Enabled(s, Takes(t, PutLook(true))) && s.attempts[t].phase == Alive && s.attempts[t].reason.None?
    ensures var s1 := Next(s, Takes(t, PutLook(true)));
            && Enabled(s1, Takes(t, Obey))
            && var id, r := s.attempts[t].job, Next(s1, Takes(t, Obey)).attempts[t].reason;
               if id !in s.db.jobs || s.db.jobs[id].token != Some(t) || s.db.jobs[id].state != Running
                  || s.db.jobs[id].paused
               then r == Some(ByLost)
               else if s.db.jobs[id].cancel then r == Some(ByCancel)
               else if s.db.jobs[id].stop then r == Some(ByStop)
               else r.None?
  {
    hide Exec, Heeded;
    AnswerSays(s.db, s.attempts[t].job, t);
    var s1 := Next(s, Takes(t, PutLook(true)));
    assert s1.attempts[t].answer == Some(AnswerTo(s.db, s.attempts[t].job, t));
    hide Next, AnswerTo;
    assert Enabled(s1, Takes(t, Obey)) && s1.attempts[t].phase == Alive && s1.attempts[t].reason.None?;
    ObeyReads(s1, t);
  }

  /** The pgid write is the other place where a run learns it lost its row. */
  lemma PgidIsObeyed(s: Sys, t: Token, pgid: int)
    requires t in s.attempts && s.attempts[t].row.req.take.Some?
    requires s.attempts[t].phase == Alive && s.attempts[t].reason.None?
    ensures Enabled(s, Takes(t, RecordPgid(pgid)))
    ensures var id, s' := s.attempts[t].job, Next(s, Takes(t, RecordPgid(pgid)));
            if Holds(s.db, id, t)
            then s'.attempts[t].reason.None? && id in s'.db.jobs && s'.db.jobs[id].cols.pgid == Some(pgid)
            else s'.attempts[t].reason == Some(ByLost) && s'.db == s.db
  {
    hide CkptsAfter, ResultsAfter, EpochsAfter, LogAfter;
    if !Holds(s.db, s.attempts[t].job, t) {
      Fence.UnheldIsNothing(s.db, Held(s.attempts[t].job, t, SetPgid(pgid)));
    }
  }

  /** A kill from the daemon itself, while the child lives: the first reason sticks. */
  lemma KillReads(s: Sys, t: Token, why: Reason)
    requires t in s.attempts && s.attempts[t].row.req.take.Some? && s.attempts[t].phase == Alive
    requires why in {ByStall, ByVerdict, ByShutdown, ByPause}
    ensures Enabled(s, Takes(t, Kill(why)))
    ensures var was, a' := s.attempts[t].reason, Next(s, Takes(t, Kill(why))).attempts[t];
            a'.reason == (if was.Some? then was else Some(why)) && a'.phase == Alive
    ensures Next(s, Takes(t, Kill(why))).db == s.db
  {
  }

  /** A run refused by the library, once it obeys, closes no row and requeues none, ever. */
  lemma RefusedEndsSilently(s0: Sys, before: seq<Step>, after: seq<Step>, t: Token)
    requires Initial(s0) && Runs(s0, before)
    requires var s := After(s0, before);
             && Enabled(s, Takes(t, Obey)) && s.attempts[t].phase == Alive && s.attempts[t].reason.None?
             && !s.attempts[t].answer.value.mine
             && Runs(Next(s, Takes(t, Obey)), after)
    ensures var s := After(s0, before);
            NothingFinal(Sent(Next(s, Takes(t, Obey)), after), s.attempts[t].job, t)
  {
    hide Runs, After, Next, NothingFinal, AttemptRight;
    Reached(s0, before);
    var s := After(s0, before);
    InReach(s, t);
    ObeyReads(s, t);
    ObeyKeeps(s, t);
    LoserSilent(Next(s, Takes(t, Obey)), after, t);
  }

  lemma ObeyKeeps(s: Sys, t: Token)
    requires Enabled(s, Takes(t, Obey)) && AttemptRight(s, t, s.attempts[t])
    ensures var s' := Next(s, Takes(t, Obey));
            t in s'.attempts && s'.attempts[t].job == s.attempts[t].job && t < s'.db.nextToken
  {
    hide PhaseRight, SpawnRight, SinceRight, OutputRight, SaverRight, MadeRight;
  }

  // ---- the trainer ----

  /** What a living child may do at any moment: leave a pair on disk, or a best one,
      export a model, print the model's figure or an epoch's; and that is there to be found. */
  lemma TrainerSaves(s: Sys, t: Token, w: Weights)
    requires t in s.attempts && s.attempts[t].row.req.take.Some? && s.attempts[t].phase == Alive
    ensures Enabled(s, Takes(t, Save(w))) && w in Next(s, Takes(t, Save(w))).attempts[t].made
  {
  }

  lemma TrainerSavesBest(s: Sys, t: Token, b: Named)
    requires t in s.attempts && s.attempts[t].row.req.take.Some? && s.attempts[t].phase == Alive
    ensures Enabled(s, Takes(t, SaveBest(b)))
    ensures var a' := Next(s, Takes(t, SaveBest(b))).attempts[t]; b in a'.bests && b.w in a'.made
  {
  }

  lemma TrainerExports(s: Sys, t: Token, nam: Blob, ckpt: Blob)
    requires t in s.attempts && s.attempts[t].row.req.take.Some? && s.attempts[t].phase == Alive && nam != []
    ensures Enabled(s, Takes(t, ExportModel(nam, ckpt)))
    ensures Next(s, Takes(t, ExportModel(nam, ckpt))).attempts[t].model
         == Some(Weights(s.attempts[t].row.req.epochs, nam, ckpt))
  {
  }

  lemma TrainerPrints(s: Sys, t: Token, e: int, v: real)
    requires t in s.attempts && s.attempts[t].row.req.take.Some? && s.attempts[t].phase == Alive
    ensures Enabled(s, Takes(t, PrintModel(v))) && Next(s, Takes(t, PrintModel(v))).attempts[t].modelEsr == Some(v)
    ensures s.attempts[t].parsed.None? ==>
              && Enabled(s, Takes(t, PrintEpoch(e, v)))
              && Next(s, Takes(t, PrintEpoch(e, v))).attempts[t].parsed == Some((e, v))
  {
  }

  /** Everybody else is free too: the app and cron at any moment, a claimer of any row that
      waits. */
  lemma OthersAct(s: Sys, st: Stmt, id: JobId, worker: string, instance: string)
    ensures st.Enqueue? || st.AskStop? || st.AskCancel? || st.AppCancel? || st.DropWeights? || st.MarkSilent? ==>
              Enabled(s, Outside(st)) && Next(s, Outside(st)).db == Exec(s.db, st)
    ensures id in s.db.jobs && Claimable(s.db.jobs[id]) <==> Enabled(s, Claims(id, worker, instance))
  {
    hide Exec;
  }

  // ---- the saver ----

  /** An epoch read off the output is recorded with its own cost and told to the saver. */
  lemma EpochIsTold(s: Sys, t: Token, seconds: real, lands: bool)
    requires t in s.attempts && s.attempts[t].row.req.take.Some? && s.attempts[t].parsed.Some?
    ensures Enabled(s, Takes(t, RecordParsed(seconds, lands)))
    ensures var a := s.attempts[t];
            var e, v := a.parsed.value.0, a.parsed.value.1;
            var s' := Next(s, Takes(t, RecordParsed(seconds, lands)));
            && s'.attempts[t].heard == a.parsed && s'.attempts[t].parsed.None?
            && (lands && Holds(s.db, a.job, t) ==>
                  Lookup(s'.db.epochs, (a.job, e))
                  == Some(EpochRow(t, Sayable(Some(v)), if seconds > 0.0 then Some(seconds) else None)))
  {
    hide Exec;
    var a := s.attempts[t];
    if lands && Holds(s.db, a.job, t) {
      EpochReads(s.db, a.job, t, a.parsed.value.0, Some(a.parsed.value.1), seconds);
    }
  }

  /** What is said of progress and on the log is sent as it is said. */
  lemma ChatterIsSent(s: Sys, t: Token, w: Write)
    requires t in s.attempts && s.attempts[t].row.req.take.Some? && s.attempts[t].spawned && (w.Progress? || w.Log?)
    ensures Enabled(s, Takes(t, Chatter(w)))
    ensures Next(s, Takes(t, Chatter(w))).db == Exec(s.db, Held(s.attempts[t].job, t, w))
  {
    hide Exec;
  }

  /** A look takes what the saver was told last, then a whole pair off the disk with the best
      one beside it, under the figure of its name if that is positive. */
  lemma LookBegins(s: Sys, t: Token)
    requires t in s.attempts && s.attempts[t].row.req.take.Some? && s.attempts[t].look.Resting?
    requires s.attempts[t].spawned && s.attempts[t].row.req.kind != ProbeSelf
    ensures Enabled(s, Takes(t, TakeFigure))
    ensures Next(s, Takes(t, TakeFigure)).attempts[t].look == Took(s.attempts[t].heard)
  {
  }

  lemma LookReads(s: Sys, t: Token, w: Weights, best: Option<Named>)
    requires t in s.attempts && s.attempts[t].row.req.take.Some? && s.attempts[t].look.Took?
    requires w in s.attempts[t].made && w.nam != [] && w.ckpt != []
    requires best.Some? ==> best.value in s.attempts[t].bests && best.value.w.nam != [] && best.value.w.ckpt != []
    ensures Enabled(s, Takes(t, ReadDisk(w, best)))
    ensures var look := Next(s, Takes(t, ReadDisk(w, best))).attempts[t].look;
            && look.Found? && look.told == s.attempts[t].look.told && look.w == w && look.beside.Some? == best.Some?
            && (best.Some? ==>
                  var p, b := look.beside.value, best.value;
                  && p.reached == b.w.reached && p.nam == b.w.nam && p.ckpt == b.w.ckpt && p.sha == ShaOf(b.w.nam)
                  && p.esr == if b.figure > 0.0 then Some(b.figure) else None)
  {
  }

  /** The figure a look attaches: the one it was told if that is of the pair's own epoch;
      else the recorded one, if it can be asked for and is there; and none only without either. */
  lemma FigureIsAttached(s: Sys, t: Token, known: bool)
    requires t in s.attempts && s.attempts[t].row.req.take.Some? && s.attempts[t].look.Found?
    ensures Enabled(s, Takes(t, Attribute(known)))
    ensures var a := s.attempts[t];
            var look := Next(s, Takes(t, Attribute(known))).attempts[t].look;
            && look.Bearing? && look.best == a.look.beside
            && look.last.reached == a.look.w.reached && look.last.nam == a.look.w.nam
            && look.last.ckpt == a.look.w.ckpt && look.last.sha == ShaOf(a.look.w.nam)
            && var e, esr := a.look.w.reached - 1, look.last.esr;
               && (a.look.told.Some? && a.look.told.value.0 == e ==> esr == Some(a.look.told.value.1))
               && (!(a.look.told.Some? && a.look.told.value.0 == e) && known && (a.job, e) in s.db.epochs ==>
                     esr == s.db.epochs[(a.job, e)].esr)
               && (!(a.look.told.Some? && a.look.told.value.0 == e) && !(known && (a.job, e) in s.db.epochs) ==>
                     esr.None?)
  {
  }

  /** Whoever else moves, and whatever else the attempt does, a look bears the same pair
      until it is written or lost. */
  lemma LookIsBorne(s: Sys, step: Step, t: Token)
    requires Enabled(s, step) && t in s.attempts && t < s.db.nextToken && s.attempts[t].look.Bearing?
    requires !(step.Takes? && step.t == t && (step.m.PutLook? || step.m.LoseLook?))
    ensures t in Next(s, step).attempts && Next(s, step).attempts[t].look == s.attempts[t].look
  {
    hide Exec;
    if step.Takes? && step.t == t { LookKept(s.db, |s.stmts|, t, s.attempts[t], step.m); }
  }

  /** An accepted look is what the take then holds: this job's, this claim's, the pair
      with the figure attached to it. A refused one leaves the take as it was. */
  lemma LookIsStored(s: Sys, t: Token, heard: bool)
    requires t in s.attempts && s.attempts[t].row.req.take.Some? && s.attempts[t].look.Bearing?
    ensures Enabled(s, Takes(t, PutLook(heard)))
    ensures var a := s.attempts[t];
            var take := a.row.req.take.value;
            var s' := Next(s, Takes(t, PutLook(heard)));
            && s'.attempts[t].look.Resting?
            && (Mine(s.db, a.job, t) ==>
                  && take in s'.db.ckpts
                  && var c, last := s'.db.ckpts[take], a.look.last;
                     && c.job == Some(a.job) && c.token == Some(t) && c.reached == last.reached && c.esr == last.esr
                     && c.sha == last.sha && c.nam == last.nam && c.ckpt == last.ckpt)
            && (!Mine(s.db, a.job, t) ==> s'.db.ckpts == s.db.ckpts)
  {
    hide JobsAfter, ResultsAfter, EpochsAfter, LogAfter, TakeWeights.Thin, TakeWeights.SentAfter;
    var a := s.attempts[t];
    if Mine(s.db, a.job, t) {
      PutReads(s.db, a.job, t, a.row.req.take.value, a.look.last, TakeWeights.Thin(a.look.best, a.sent));
    }
  }

  /** A look may come to nothing at any point, and the next one begins afresh. */
  lemma LookIsLost(s: Sys, t: Token)
    requires t in s.attempts && s.attempts[t].row.req.take.Some? && !s.attempts[t].look.Resting?
    ensures Enabled(s, Takes(t, LoseLook))
    ensures var s' := Next(s, Takes(t, LoseLook));
            s'.attempts[t].look.Resting? && s'.attempts[t].sent == s.attempts[t].sent && s'.db == s.db
  {
  }

  // ---- the ends ----

  /** The child is reaped with the reason it has by then. */
  lemma ReapReads(s: Sys, t: Token, exit: Exit)
    requires t in s.attempts && s.attempts[t].row.req.take.Some? && s.attempts[t].phase == Alive
    ensures Enabled(s, Takes(t, Reap(exit)))
    ensures var a, a' := s.attempts[t], Next(s, Takes(t, Reap(exit))).attempts[t];
            a'.phase == Reaped(exit) && a'.reason == a.reason && a'.model == a.model
  {
  }

  /** Every way a reaped attempt is classified, as it reads on the row: lost says nothing; a
      cancel closes cancelled; a killed run of a stopping daemon, and a paused probe, go back; a
      probe files the verdict it printed; a finished run is left to be filed, whatever killed it; a
      stop and a pause look for their own weights; and each failure says why. */
  ghost predicate ClassifyRight(s: Sys, t: Token, io: Io, msg: string) {
    && t in s.attempts && s.attempts[t].row.req.take.Some? && Enabled(s, Takes(t, Classify(io, msg)))
    && var a := s.attempts[t];
       var take := a.row.req.take.value;
       var exit := a.phase.exit;
       var s' := Next(s, Takes(t, Classify(io, msg)));
       var now, a' := s'.db, s'.attempts[t];
       var probe, finished := a.row.req.kind == ProbeSelf, exit.clean && a.model.Some?;
       if a.reason == Some(ByLost) then now == s.db && a'.phase.Over?
       else if a.reason == Some(ByCancel) then
         && a.job in now.jobs && now.jobs[a.job].state == Cancelled && now.jobs[a.job].cols.error == Some(WasCancelled)
         && now.results == s.db.results && a'.phase.Over?
       else if !exit.clean && (a.reason == Some(ByShutdown) || (a.reason == Some(ByPause) && probe)) then
         a.job in now.jobs && now.jobs[a.job].state == Queued && now.ckpts == s.db.ckpts && a'.phase.Over?
       else if probe then
         && a'.phase.Over? && now.results == s.db.results
         && match exit.verdict
            case Some(v) =>
              && a.job in now.jobs && now.jobs[a.job].cols.verdict == Some(v)
              && now.jobs[a.job].cols.esr == Sayable(exit.probeEsr)
              && now.jobs[a.job].state == if s.db.jobs[a.job].cancel then Cancelled else Succeeded
            case None => FailedWith(now, a.job, if a.reason == Some(ByStall) then Stalled else NoVerdict)
       else if finished then
         if io.readable then
           && ExportStands(s', t, a.model.value)
           && ExportKept(s, s', t, io)
         else FailedWith(now, a.job, TrainFailed) && a'.phase.Over?
       else if a.reason == Some(ByStop) || a.reason == Some(ByPause) then
         && now == s.db
         && a'.phase == Harvested(if io.readable && KeptBy(s.db, a.job, take) then Some(s.db.ckpts[take]) else None)
       else
         && a'.phase.Over?
         && FailedWith(now, a.job,
                       if a.reason == Some(ByStall) then Stalled
                       else if a.row.req.kind == TrainMore && !exit.sawEpoch then ResumeFailed
                       else TrainFailed)
  }

  lemma ClassifyReads(s0: Sys, steps: seq<Step>, t: Token, io: Io, msg: string)
    requires Initial(s0) && Runs(s0, steps)
    requires var s := After(s0, steps);
             t in s.attempts && s.attempts[t].phase.Reaped? && Holds(s.db, s.attempts[t].job, t)
    ensures ClassifyRight(After(s0, steps), t, io, msg)
  {
    hide ClassifyRight, AttemptRight, Holds;
    Reached(s0, steps);
    var s := After(s0, steps);
    InReach(s, t);
    RightParts(s, t);
    ClassifyHere(s, t, io, msg);
  }

  lemma RightParts(s: Sys, t: Token)
    requires t in s.attempts && AttemptRight(s, t, s.attempts[t])
    ensures MadeRight(s.attempts[t]) && s.attempts[t].row.req.take.Some?
  {
  }

  /** What a classification sends and where it goes, plan by plan. */
  lemma ClassifySends(s: Sys, t: Token, io: Io, msg: string)
    requires Enabled(s, Takes(t, Classify(io, msg)))
    ensures var a, s' := s.attempts[t], Next(s, Takes(t, Classify(io, msg)));
            var a' := s'.attempts[t];
            var w := ClassifyWrite(a, io, msg);
            && s'.db == (if w.Some? then Exec(s.db, Held(a.job, t, w.value)) else s.db)
            && t in s'.attempts
            && a'.job == a.job && a'.row == a.row && a'.model == a.model && a'.reason == a.reason
            && a'.phase == (if PlanFor(a) == Harvest then Harvested(OwnRow(s.db, a, io.readable))
                            else if PlanFor(a) == Natural && io.readable then Exporting
                            else Over)
  {
    hide Exec, ClassifyWrite, PlanFor, OwnRow;
  }

  lemma PutKeepsRows(db: Db, id: JobId, t: Token, take: TakeId, last: Pair, best: Option<Pair>)
    ensures var after := Exec(db, Held(id, t, Put(take, last, best)));
            after.jobs == db.jobs && after.results == db.results
  {
  }

  lemma ClassifyHere(s: Sys, t: Token, io: Io, msg: string)
    requires t in s.attempts && s.attempts[t].row.req.take.Some? && s.attempts[t].phase.Reaped?
    requires Holds(s.db, s.attempts[t].job, t) && MadeRight(s.attempts[t])
    ensures ClassifyRight(s, t, io, msg)
  {
    var a := s.attempts[t];
    var id, kind, exit := a.job, a.row.req.kind, a.phase.exit;
    assert Enabled(s, Takes(t, Classify(io, msg)));
    ClassifySends(s, t, io, msg);
    ClassifyPromises(kind, a.reason, exit, a.model.Some?);
    hide Next, Exec, PlanOf, ExportStands, ExportKept;
    match PlanFor(a) {
      case Silence =>
      case WriteCancelled => CancelReads(s.db, id, t);
      case PutBack => RequeueReads(s.db, id, t); Fence.RequeuedIsClaimable(s.db, id, t);
      case GiveVerdict(v) => VerdictReads(s.db, id, t, v, exit.probeEsr);
      case FailWith(code) => FailedHere(s, t, io, msg);
      case Natural => NaturalHere(s, t, io, msg);
      case Harvest =>
    }
  }

  /** Each failure's code, told by what happened. */
  lemma FailCode(kind: Kind, reason: Option<Reason>, exit: Exit, exported: bool)
    requires PlanOf(kind, reason, exit, exported).FailWith?
    ensures PlanOf(kind, reason, exit, exported).code ==
              if reason == Some(ByStall) then Stalled
              else if kind == ProbeSelf then NoVerdict
              else if kind == TrainMore && !exit.sawEpoch then ResumeFailed
              else TrainFailed
  {
  }

  lemma FailedHere(s: Sys, t: Token, io: Io, msg: string)
    requires t in s.attempts && s.attempts[t].row.req.take.Some? && s.attempts[t].phase.Reaped?
    requires Holds(s.db, s.attempts[t].job, t) && PlanFor(s.attempts[t]).FailWith?
    ensures ClassifyRight(s, t, io, msg)
  {
    var a := s.attempts[t];
    assert Enabled(s, Takes(t, Classify(io, msg)));
    ClassifySends(s, t, io, msg);
    ClassifyPromises(a.row.req.kind, a.reason, a.phase.exit, a.model.Some?);
    FailCode(a.row.req.kind, a.reason, a.phase.exit, a.model.Some?);
    FailureReads(s.db, a.job, t, PlanFor(a).code, msg);
    hide Exec, PlanOf, Next, ExportStands, ExportKept;
  }

  lemma NaturalHere(s: Sys, t: Token, io: Io, msg: string)
    requires t in s.attempts && s.attempts[t].row.req.take.Some? && s.attempts[t].phase.Reaped?
    requires Holds(s.db, s.attempts[t].job, t) && MadeRight(s.attempts[t]) && PlanFor(s.attempts[t]) == Natural
    ensures ClassifyRight(s, t, io, msg)
  {
    var a := s.attempts[t];
    assert Enabled(s, Takes(t, Classify(io, msg)));
    ClassifyPromises(a.row.req.kind, a.reason, a.phase.exit, a.model.Some?);
    hide Exec, PlanOf, Next, ExportStands, ExportKept;
    if io.readable {
      NaturalStands(s, t, io, msg);
    } else {
      ClassifySends(s, t, io, msg);
      FailureReads(s.db, a.job, t, TrainFailed, msg);
    }
  }

  /** The exported pair is what the take holds, if there is one and the write gets through. */
  ghost predicate ExportKept(s: Sys, s': Sys, t: Token, io: Io)
    requires t in s.attempts && s.attempts[t].row.req.take.Some? && s.attempts[t].model.Some?
  {
    var a := s.attempts[t];
    var take, w := a.row.req.take.value, a.model.value;
    w.ckpt != [] && io.lands && Mine(s.db, a.job, t) ==>
      && take in s'.db.ckpts
      && var c := s'.db.ckpts[take];
         && c.job == Some(a.job) && c.token == Some(t) && c.reached == w.reached && c.esr == a.modelEsr
         && c.sha == ShaOf(w.nam) && c.nam == w.nam && c.ckpt == w.ckpt
  }

  lemma NaturalStands(s: Sys, t: Token, io: Io, msg: string)
    requires Enabled(s, Takes(t, Classify(io, msg))) && PlanFor(s.attempts[t]) == Natural && io.readable
    requires Holds(s.db, s.attempts[t].job, t) && MadeRight(s.attempts[t]) && s.attempts[t].model.Some?
    ensures var s' := Next(s, Takes(t, Classify(io, msg)));
            ExportStands(s', t, s.attempts[t].model.value) && ExportKept(s, s', t, io)
  {
    hide Exec, PlanOf, Next, OwnRow, Materialized;
    var a := s.attempts[t];
    ClassifySends(s, t, io, msg);
    ExportReads(s.db, t, a, io, msg);
  }

  /** What sending the export leaves: the row as it was, the take with the pair. */
  lemma ExportReads(db: Db, t: Token, a: Attempt, io: Io, msg: string)
    requires a.model.Some? && a.row.req.take.Some? && io.readable
    ensures var w := ExportWrite(a, io, msg);
            var now := if w.Some? then Exec(db, Held(a.job, t, w.value)) else db;
            var take := a.row.req.take.value;
            && now.jobs == db.jobs && now.results == db.results
            && (a.model.value.ckpt != [] && io.lands && Mine(db, a.job, t) ==>
                  && take in now.ckpts
                  && var c, m := now.ckpts[take], a.model.value;
                     && c.job == Some(a.job) && c.token == Some(t) && c.reached == m.reached && c.esr == a.modelEsr
                     && c.sha == ShaOf(m.nam) && c.nam == m.nam && c.ckpt == m.ckpt)
  {
    hide Exec;
    var take, pair := a.row.req.take.value, PairOf(a.model.value, a.modelEsr);
    PutKeepsRows(db, a.job, t, take, pair, None);
    if Mine(db, a.job, t) { PutReads(db, a.job, t, take, pair, None); }
  }

  /** An early stop with nothing of its own on the take but an exported model sends that
      to the take before it is filed; one whose model cannot be read fails. */
  lemma ConcludeExports(s: Sys, t: Token, io: Io, msg: string)
    requires Enabled(s, Takes(t, Conclude(io, msg))) && Holds(s.db, s.attempts[t].job, t)
    requires s.attempts[t].phase.own.None? && s.attempts[t].model.Some?
    ensures var s' := Next(s, Takes(t, Conclude(io, msg)));
            && (io.readable ==> ExportKept(s, s', t, io))
            && (!io.readable ==> FailedWith(s'.db, s.attempts[t].job, TrainFailed))
  {
    hide Exec, Next;
    ConcludeSends(s, t, io, msg);
    if io.readable {
      ExportReads(s.db, t, s.attempts[t], io, msg);
    } else {
      FailureReads(s.db, s.attempts[t].job, t, TrainFailed, msg);
    }
  }

  // ---- a stop keeps what the run has stored ----

  /** After an accepted checkpoint write of its own, with no later one on the take and no
      drop, whoever reads the take finds that very pair as the attempt's own. */
  lemma FindsItsOwn(s0: Sys, steps: seq<Step>, t: Token, k: nat)
    requires Initial(s0) && Runs(s0, steps) && t in After(s0, steps).attempts
    requires var s := After(s0, steps);
             var a := s.attempts[t];
             && a.row.req.take.Some? && AcceptedAt(s, k, a.row.req.take.value)
             && Fence.Under(s.stmts[k], a.job, t)
             && (forall i | k < i < |s.stmts| ::
                   !AcceptedAt(s, i, a.row.req.take.value) && s.stmts[i] != DropWeights(a.row.req.take.value))
    ensures var s := After(s0, steps);
            var a := s.attempts[t];
            var take := a.row.req.take.value;
            && s.stmts[k].w.Put? && KeptBy(s.db, a.job, take) && OwnRow(s.db, a, true) == Some(s.db.ckpts[take])
            && var c, last := s.db.ckpts[take], s.stmts[k].w.last;
               && c.token == Some(t) && c.reached == last.reached && c.esr == last.esr && c.sha == last.sha
               && c.nam == last.nam && c.ckpt == last.ckpt
  {
    hide Runs, After;
    Reached(s0, steps);
    var s := After(s0, steps);
    IsItsRun(s);
    WrittenStands(s, k, s.attempts[t].row.req.take.value);
  }

  lemma IsItsRun(s: Sys)
    requires Inv(s)
    ensures s.db == Run(s.init, s.stmts)
  {
    hide Run;
  }

  lemma WrittenStands(s: Sys, k: nat, take: TakeId)
    requires s.db == Run(s.init, s.stmts) && AcceptedAt(s, k, take)
    requires forall i | k < i < |s.stmts| :: !AcceptedAt(s, i, take) && s.stmts[i] != DropWeights(take)
    ensures var st := s.stmts[k];
            && st.Held? && st.w.Put? && take in s.db.ckpts
            && var c, last := s.db.ckpts[take], st.w.last;
               && c.job == Some(st.id) && c.token == Some(st.token) && c.reached == last.reached && c.esr == last.esr
               && c.sha == last.sha && c.nam == last.nam && c.ckpt == last.ckpt
  {
    var st := s.stmts[k];
    var db := Run(s.init, s.stmts[..k]);
    PutReads(db, st.id, st.token, take, st.w.last, st.w.best);
    OneOn(s, k);
    hide AcceptedAt, Run, Exec;
    LeftAloneBetween(s, k + 1, |s.stmts|, take);
    assert s.stmts[..|s.stmts|] == s.stmts;
  }

  lemma OneOn(s: Sys, k: nat)
    requires k < |s.stmts|
    ensures Run(s.init, s.stmts[..k + 1]) == Exec(Run(s.init, s.stmts[..k]), s.stmts[k])
  {
    assert s.stmts[..k + 1] == s.stmts[..k] + [s.stmts[k]];
    Fence.RunAppend(s.init, s.stmts[..k], [s.stmts[k]]);
    assert Run(Run(s.init, s.stmts[..k]), [s.stmts[k]]) == Exec(Run(s.init, s.stmts[..k]), s.stmts[k]);
  }

  /** So a run that stored an epoch and was then stopped, or paused, ends with that very
      pair filed as its result, unless a cancel is on the row. */
  lemma StopKeepsTheLastEpoch(s0: Sys, steps: seq<Step>, t: Token, k: nat, lands: bool, msg: string)
    requires Initial(s0) && Runs(s0, steps) && t in After(s0, steps).attempts
    requires var s := After(s0, steps);
             var a := s.attempts[t];
             && a.row.req.take.Some? && a.row.req.kind != ProbeSelf && Holds(s.db, a.job, t)
             && a.phase.Reaped? && !(a.phase.exit.clean && a.model.Some?)
             && (a.reason == Some(ByStop) || a.reason == Some(ByPause))
             && AcceptedAt(s, k, a.row.req.take.value) && Fence.Under(s.stmts[k], a.job, t)
             && (forall i | k < i < |s.stmts| ::
                   !AcceptedAt(s, i, a.row.req.take.value) && s.stmts[i] != DropWeights(a.row.req.take.value))
    ensures var s := After(s0, steps);
            var io := Io(true, lands);
            && s.stmts[k].w.Put? && Enabled(s, Takes(t, Classify(io, msg)))
            && var s1 := Next(s, Takes(t, Classify(io, msg)));
               && Enabled(s1, Takes(t, Conclude(io, msg)))
               && var now, last := Next(s1, Takes(t, Conclude(io, msg))).db, s.stmts[k].w.last;
                  Filed(s.db, now, s.attempts[t].job, t, last.reached, last.esr, last.nam)
  {
    hide Runs, After, AcceptedAt, AttemptRight, Inv, Next, Filed, PlanOf;
    var s := After(s0, steps);
    FindsItsOwn(s0, steps, t, k);
    Reached(s0, steps);
    OwnIsWhole(s, t);
    assert Enabled(s, Takes(t, Classify(Io(true, lands), msg)));
    StoppedHere(s, t, Io(true, lands), msg);
  }

  lemma StoppedHere(s: Sys, t: Token, io: Io, msg: string)
    requires Enabled(s, Takes(t, Classify(io, msg))) && Holds(s.db, s.attempts[t].job, t) && io.readable
    requires s.attempts[t].row.req.kind != ProbeSelf && !(s.attempts[t].phase.exit.clean && s.attempts[t].model.Some?)
    requires s.attempts[t].reason == Some(ByStop) || s.attempts[t].reason == Some(ByPause)
    requires var take := s.attempts[t].row.req.take.value;
             KeptBy(s.db, s.attempts[t].job, take) && s.db.ckpts[take].nam != []
    ensures var s1 := Next(s, Takes(t, Classify(io, msg)));
            && Enabled(s1, Takes(t, Conclude(io, msg)))
            && var now, c := Next(s1, Takes(t, Conclude(io, msg))).db, s.db.ckpts[s.attempts[t].row.req.take.value];
               Filed(s.db, now, s.attempts[t].job, t, c.reached, c.esr, c.nam)
  {
    hide Exec, PlanOf, Next, Filed, Materialized;
    var a := s.attempts[t];
    ClassifySends(s, t, io, msg);
    ClassifyPromises(a.row.req.kind, a.reason, a.phase.exit, a.model.Some?);
    var s1 := Next(s, Takes(t, Classify(io, msg)));
    hide ClassifyWrite;
    var c := s.db.ckpts[s.attempts[t].row.req.take.value];
    assert t in s1.attempts && s1.attempts[t].phase == Harvested(Some(c)) && s1.db == s.db;
    ConcludeSends(s1, t, io, msg);
    SuccessFiles(s.db, s.attempts[t].job, t, c);
  }

  lemma SuccessFiles(db: Db, id: JobId, t: Token, c: Ckpt)
    requires Holds(db, id, t) && c.nam != []
    ensures Filed(db, Exec(db, Held(id, t, Succeed(ResultOf(c)))), id, t, c.reached, c.esr, c.nam)
  {
    hide Exec;
    SuccessReads(db, id, t, ResultOf(c));
  }

  lemma ConcludeSends(s: Sys, t: Token, io: Io, msg: string)
    requires Enabled(s, Takes(t, Conclude(io, msg)))
    ensures var a := s.attempts[t];
            var w := ConcludeWrite(a, io, msg);
            Next(s, Takes(t, Conclude(io, msg))).db == if w.Some? then Exec(s.db, Held(a.job, t, w.value)) else s.db
  {
    hide Exec, ConcludeWrite;
  }

  // ---- no attempt is ever stuck ----

  /** Every attempt can be brought to its end by its own moves, whatever it was in the
      middle of, and without a crash. */
  lemma CanAlwaysEnd(s: Sys, t: Token, io: Io) returns (ms: seq<Move>)
    requires t in s.attempts && s.attempts[t].row.req.take.Some?
    requires s.attempts[t].phase == Exporting ==> s.attempts[t].model.Some?
    ensures |ms| <= 4 && Crash !in ms && CanDo(s, t, ms) && t in Did(s, t, ms).attempts
    ensures Did(s, t, ms).attempts[t].phase.Over?
  {
    var a := s.attempts[t];
    match a.phase {
      case Claimed => ms := FromClaimed(s, t);
      case AskRead(_) => ms := [CloseAskedStop]; One(s, t, CloseAskedStop);
      case Ready(_) => ms := [Spawn(false), FailNow("")]; Two(s, t, Spawn(false), FailNow(""));
      case Doomed(_) => ms := [FailNow("")]; One(s, t, FailNow(""));
      case Alive => ms := FromAlive(s, t, io);
      case Reaped(_) => ms := FromReaped(s, t, io);
      case Harvested(_) => ms := FromHarvested(s, t, io);
      case Exporting => ms := [File]; One(s, t, File);
      case Over => ms := [];
    }
  }

  predicate CanDo(s: Sys, t: Token, ms: seq<Move>)
    decreases |ms|
  {
    ms == [] || (Enabled(s, Takes(t, ms[0])) && CanDo(Next(s, Takes(t, ms[0])), t, ms[1..]))
  }

  function Did(s: Sys, t: Token, ms: seq<Move>): Sys
    requires CanDo(s, t, ms)
    decreases |ms|
  {
    if ms == [] then s else Did(Next(s, Takes(t, ms[0])), t, ms[1..])
  }

  lemma One(s: Sys, t: Token, m: Move)
    requires Enabled(s, Takes(t, m))
    ensures CanDo(s, t, [m]) && Did(s, t, [m]) == Next(s, Takes(t, m))
  {
    hide Next, Enabled;
    assert [m][1..] == [];
  }

  lemma More(s: Sys, t: Token, m: Move, ms: seq<Move>)
    requires Enabled(s, Takes(t, m)) && CanDo(Next(s, Takes(t, m)), t, ms)
    ensures CanDo(s, t, [m] + ms) && Did(s, t, [m] + ms) == Did(Next(s, Takes(t, m)), t, ms)
  {
    hide Next, Enabled;
    assert ([m] + ms)[1..] == ms;
  }

  lemma Two(s: Sys, t: Token, m: Move, n: Move)
    requires Enabled(s, Takes(t, m)) && Enabled(Next(s, Takes(t, m)), Takes(t, n))
    ensures CanDo(s, t, [m, n]) && Did(s, t, [m, n]) == Next(Next(s, Takes(t, m)), Takes(t, n))
  {
    hide Next, Enabled;
    One(Next(s, Takes(t, m)), t, n);
    More(s, t, m, [n]);
    assert [m] + [n] == [m, n];
  }

  lemma FromClaimed(s: Sys, t: Token) returns (ms: seq<Move>)
    requires t in s.attempts && s.attempts[t].row.req.take.Some? && s.attempts[t].phase == Claimed
    ensures |ms| <= 4 && Crash !in ms && CanDo(s, t, ms) && t in Did(s, t, ms).attempts
    ensures Did(s, t, ms).attempts[t].phase.Over?
  {
    hide Exec, Materialized, OwnRow;
    var a := s.attempts[t];
    if a.row.cancel {
      ms := [CloseAskedCancel];
      One(s, t, CloseAskedCancel);
    } else if a.row.stop {
      ms := [ReadAsk(true), CloseAskedStop];
      Two(s, t, ReadAsk(true), CloseAskedStop);
    } else {
      ms := [Materialize(Some(Scratch)), FailNow("")];
      Two(s, t, Materialize(Some(Scratch)), FailNow(""));
    }
  }

  lemma FromAlive(s: Sys, t: Token, io: Io) returns (ms: seq<Move>)
    requires t in s.attempts && s.attempts[t].row.req.take.Some? && s.attempts[t].phase == Alive
    ensures |ms| <= 4 && Crash !in ms && CanDo(s, t, ms) && t in Did(s, t, ms).attempts
    ensures Did(s, t, ms).attempts[t].phase.Over?
  {
    var exit := Exit(false, None, None, false);
    var s1 := Next(s, Takes(t, Reap(exit)));
    assert s1.attempts[t].row == s.attempts[t].row && s1.attempts[t].phase == Reaped(exit);
    hide Next;
    var more := FromReaped(s1, t, io);
    More(s, t, Reap(exit), more);
    ms := [Reap(exit)] + more;
  }

  lemma FromReaped(s: Sys, t: Token, io: Io) returns (ms: seq<Move>)
    requires t in s.attempts && s.attempts[t].row.req.take.Some? && s.attempts[t].phase.Reaped?
    ensures |ms| <= 3 && Crash !in ms && CanDo(s, t, ms) && t in Did(s, t, ms).attempts
    ensures Did(s, t, ms).attempts[t].phase.Over?
  {
    var m := Classify(io, "");
    ClassifySends(s, t, io, "");
    var a := s.attempts[t];
    ClassifyPromises(a.row.req.kind, a.reason, a.phase.exit, a.model.Some?);
    var s1 := Next(s, Takes(t, m));
    assert t in s1.attempts && Enabled(s, Takes(t, m));
    hide Next, PlanOf;
    if s1.attempts[t].phase.Harvested? {
      var more := FromHarvested(s1, t, io);
      More(s, t, m, more);
      ms := [m] + more;
    } else if s1.attempts[t].phase.Exporting? {
      var more := FromExporting(s1, t);
      More(s, t, m, more);
      ms := [m] + more;
    } else {
      One(s, t, m);
      ms := [m];
    }
  }

  lemma FromHarvested(s: Sys, t: Token, io: Io) returns (ms: seq<Move>)
    requires t in s.attempts && s.attempts[t].row.req.take.Some? && s.attempts[t].phase.Harvested?
    ensures |ms| <= 2 && Crash !in ms && CanDo(s, t, ms) && t in Did(s, t, ms).attempts
    ensures Did(s, t, ms).attempts[t].phase.Over?
  {
    var m := Conclude(io, "");
    var s1 := Next(s, Takes(t, m));
    assert t in s1.attempts && s1.attempts[t].row == s.attempts[t].row;
    assert s1.attempts[t].phase.Exporting? ==> s1.attempts[t].model.Some?;
    assert s1.attempts[t].phase.Exporting? || s1.attempts[t].phase.Over?;
    hide Next;
    if s1.attempts[t].phase.Exporting? {
      var more := FromExporting(s1, t);
      More(s, t, m, more);
      ms := [m] + more;
    } else {
      One(s, t, m);
      ms := [m];
    }
  }

  lemma FromExporting(s: Sys, t: Token) returns (ms: seq<Move>)
    requires t in s.attempts && s.attempts[t].row.req.take.Some?
    requires s.attempts[t].phase.Exporting? && s.attempts[t].model.Some?
    ensures ms == [File] && CanDo(s, t, ms) && t in Did(s, t, ms).attempts
    ensures Did(s, t, ms).attempts[t].phase.Over?
  {
    One(s, t, File);
    ms := [File];
  }
}
