/** What a later reader finds: the effect of each statement on the tables, told by the
    values it was given and the columns as they stood. */
module Effects {
  import opened Types
  import opened Statements
  import Fence

  // ---- the drain order ----

  /** A row is waiting for one lane of one version when it is nobody's: queued without an ask,
      or running and marked silent, on a take that is still there. */
  lemma WhoWaits(db: Db, lane: Lane, version: string, locked: set<JobId>, k: JobId)
    ensures Candidate(db, lane, version, locked, k) <==>
              && k in db.jobs && k !in locked
              && var j := db.jobs[k];
                 && j.req.take.Some? && j.req.version == version
                 && (lane == ProbeLane <==> j.req.kind == ProbeSelf)
                 && (j.state == Queued ==> !j.stop && !j.cancel)
                 && (j.state == Running ==> j.paused)
                 && !Terminal(j.state)
  {
  }

  /** The head of the queue: the highest priority, then the longest wait, then the least id. */
  lemma HeadOfTheQueue(db: Db, lane: Lane, version: string, locked: set<JobId>, i: JobId, k: JobId)
    requires IsNext(db, lane, version, locked, i) && Candidate(db, lane, version, locked, k)
    ensures var a, b := db.jobs[i].req, db.jobs[k].req;
            && (b.priority == High ==> a.priority == High)
            && (b.priority == Normal ==> a.priority != Low)
            && (a.priority == b.priority ==> a.queuedAt <= b.queuedAt)
            && (a.priority == b.priority && a.queuedAt == b.queuedAt ==> i <= k)
  {
  }

  /** A queued row with an ask on it is claimed by nobody, ever: it stays as it is until
      the app closes it. */
  lemma {:induction false} AskedIsNobodys(db: Db, ss: seq<Stmt>, id: JobId)
    requires Fence.Issued(db) && id in db.jobs && db.jobs[id].state == Queued
    requires db.jobs[id].stop || db.jobs[id].cancel
    ensures id in Run(db, ss).jobs && Run(db, ss).jobs[id].token == db.jobs[id].token
    ensures Run(db, ss).jobs[id].state == if Fence.AppClosed(db, ss, id) then Cancelled else Queued
    decreases |ss|
  {
    hide CkptsAfter, ResultsAfter, EpochsAfter, LogAfter;
    if ss != [] {
      Fence.Steps(db, ss[0]);
      AskedStep(db, ss[0], id);
      hide Exec;
      var db' := Exec(db, ss[0]);
      if ss[0] == AppCancel(id) {
        Closed(db', ss[1..], id);
      } else {
        AskedIsNobodys(db', ss[1..], id);
      }
    }
  }

  lemma AskedStep(db: Db, s: Stmt, id: JobId)
    requires id in db.jobs && db.jobs[id].state == Queued && (db.jobs[id].stop || db.jobs[id].cancel)
    requires Fence.Issued(db)
    ensures var after := Exec(db, s);
            && id in after.jobs && after.jobs[id].token == db.jobs[id].token
            && (after.jobs[id].stop || after.jobs[id].cancel)
            && after.jobs[id].state == if s == AppCancel(id) then Cancelled else Queued
  {
    hide CkptsAfter, ResultsAfter, EpochsAfter, LogAfter, RowAfter;
  }

  lemma {:induction false} Closed(db: Db, ss: seq<Stmt>, id: JobId)
    requires Fence.Issued(db) && id in db.jobs && Terminal(db.jobs[id].state)
    ensures id in Run(db, ss).jobs && Run(db, ss).jobs[id].state == db.jobs[id].state
    ensures Run(db, ss).jobs[id].token == db.jobs[id].token
    decreases |ss|
  {
    Fence.TerminalForever(db, ss, id);
  }

  // ---- one statement ----

  /** The claimer finds the row under its own names and a fresh token, with the asks on it
      and nothing of the attempt before. */
  lemma ClaimReads(db: Db, id: JobId, worker: string, instance: string)
    requires id in db.jobs && Claimable(db.jobs[id])
    ensures var was, now := db.jobs[id], Exec(db, Claim(id, worker, instance)).jobs[id];
            && now.state == Running && now.token == Some(db.nextToken) && !now.paused
            && now.cols.worker == Some(worker) && now.cols.instance == Some(instance)
            && now.cols.pgid.None? && now.cols.epoch.None? && now.cols.sPerEpoch.None?
            && now.req == was.req && now.stop == was.stop && now.cancel == was.cancel
            && now.cols.esr == was.cols.esr
    ensures Exec(db, Claim(id, worker, instance)).ckpts == db.ckpts
  {
  }

  lemma PgidReads(db: Db, id: JobId, token: Token, pgid: int)
    requires Holds(db, id, token)
    ensures var was, now := db.jobs[id], Exec(db, Held(id, token, SetPgid(pgid))).jobs[id];
            now.cols.pgid == Some(pgid) && now == was.(cols := was.cols.(pgid := Some(pgid)))
  {
  }

  lemma RequeueReads(db: Db, id: JobId, token: Token)
    requires Holds(db, id, token)
    ensures var was, now := db.jobs[id], Exec(db, Held(id, token, Requeue)).jobs[id];
            && id in Exec(db, Held(id, token, Requeue)).jobs && now.state == Queued && now.token.None? && !now.stop
            && now.cancel == was.cancel && now.paused == was.paused && now.req == was.req
            && now.cols.worker.None? && now.cols.instance.None? && now.cols.pgid.None?
            && now.cols.epoch.None? && now.cols.sPerEpoch.None? && now.cols.esr == was.cols.esr
  {
  }

  /** A figure the schema would refuse reads as one that was not said. */
  function Sayable(esr: Option<real>): Option<real> {
    match esr
    case None => None
    case Some(v) => if v < 0.0 then None else Some(v)
  }

  lemma VerdictReads(db: Db, id: JobId, token: Token, v: Verdict, esr: Option<real>)
    requires Holds(db, id, token)
    ensures var after := Exec(db, Held(id, token, CloseProbe(v, esr)));
            var was, now := db.jobs[id], after.jobs[id];
            && id in after.jobs && now.cols.verdict == Some(v) && now.cols.esr == Sayable(esr) && now.cols.pgid.None?
            && now.state == (if was.cancel then Cancelled else Succeeded)
            && now.cols.error == (if was.cancel then Some(WasCancelled) else None) && now.cols.message.None?
            && now.token == Some(token) && after.results == db.results
  {
  }

  lemma FailureReads(db: Db, id: JobId, token: Token, code: ErrorCode, message: string)
    requires Holds(db, id, token)
    ensures var after := Exec(db, Held(id, token, CloseFailed(code, message)));
            var now := after.jobs[id];
            && id in after.jobs && now.state == Failed && now.cols.error == Some(code) && now.cols.pgid.None?
            && (message == "" ==> now.cols.message.None?) && (message != "" ==> now.cols.message == Some(message))
            && now.token == Some(token) && after.results == db.results
  {
  }

  lemma CancelReads(db: Db, id: JobId, token: Token)
    requires Holds(db, id, token)
    ensures var after := Exec(db, Held(id, token, CloseCancelled));
            var now := after.jobs[id];
            && id in after.jobs && now.state == Cancelled && now.cols.error == Some(WasCancelled)
            && now.cols.message.None?
            && now.cols.pgid.None? && now.token == Some(token) && after.results == db.results
  {
  }

  lemma SuccessReads(db: Db, id: JobId, token: Token, r: Result)
    requires Holds(db, id, token) && r.nam != []
    ensures var after := Exec(db, Held(id, token, Succeed(r)));
            var was, now := db.jobs[id], after.jobs[id];
            && id in after.jobs && now.cols.reached == Some(r.reached) && now.cols.esr == Sayable(r.esr)
            && now.cols.pgid.None?
            && now.token == Some(token) && now.cols.message.None?
            && (was.cancel ==>
                  now.state == Cancelled && now.cols.error == Some(WasCancelled) && after.results == db.results)
            && (!was.cancel ==>
                  && now.state == Succeeded && now.cols.error.None?
                  && after.results
                     == db.results[id := ResultRow(token, ShaOf(r.nam), r.nam, r.reached, Sayable(r.esr))])
  {
  }

  /** What an accepted checkpoint write leaves on its take: whose it is, the last pair
      whole, and beside it the offered best pair if the take had none to beat it. */
  lemma PutReads(db: Db, id: JobId, token: Token, take: TakeId, last: Pair, best: Option<Pair>)
    requires Mine(db, id, token)
    ensures var after := Exec(db, Held(id, token, Put(take, last, best))).ckpts;
            && take in after && after == db.ckpts[take := after[take]]
            && var c := after[take];
               && c.job == Some(id) && c.token == Some(token)
               && c.reached == last.reached && c.esr == last.esr && c.sha == last.sha
               && c.nam == last.nam && c.ckpt == last.ckpt
               && (best.Some? && (take in db.ckpts ==> Lower(best.value.esr, db.ckpts[take].bestEsr)) ==>
                     && c.bestReached == Some(best.value.reached) && c.bestEsr == best.value.esr
                     && c.bestSha == Some(best.value.sha) && c.bestNam == Some(best.value.nam)
                     && c.bestCkpt == Some(best.value.ckpt))
               && (take in db.ckpts && (best.Some? ==> !Lower(best.value.esr, db.ckpts[take].bestEsr)) ==>
                     var was := db.ckpts[take];
                     && c.bestReached == was.bestReached && c.bestEsr == was.bestEsr && c.bestSha == was.bestSha
                     && c.bestNam == was.bestNam && c.bestCkpt == was.bestCkpt)
               && (take !in db.ckpts && best.None? ==>
                     c.bestReached.None? && c.bestEsr.None? && c.bestSha.None? && c.bestNam.None? && c.bestCkpt.None?)
  {
    hide JobsAfter, ResultsAfter, EpochsAfter, LogAfter;
  }

  /** A said figure against what is there: lower, or the first. */
  predicate Lower(offered: Option<real>, held: Option<real>) {
    match (offered, held)
    case (None, _) => false
    case (Some(_), None) => true
    case (Some(v), Some(u)) => v < u
  }

  /** The answer tells a run that is still held and unmarked exactly what is asked of it,
      and anybody else nothing. */
  lemma AnswerSays(db: Db, id: JobId, token: Token)
    ensures var v := AnswerTo(db, id, token);
            && (v.mine <==> id in db.jobs && db.jobs[id].token == Some(token)
                            && db.jobs[id].state == Running && !db.jobs[id].paused)
            && (v.mine ==> v.stop == db.jobs[id].stop && v.cancel == db.jobs[id].cancel)
            && (!v.mine ==> !v.stop && !v.cancel)
  {
  }

  /** The app's asks and cron's mark move one flag each; closing a row moves its state. */
  lemma AsksRead(db: Db, id: JobId)
    requires id in db.jobs
    ensures Exec(db, AskStop(id)) == db.(jobs := db.jobs[id := db.jobs[id].(stop := true)])
    ensures Exec(db, AskCancel(id)) == db.(jobs := db.jobs[id := db.jobs[id].(cancel := true)])
    ensures db.jobs[id].state == Running ==>
              Exec(db, MarkSilent(id)).jobs == db.jobs[id := db.jobs[id].(paused := true)]
    ensures !Terminal(db.jobs[id].state) ==>
              Exec(db, AppCancel(id)) == db.(jobs := db.jobs[id := db.jobs[id].(state := Cancelled)])
    ensures Terminal(db.jobs[id].state) ==> Exec(db, AppCancel(id)) == db && Exec(db, MarkSilent(id)) == db
  {
    assert db.jobs[id := db.jobs[id]] == db.jobs;
  }

  /** A job is queued exactly when its take has no live one: a fresh row, nobody's. */
  lemma EnqueueReads(db: Db, req: Request)
    requires Fence.Issued(db)
    ensures var after := Exec(db, Enqueue(req));
            if req.take.Some?
               && exists k :: k in db.jobs && db.jobs[k].req.take == req.take && !Terminal(db.jobs[k].state)
            then after == db
            else
              && after.jobs.Keys == db.jobs.Keys + {db.nextJob} && after.nextJob == db.nextJob + 1
              && (forall k | k in db.jobs :: after.jobs[k] == db.jobs[k])
              && var j := after.jobs[db.nextJob];
                 && j.req == req && j.state == Queued && j.token.None? && !j.stop && !j.cancel && !j.paused
  {
    if req.take.Some? && exists k :: k in db.jobs && db.jobs[k].req.take == req.take && !Terminal(db.jobs[k].state) {
      var k :| k in db.jobs && db.jobs[k].req.take == req.take && !Terminal(db.jobs[k].state);
      assert LiveOn(db, req.take.value, k);
    }
  }

  /** Nothing but the row it names is moved by a statement. */
  lemma OtherRowsRest(db: Db, s: Stmt, k: JobId)
    requires Fence.Issued(db) && k in db.jobs
    requires s.Held? || s.Claim? || s.AskStop? || s.AskCancel? || s.AppCancel? || s.MarkSilent? ==> s.id != k
    ensures k in Exec(db, s).jobs && Exec(db, s).jobs[k] == db.jobs[k]
    ensures Lookup(Exec(db, s).results, k) == Lookup(db.results, k)
  {
    hide Touched, CkptsAfter, EpochsAfter, LogAfter;
  }

  // ---- what stands after a run ----

  /** The lines a run adds to the log: those said under a claim that was held. */
  function LinesSaid(db: Db, ss: seq<Stmt>): seq<LogLine>
    decreases |ss|
  {
    if ss == [] then []
    else
      (match ss[0]
       case Held(id, token, Log(line)) => if Holds(db, id, token) then [LogLine(id, token, line)] else []
       case _ => [])
      + LinesSaid(Exec(db, ss[0]), ss[1..])
  }

  /** The log is its held lines, each whole and in order, and nothing else. */
  lemma {:induction false} LogIsItsLines(db: Db, ss: seq<Stmt>)
    ensures Run(db, ss).log == db.log + LinesSaid(db, ss)
    decreases |ss|
  {
    hide JobsAfter, CkptsAfter, ResultsAfter, EpochsAfter;
    if ss != [] { LogIsItsLines(Exec(db, ss[0]), ss[1..]); }
  }

  /** What a run says of one epoch of one job last. */
  function EpochSaid(db: Db, ss: seq<Stmt>, id: JobId, e: int, was: Option<EpochRow>): Option<EpochRow>
    decreases |ss|
  {
    if ss == [] then was
    else
      var now :=
        match ss[0]
        case Held(j, token, Epoch(x, v, seconds)) =>
          if j == id && x == e && Holds(db, id, token)
          then Some(EpochRow(token, Sayable(v), if seconds > 0.0 then Some(seconds) else None))
          else was
        case _ => was;
      EpochSaid(Exec(db, ss[0]), ss[1..], id, e, now)
  }

  lemma EpochReads(db: Db, id: JobId, token: Token, e: int, v: Option<real>, seconds: real)
    requires Holds(db, id, token)
    ensures Lookup(Exec(db, Held(id, token, Epoch(e, v, seconds))).epochs, (id, e))
         == Some(EpochRow(token, Sayable(v), if seconds > 0.0 then Some(seconds) else None))
  {
    hide JobsAfter, CkptsAfter, ResultsAfter, LogAfter;
  }

  /** The row of an epoch is the newest held word on it: whose, its figure, its own cost. */
  lemma {:induction false} EpochIsNewest(db: Db, ss: seq<Stmt>, id: JobId, e: int)
    ensures Lookup(Run(db, ss).epochs, (id, e)) == EpochSaid(db, ss, id, e, Lookup(db.epochs, (id, e)))
    decreases |ss|
  {
    hide JobsAfter, CkptsAfter, ResultsAfter, LogAfter;
    if ss != [] { EpochIsNewest(Exec(db, ss[0]), ss[1..], id, e); }
  }

  /** How a run is going, as its row shows it. */
  datatype Going = Going(epoch: Option<int>, sPerEpoch: Option<real>, esr: Option<real>)

  function GoingOf(db: Db, id: JobId): Going {
    if id in db.jobs then Going(db.jobs[id].cols.epoch, db.jobs[id].cols.sPerEpoch, db.jobs[id].cols.esr)
    else Going(None, None, None)
  }

  /** One statement's word on it: a claim and a requeue forget the epoch and the rate, a
      progress write replaces both and the figure only if it says one, an ending has the last word on
      the figure. */
  function GoingAfter(db: Db, s: Stmt, id: JobId): Going {
    var was := GoingOf(db, id);
    match s
    case Claim(j, _, _) =>
      if j == id && id in db.jobs && Claimable(db.jobs[id]) then Going(None, None, was.esr) else was
    case Held(j, token, w) =>
      if j != id || !Holds(db, id, token) then was
      else (
        match w
        case Progress(e, rate, v) =>
          Going(Some(e), if rate > 0.0 then Some(rate) else None, if Sayable(v).Some? then v else was.esr)
        case Requeue => Going(None, None, was.esr)
        case CloseProbe(_, v) => was.(esr := Sayable(v))
        case Succeed(r) => if r.nam == [] then was else was.(esr := Sayable(r.esr))
        case _ => was)
    case _ => was
  }

  lemma GoingReads(db: Db, s: Stmt, id: JobId)
    requires Fence.Issued(db)
    ensures GoingOf(Exec(db, s), id) == GoingAfter(db, s, id)
  {
    hide CkptsAfter, ResultsAfter, EpochsAfter, LogAfter, RowAfter;
    if s.Held? && s.id == id && Holds(db, id, s.token) {
      HeldGoing(db.jobs[id], s.w);
    } else if Touches(db, s) && s.id == id {
      assert !s.Held?;
    }
  }

  lemma HeldGoing(j: Job, w: Write)
    ensures var c, d := j.cols, RowAfter(j, w).cols;
            match w
            case Progress(e, rate, v) =>
              && d.epoch == Some(e) && d.sPerEpoch == (if rate > 0.0 then Some(rate) else None)
              && d.esr == if Sayable(v).Some? then v else c.esr
            case Requeue => d.epoch.None? && d.sPerEpoch.None? && d.esr == c.esr
            case CloseProbe(_, v) => d.epoch == c.epoch && d.sPerEpoch == c.sPerEpoch && d.esr == Sayable(v)
            case Succeed(r) =>
              d.epoch == c.epoch && d.sPerEpoch == c.sPerEpoch && d.esr == if r.nam == [] then c.esr else Sayable(r.esr)
            case _ => d.epoch == c.epoch && d.sPerEpoch == c.sPerEpoch && d.esr == c.esr
  {
  }

  /** The newest progress of the claim that holds the row is what its row shows: after a
      progress write nothing else said under that claim, short of its end, changes it. */
  lemma {:induction false} ProgressStands(db: Db, ss: seq<Stmt>, id: JobId, token: Token)
    requires Fence.Issued(db) && Holds(db, id, token) && Holds(Run(db, ss), id, token)
    requires forall i | 0 <= i < |ss| :: !(Fence.Under(ss[i], id, token) && ss[i].w.Progress?)
    ensures GoingOf(Run(db, ss), id) == GoingOf(db, id)
    decreases |ss|
  {
    if ss != [] {
      hide Exec, GoingOf;
      Fence.Steps(db, ss[0]);
      var db' := Exec(db, ss[0]);
      if !Holds(db', id, token) { Fence.StaleForever(db', ss[1..], id, token); }
      GoingReads(db, ss[0], id);
      SteadyStep(db, ss[0], id, token);
      ProgressStands(db', ss[1..], id, token);
    }
  }

  lemma SteadyStep(db: Db, s: Stmt, id: JobId, token: Token)
    requires Fence.Issued(db) && Holds(db, id, token) && Holds(Exec(db, s), id, token)
    requires !(Fence.Under(s, id, token) && s.w.Progress?)
    ensures GoingAfter(db, s, id) == GoingOf(db, id)
  {
    hide CkptsAfter, ResultsAfter, EpochsAfter, LogAfter;
  }

  // ---- what is counted ----

  /** The events of a job's life, each told by what it did to the row: a claim puts it
      under the token minted there, a handover does so to a running row, a requeue takes a running
      row back, a mark marks one, an ending is the holder's word that leaves it not running. */
  lemma WhatIsCounted(db: Db, s: Stmt, id: JobId, token: Token)
    requires Fence.Issued(db)
    ensures var after := Exec(db, s);
            && (Fence.IsClaim(db, s, id) <==> id in after.jobs && after.jobs[id].token == Some(db.nextToken))
            && (Fence.IsHandover(db, s, id) <==>
                  && id in db.jobs && db.jobs[id].state == Running
                  && id in after.jobs && after.jobs[id].token == Some(db.nextToken))
            && (Fence.IsRequeue(db, s, id) <==>
                  id in db.jobs && db.jobs[id].state == Running && id in after.jobs && after.jobs[id].state == Queued)
            && (Fence.IsMark(db, s, id) <==>
                  id in db.jobs && !db.jobs[id].paused && id in after.jobs && after.jobs[id].paused)
  {
    hide CkptsAfter, ResultsAfter, EpochsAfter, LogAfter, RowAfter;
    if s.Held? && Touches(db, s) { HeldStates(db.jobs[s.id], s.w); }
  }

  lemma HeldStates(j: Job, w: Write)
    ensures var k := RowAfter(j, w);
            && k.paused == j.paused && (k.token == j.token || (k.token.None? && w.Requeue?))
            && (j.state == Running ==> (k.state == Queued <==> w.Requeue?))
  {
  }

  lemma EndingsCounted(db: Db, s: Stmt, id: JobId, token: Token)
    requires Fence.Issued(db) && Fence.Under(s, id, token) && Holds(db, id, token)
    ensures Fence.IsEnding(db, s, id, token) <==> Fence.Final(s.w) && !(s.w.Succeed? && s.w.result.nam == [])
  {
  }
}
