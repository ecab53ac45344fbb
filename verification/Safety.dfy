/** What every reachable state of the whole system keeps, and what follows from it. */
module Safety {
  import opened Types
  import opened Statements
  import opened Attempts
  import Fence
  import TakeWeights

  // ---- the invariant ----

  /** Some attempt of this very job wrote the pair. */
  ghost predicate Traced(s: Sys, id: JobId, reached: int, nam: Blob) {
    exists t, w :: t in s.attempts && w in s.attempts[t].made
                   && s.attempts[t].job == id && w.reached == reached && w.nam == nam
  }

  /** A figure stored beside `reached` was printed for the epoch before it, or is the
      exported model's own. */
  ghost predicate FigureRight(s: Sys, id: JobId, reached: int, esr: Option<real>) {
    esr.Some? ==>
      || OfEpoch(id, reached - 1, esr.value) in s.printed
      || (OfModel(id, esr.value) in s.printed && id in s.db.jobs && reached == s.db.jobs[id].req.epochs)
  }

  /** A row of weights some job put there: by a trained attempt of that job, whole. */
  ghost predicate Earned(s: Sys, id: JobId, c: Ckpt) {
    && c.job == Some(id) && id in s.db.jobs && s.db.jobs[id].req.kind != ProbeSelf
    && c.token.Some? && c.token.value in s.attempts
    && s.attempts[c.token.value].job == id
    && Weights(c.reached, c.nam, c.ckpt) in s.attempts[c.token.value].made
    && c.nam != [] && c.ckpt != []
    && c.sha == ShaOf(c.nam)
    && FigureRight(s, id, c.reached, c.esr)
  }

  /** A row of weights with nothing blank in it. */
  predicate WholeRow(c: Ckpt) {
    && c.nam != [] && c.ckpt != []
    && (c.bestNam.Some? ==> c.bestNam.value != []) && (c.bestCkpt.Some? ==> c.bestCkpt.value != [])
  }

  /** The take came into the run with whole weights or with none. */
  predicate SeedWhole(s: Sys, take: TakeId) {
    take in s.init.ckpts ==> WholeRow(s.init.ckpts[take])
  }

  predicate BestIs(c: Ckpt, b: Named) {
    && c.bestReached == Some(b.w.reached) && c.bestEsr == Positive(b.figure) && c.bestSha == Some(ShaOf(b.w.nam))
    && c.bestNam == Some(b.w.nam) && c.bestCkpt == Some(b.w.ckpt)
  }

  predicate NoBest(c: Ckpt) {
    c.bestReached.None? && c.bestEsr.None? && c.bestSha.None? && c.bestNam.None? && c.bestCkpt.None?
  }

  /** Some attempt at a training job of the take wrote the pair under that best name. */
  ghost predicate BestMade(s: Sys, take: TakeId, c: Ckpt) {
    exists t, b :: t in s.attempts && b in s.attempts[t].bests
                   && s.attempts[t].row.req.take == Some(take) && s.attempts[t].row.req.kind != ProbeSelf
                   && Whole(b.w) && BestIs(c, b)
  }

  /** The best columns of a take: none, or one pair made for it with the figure its name
      carries, or what the take came with. */
  ghost predicate BestRight(s: Sys, take: TakeId, c: Ckpt) {
    || NoBest(c)
    || BestMade(s, take, c)
    || (take in s.init.ckpts && TakeWeights.SameBest(c, s.init.ckpts[take]))
  }

  /** What a run resumes from: the take's weights as they stood when they were read. */
  ghost predicate ResumeRight(s: Sys, req: Request, readAt: nat, resume: Option<Blob>) {
    && readAt <= |s.stmts| && req.take.Some?
    && var c := Lookup(Run(s.init, s.stmts[..readAt]).ckpts, req.take.value);
       && (req.kind != ProbeSelf ==> resume == if c.Some? then Some(c.value.ckpt) else None)
       && (req.kind == TrainMore ==> resume.Some?)
       && (req.kind == ProbeSelf ==> resume.None?)
       && (SeedWhole(s, req.take.value) && resume.Some? ==> resume.value != [])
  }

  ghost predicate HeardRight(s: Sys, id: JobId, f: Option<(int, real)>) {
    f.Some? ==> OfEpoch(id, f.value.0, f.value.1) in s.printed
  }

  ghost predicate PhaseRight(s: Sys, a: Attempt) {
    match a.phase
    case Claimed => !a.spawned
    case AskRead(own) => !a.spawned && (own.Some? ==> Earned(s, a.job, own.value))
    case Ready(r) => !a.spawned && !a.row.cancel && !a.row.stop && ResumeRight(s, a.row.req, a.readAt, r)
    case Doomed(_) => !a.spawned && !a.row.cancel && !a.row.stop
    case Alive => a.spawned
    case Reaped(_) => a.spawned
    case Harvested(own) =>
      && a.spawned && a.row.req.kind != ProbeSelf && (a.reason == Some(ByStop) || a.reason == Some(ByPause))
      && (own.Some? ==> Earned(s, a.job, own.value))
    case Exporting =>
      && a.spawned && a.row.req.kind != ProbeSelf && a.model.Some?
      && a.reason != Some(ByLost) && a.reason != Some(ByCancel)
    case Over => true
  }

  ghost predicate LookRight(s: Sys, a: Attempt, last: Pair, best: Option<Pair>) {
    && a.row.req.kind != ProbeSelf
    && Weights(last.reached, last.nam, last.ckpt) in a.made && last.sha == ShaOf(last.nam)
    && last.nam != [] && last.ckpt != []
    && FigureRight(s, a.job, last.reached, last.esr)
    && (best.Some? ==> OfferRight(a, best.value))
  }

  /** A best pair on offer is one the trainer wrote, under the figure of its name. */
  ghost predicate OfferRight(a: Attempt, p: Pair) {
    exists b :: b in a.bests && Whole(b.w) && p == BestPair(b)
  }

  /** Whose attempt it is, and the asks it has heard of. */
  ghost predicate ClaimRight(s: Sys, t: Token, a: Attempt) {
    && t < s.db.nextToken
    && a.job in s.db.jobs && s.db.jobs[a.job].req == a.row.req && a.row.req.take.Some?
    && (a.row.cancel || a.reason == Some(ByCancel) || (a.answer.Some? && a.answer.value.cancel) ==>
          s.db.jobs[a.job].cancel)
  }

  /** The token was minted by the claim, and the take's weights are read after it. */
  ghost predicate SinceRight(s: Sys, t: Token, a: Attempt) {
    && a.claimedAt <= |s.stmts| && t < Run(s.init, s.stmts[..a.claimedAt]).nextToken
    && (a.spawned || a.phase.Ready? ==> a.claimedAt <= a.readAt)
  }

  ghost predicate SpawnRight(s: Sys, a: Attempt) {
    a.spawned ==> !a.row.cancel && !a.row.stop && ResumeRight(s, a.row.req, a.readAt, a.resume)
  }

  ghost predicate MadeRight(a: Attempt) {
    && (!a.spawned ==> a.made == {} && a.bests == {} && a.reason.None? && a.model.None?)
    && (a.model.Some? ==>
          && a.model.value in a.made && a.model.value.reached == a.row.req.epochs
          && a.model.value.nam != [])
  }

  ghost predicate OutputRight(s: Sys, a: Attempt) {
    && (a.modelEsr.Some? ==> OfModel(a.job, a.modelEsr.value) in s.printed)
    && HeardRight(s, a.job, a.parsed) && HeardRight(s, a.job, a.heard)
  }

  ghost predicate SaverRight(s: Sys, a: Attempt) {
    && (!a.look.Resting? ==> a.row.req.kind != ProbeSelf)
    && (a.look.Took? ==> HeardRight(s, a.job, a.look.told))
    && (a.look.Found? ==>
          && HeardRight(s, a.job, a.look.told) && a.look.w in a.made && Whole(a.look.w)
          && (a.look.beside.Some? ==> OfferRight(a, a.look.beside.value)))
    && (a.look.Bearing? ==> LookRight(s, a, a.look.last, a.look.best))
  }

  ghost predicate AttemptRight(s: Sys, t: Token, a: Attempt) {
    && ClaimRight(s, t, a) && SinceRight(s, t, a) && PhaseRight(s, a) && SpawnRight(s, a)
    && MadeRight(a) && OutputRight(s, a) && SaverRight(s, a)
  }

  /** The result table against the job table. */
  ghost predicate ResultRight(s: Sys, id: JobId) {
    && (id in s.db.results <==>
          id in s.db.jobs && s.db.jobs[id].state == Succeeded && s.db.jobs[id].req.kind != ProbeSelf)
    && (id in s.db.results ==>
          var r := s.db.results[id];
          && s.db.jobs[id].token == Some(r.token)
          && s.db.jobs[id].cols.reached == Some(r.epochs)
          && s.db.jobs[id].cols.esr == r.esr
          && r.sha == ShaOf(r.nam)
          && Traced(s, id, r.epochs, r.nam)
          && FigureRight(s, id, r.epochs, r.esr))
  }

  /** A token on a row is some attempt's, and that attempt is the row's. */
  ghost predicate HoldersRight(s: Sys) {
    forall id | id in s.db.jobs && s.db.jobs[id].token.Some? ::
      s.db.jobs[id].token.value in s.attempts && s.attempts[s.db.jobs[id].token.value].job == id
  }

  ghost predicate WeightsRight(s: Sys) {
    forall take | take in s.db.ckpts && s.db.ckpts[take].job.Some? ::
      Earned(s, s.db.ckpts[take].job.value, s.db.ckpts[take])
  }

  /** Nothing is ever blanked, and the best columns are never anybody's but the take's. */
  ghost predicate BestsRight(s: Sys) {
    forall take | take in s.db.ckpts ::
      BestRight(s, take, s.db.ckpts[take]) && (SeedWhole(s, take) ==> WholeRow(s.db.ckpts[take]))
  }

  /** Every checkpoint write ever sent was for its own job's take. */
  ghost predicate PutsRight(s: Sys) {
    forall i | 0 <= i < |s.stmts| && s.stmts[i].Held? && s.stmts[i].w.Put? ::
      s.stmts[i].id in s.db.jobs && s.db.jobs[s.stmts[i].id].req.take == Some(s.stmts[i].w.take)
  }

  ghost predicate ResultsRight(s: Sys) {
    forall id: JobId :: ResultRight(s, id)
  }

  ghost predicate EpochsRight(s: Sys) {
    forall id, e | (id, e) in s.db.epochs && s.db.epochs[(id, e)].esr.Some? ::
      OfEpoch(id, e, s.db.epochs[(id, e)].esr.value) in s.printed
  }

  ghost predicate CancelsRight(s: Sys) {
    forall id | id in s.db.jobs && s.db.jobs[id].state == Cancelled ::
      s.db.jobs[id].cancel || Fence.AppClosed(s.init, s.stmts, id)
  }

  ghost predicate DbRight(s: Sys) {
    && Fence.Issued(s.db) && HoldersRight(s) && WeightsRight(s) && BestsRight(s) && PutsRight(s)
    && ResultsRight(s) && EpochsRight(s) && CancelsRight(s)
  }

  ghost predicate Inv(s: Sys) {
    && s.init.jobs == map[] && s.db == Run(s.init, s.stmts)
    && DbRight(s)
    && forall t | t in s.attempts :: AttemptRight(s, t, s.attempts[t])
  }

  // ---- what only grows ----

  ghost predicate Grows(s: Sys, s': Sys) {
    && s'.init == s.init && s.stmts <= s'.stmts
    && s.db.nextToken <= s'.db.nextToken
    && (forall id | id in s.db.jobs :: id in s'.db.jobs && s'.db.jobs[id].req == s.db.jobs[id].req
                                       && (s.db.jobs[id].cancel ==> s'.db.jobs[id].cancel))
    && (forall t | t in s.attempts :: t in s'.attempts && s'.attempts[t].job == s.attempts[t].job
                                      && s'.attempts[t].row == s.attempts[t].row
                                      && s.attempts[t].made <= s'.attempts[t].made
                                      && s.attempts[t].bests <= s'.attempts[t].bests)
    && s.printed <= s'.printed
  }

  lemma TracedGrows(s: Sys, s': Sys, id: JobId, reached: int, nam: Blob)
    requires Grows(s, s') && Traced(s, id, reached, nam)
    ensures Traced(s', id, reached, nam)
  {
    var t, w :| t in s.attempts && w in s.attempts[t].made
                && s.attempts[t].job == id && w.reached == reached && w.nam == nam;
    assert t in s'.attempts && w in s'.attempts[t].made;
  }

  lemma EarnedGrows(s: Sys, s': Sys, id: JobId, c: Ckpt)
    requires Grows(s, s') && Earned(s, id, c)
    ensures Earned(s', id, c)
  {
  }

  lemma ResumeGrows(s: Sys, s': Sys, req: Request, readAt: nat, r: Option<Blob>)
    requires Grows(s, s') && ResumeRight(s, req, readAt, r)
    ensures ResumeRight(s', req, readAt, r)
  {
    assert s'.stmts[..readAt] == s.stmts[..readAt];
  }

  lemma BestGrows(s: Sys, s': Sys, take: TakeId, c: Ckpt)
    requires Grows(s, s') && BestRight(s, take, c)
    ensures BestRight(s', take, c)
  {
    hide WholeRow, TakeWeights.SameBest, NoBest;
    if BestMade(s, take, c) {
      var t, b :| t in s.attempts && b in s.attempts[t].bests
                  && s.attempts[t].row.req.take == Some(take) && s.attempts[t].row.req.kind != ProbeSelf
                  && Whole(b.w) && BestIs(c, b);
      assert t in s'.attempts && b in s'.attempts[t].bests;
    }
  }

  lemma SinceGrows(s: Sys, s': Sys, t: Token, a: Attempt)
    requires Grows(s, s') && SinceRight(s, t, a)
    ensures SinceRight(s', t, a)
  {
    hide Run;
    assert s'.stmts[..a.claimedAt] == s.stmts[..a.claimedAt];
  }

  lemma AttemptGrows(s: Sys, s': Sys, t: Token, a: Attempt)
    requires Grows(s, s') && AttemptRight(s, t, a)
    ensures AttemptRight(s', t, a)
  {
    SinceGrows(s, s', t, a);
    hide SinceRight;
    if a.spawned { ResumeGrows(s, s', a.row.req, a.readAt, a.resume); }
    match a.phase {
      case Ready(r) => ResumeGrows(s, s', a.row.req, a.readAt, r);
      case AskRead(own) => if own.Some? { EarnedGrows(s, s', a.job, own.value); }
      case Harvested(own) => if own.Some? { EarnedGrows(s, s', a.job, own.value); }
      case _ =>
    }
  }

  lemma NextGrows(s: Sys, step: Step)
    requires Fence.Issued(s.db) && Enabled(s, step)
    requires forall t | t in s.attempts :: t < s.db.nextToken
    ensures Grows(s, Next(s, step))
  {
    hide Touched, CkptsAfter, ResultsAfter, EpochsAfter, LogAfter, WriteOf, Moved, Prints, CanMove;
    var st := StmtOf(s, step);
    if st.Some? { Fence.Steps(s.db, st.value); }
    match step {
      case Outside(_) =>
      case Claims(_, _, _) =>
      case Takes(t, m) => MovedGrows(s.db, |s.stmts|, t, s.attempts[t], m);
    }
  }

  lemma InvGrows(s: Sys, step: Step)
    requires Inv(s) && Enabled(s, step)
    ensures Grows(s, Next(s, step))
    ensures forall t | t in s.attempts :: t < s.db.nextToken
  {
    hide Grows, Next, Enabled, PhaseRight, SpawnRight, MadeRight, OutputRight, SaverRight, Run;
    forall t | t in s.attempts ensures t < s.db.nextToken { assert AttemptRight(s, t, s.attempts[t]); }
    NextGrows(s, step);
  }

  lemma MovedGrows(db: Db, now: nat, t: Token, a: Attempt, m: Move)
    requires CanMove(a, m) && a.row.req.take.Some?
    ensures var a' := Moved(db, now, t, a, m);
            && a'.job == a.job && a'.row == a.row && a'.claimedAt == a.claimedAt
            && a.made <= a'.made && a.bests <= a'.bests
  {
  }

  // ---- the moving attempt ----

  lemma MovedRight(s: Sys, s': Sys, t: Token, m: Move)
    requires Inv(s) && Enabled(s, Takes(t, m)) && s' == Next(s, Takes(t, m)) && Grows(s, s')
    ensures AttemptRight(s', t, s'.attempts[t])
  {
    var a := s.attempts[t];
    AttemptGrows(s, s', t, a);
    OwnEarned(s, s', a, true);
    MaterializedRight(s, s', a);
    if m.Attribute? { LookedRight(s, s', t, m); }
    assert a.claimedAt <= |s.stmts| by { assert SinceRight(s, t, a); }
    PartsMoved(s.db, |s.stmts|, s', t, a, m);
  }

  lemma PartsMoved(db: Db, now: nat, s': Sys, t: Token, a: Attempt, m: Move)
    requires CanMove(a, m) && a.row.req.take.Some? && AttemptRight(s', t, a) && Prints(a, m) <= s'.printed
    requires a.job in db.jobs ==> a.job in s'.db.jobs && (db.jobs[a.job].cancel ==> s'.db.jobs[a.job].cancel)
    requires var own := OwnRow(db, a, true); own.Some? ==> Earned(s', a.job, own.value)
    requires var p := Materialized(db, a); p.Ready? ==> ResumeRight(s', a.row.req, now, p.resume)
    requires m.Attribute? ==> AttributedRight(db, s', a, m.known)
    requires a.claimedAt <= now
    ensures AttemptRight(s', t, Moved(db, now, t, a, m))
  {
    hide CanMove, Moved, SinceRight, MadeRight, SaverRight, OwnRow, Materialized;
    ClaimMoved(db, now, s', t, a, m);
    SinceMoved(db, now, s', t, a, m);
    PhaseMoved(db, now, s', t, a, m);
    SpawnMoved(db, now, s', t, a, m);
    MadeMoved(db, now, t, a, m);
    OutputMoved(db, now, s', t, a, m);
    SaverMoved(db, now, s', t, a, m);
  }

  /** An attempt is moved by a cancel only where it heard of one. */
  lemma HearsOfCancel(db: Db, now: nat, t: Token, a: Attempt, m: Move)
    requires CanMove(a, m) && a.row.req.take.Some?
    ensures var a' := Moved(db, now, t, a, m);
            && (a'.reason == Some(ByCancel) ==> a.reason == Some(ByCancel) || (a.answer.Some? && a.answer.value.cancel))
            && (a'.answer.Some? ==> a'.answer == a.answer || a'.answer == Some(AnswerTo(db, a.job, t)))
  {
    hide OwnRow, Materialized, PlanOf, FigureFor, AnswerTo, TakeWeights.SentAfter;
  }

  lemma ClaimMoved(db: Db, now: nat, s': Sys, t: Token, a: Attempt, m: Move)
    requires CanMove(a, m) && a.row.req.take.Some? && ClaimRight(s', t, a)
    requires a.job in db.jobs ==> a.job in s'.db.jobs && (db.jobs[a.job].cancel ==> s'.db.jobs[a.job].cancel)
    ensures ClaimRight(s', t, Moved(db, now, t, a, m))
  {
    hide Moved, CanMove;
    MovedGrows(db, now, t, a, m);
    HearsOfCancel(db, now, t, a, m);
  }

  lemma SinceMoved(db: Db, now: nat, s': Sys, t: Token, a: Attempt, m: Move)
    requires CanMove(a, m) && a.row.req.take.Some? && SinceRight(s', t, a) && a.claimedAt <= now
    ensures SinceRight(s', t, Moved(db, now, t, a, m))
  {
    hide OwnRow, PlanOf, FigureFor, Run, AnswerTo;
  }

  lemma PhaseMoved(db: Db, now: nat, s': Sys, t: Token, a: Attempt, m: Move)
    requires CanMove(a, m) && a.row.req.take.Some? && PhaseRight(s', a) && a.job in s'.db.jobs
    requires a.spawned ==> !a.row.cancel && !a.row.stop
    requires var own := OwnRow(db, a, true); own.Some? ==> Earned(s', a.job, own.value)
    requires var p := Materialized(db, a); p.Ready? ==> ResumeRight(s', a.row.req, now, p.resume)
    ensures PhaseRight(s', Moved(db, now, t, a, m))
  {
    hide Earned, ResumeRight, FigureRight, PlanOf, FigureFor, AnswerTo, TakeWeights.SentAfter;
    if a.phase.Reaped? { ClassifyPromises(a.row.req.kind, a.reason, a.phase.exit, a.model.Some?); }
  }

  lemma SpawnMoved(db: Db, now: nat, s': Sys, t: Token, a: Attempt, m: Move)
    requires CanMove(a, m) && a.row.req.take.Some? && PhaseRight(s', a) && SpawnRight(s', a)
    ensures SpawnRight(s', Moved(db, now, t, a, m))
  {
    hide Earned, FigureRight, PlanOf, OwnRow, Materialized, ResumeRight, AnswerTo, FigureFor;
  }

  lemma MadeMoved(db: Db, now: nat, t: Token, a: Attempt, m: Move)
    requires CanMove(a, m) && a.row.req.take.Some? && MadeRight(a)
    requires a.phase == Alive ==> a.spawned
    ensures MadeRight(Moved(db, now, t, a, m))
  {
    hide OwnRow, Materialized, PlanOf, FigureFor, AnswerTo;
  }

  lemma OutputMoved(db: Db, now: nat, s': Sys, t: Token, a: Attempt, m: Move)
    requires CanMove(a, m) && a.row.req.take.Some? && OutputRight(s', a) && Prints(a, m) <= s'.printed
    ensures OutputRight(s', Moved(db, now, t, a, m))
  {
    hide OwnRow, Materialized, PlanOf, FigureFor, AnswerTo;
  }

  lemma SaverMoved(db: Db, now: nat, s': Sys, t: Token, a: Attempt, m: Move)
    requires CanMove(a, m) && a.row.req.take.Some? && SaverRight(s', a) && HeardRight(s', a.job, a.heard)
    requires m.Attribute? ==> AttributedRight(db, s', a, m.known)
    ensures SaverRight(s', Moved(db, now, t, a, m))
  {
    if LookMove(m) {
      LookMoved(db, now, s', t, a, m);
    } else {
      hide Moved, CanMove, FigureRight;
      LookKept(db, now, t, a, m);
      MovedGrows(db, now, t, a, m);
      OffersGrow(a, Moved(db, now, t, a, m));
    }
  }

  predicate LookMove(m: Move) {
    m.TakeFigure? || m.ReadDisk? || m.Attribute? || m.PutLook? || m.LoseLook?
  }

  lemma LookKept(db: Db, now: nat, t: Token, a: Attempt, m: Move)
    requires CanMove(a, m) && a.row.req.take.Some? && !LookMove(m)
    ensures Moved(db, now, t, a, m).look == a.look
  {
    hide OwnRow, Materialized, PlanOf, FigureFor, AnswerTo;
  }

  lemma LookMoved(db: Db, now: nat, s': Sys, t: Token, a: Attempt, m: Move)
    requires CanMove(a, m) && a.row.req.take.Some? && SaverRight(s', a) && HeardRight(s', a.job, a.heard) && LookMove(m)
    requires m.Attribute? ==> AttributedRight(db, s', a, m.known)
    ensures SaverRight(s', Moved(db, now, t, a, m))
  {
    hide OwnRow, Materialized, PlanOf, FigureFor, AnswerTo, FigureRight, TakeWeights.SentAfter;
    var a' := Moved(db, now, t, a, m);
    match m {
      case ReadDisk(w, best) =>
        if best.Some? { assert a'.look.beside == Some(BestPair(best.value)) && OfferRight(a', BestPair(best.value)); }
      case Attribute(known) =>
        assert a'.look.last == PairOf(a.look.w, FigureFor(db, a.job, a.look.told, a.look.w.reached, known));
      case _ =>
    }
  }

  ghost predicate AttributedRight(db: Db, s: Sys, a: Attempt, known: bool) {
    a.look.Found? ==>
      FigureRight(s, a.job, a.look.w.reached, FigureFor(db, a.job, a.look.told, a.look.w.reached, known))
  }

  lemma OffersGrow(a: Attempt, a': Attempt)
    ensures a.bests <= a'.bests ==> forall p | OfferRight(a, p) :: OfferRight(a', p)
  {
  }

  lemma LookedRight(s: Sys, s': Sys, t: Token, m: Move)
    requires Inv(s) && m.Attribute? && Enabled(s, Takes(t, m)) && Grows(s, s')
    ensures AttributedRight(s.db, s', s.attempts[t], m.known)
  {
    assert AttemptRight(s, t, s.attempts[t]);
  }

  lemma OwnEarned(s: Sys, s': Sys, a: Attempt, readable: bool)
    requires Inv(s) && Grows(s, s') && a.row.req.take.Some?
    ensures var own := OwnRow(s.db, a, readable); own.Some? ==> Earned(s', a.job, own.value)
  {
    var own := OwnRow(s.db, a, readable);
    if own.Some? { EarnedGrows(s, s', a.job, own.value); }
  }

  lemma MaterializedRight(s: Sys, s': Sys, a: Attempt)
    requires Inv(s) && Grows(s, s') && a.row.req.take.Some?
    ensures var p := Materialized(s.db, a);
            p.Ready? ==> ResumeRight(s', a.row.req, |s.stmts|, p.resume)
  {
    assert s'.stmts[..|s.stmts|] == s.stmts;
    var take := a.row.req.take.value;
    if take in s.db.ckpts { assert SeedWhole(s, take) ==> WholeRow(s.db.ckpts[take]); }
  }

  // ---- the tables ----

  /** What a daemon's write may say. */
  ghost predicate Honest(s: Sys, st: Stmt) {
    st.Held? ==>
      && st.token in s.attempts && s.attempts[st.token].job == st.id && st.id in s.db.jobs
      && match st.w
         case Put(take, last, best) =>
           && s.db.jobs[st.id].req.take == Some(take) && s.attempts[st.token].row.req == s.db.jobs[st.id].req
           && s.db.jobs[st.id].req.kind != ProbeSelf && LookRight(s, s.attempts[st.token], last, best)
         case Succeed(r) =>
           s.db.jobs[st.id].req.kind != ProbeSelf && Traced(s, st.id, r.reached, r.nam)
           && FigureRight(s, st.id, r.reached, r.esr)
         case CloseProbe(_, _) => s.db.jobs[st.id].req.kind == ProbeSelf
         case CloseCancelled => s.db.jobs[st.id].cancel
         case Epoch(e, v, _) => v.Some? ==> OfEpoch(st.id, e, v.value) in s.printed
         case _ => true
  }

  lemma WriteHonest(s: Sys, t: Token, m: Move)
    requires Enabled(s, Takes(t, m)) && AttemptRight(s, t, s.attempts[t]) && WriteOf(s.attempts[t], m).Some?
    ensures Honest(s, Held(s.attempts[t].job, t, WriteOf(s.attempts[t], m).value))
  {
    hide ResumeRight;
    var a := s.attempts[t];
    match m {
      case File => ModelTraced(s, t);
      case CloseAskedStop => if a.phase.own.Some? { EarnedTraced(s, a.job, a.phase.own.value); }
      case Classify(io, msg) => ClassifyHonest(s, t, io, msg);
      case Conclude(io, msg) => ConcludeHonest(s, t, io, msg);
      case _ =>
    }
  }

  lemma ModelTraced(s: Sys, t: Token)
    requires t in s.attempts && AttemptRight(s, t, s.attempts[t]) && s.attempts[t].model.Some?
    ensures var a := s.attempts[t]; Traced(s, a.job, a.row.req.epochs, a.model.value.nam)
  {
    assert s.attempts[t].model.value in s.attempts[t].made;
  }

  lemma EarnedTraced(s: Sys, id: JobId, c: Ckpt)
    requires Earned(s, id, c)
    ensures Traced(s, id, c.reached, c.nam)
  {
    assert Weights(c.reached, c.nam, c.ckpt) in s.attempts[c.token.value].made;
  }

  lemma ClassifyHonest(s: Sys, t: Token, io: Io, msg: string)
    requires t in s.attempts && AttemptRight(s, t, s.attempts[t]) && s.attempts[t].phase.Reaped?
    requires s.attempts[t].row.req.take.Some?
    ensures var w := ClassifyWrite(s.attempts[t], io, msg);
            w.Some? ==> Honest(s, Held(s.attempts[t].job, t, w.value))
  {
  }

  lemma ConcludeHonest(s: Sys, t: Token, io: Io, msg: string)
    requires t in s.attempts && AttemptRight(s, t, s.attempts[t]) && s.attempts[t].phase.Harvested?
    requires s.attempts[t].row.req.take.Some?
    ensures var w := ConcludeWrite(s.attempts[t], io, msg);
            w.Some? ==> Honest(s, Held(s.attempts[t].job, t, w.value))
  {
    var own := s.attempts[t].phase.own;
    if own.Some? { EarnedTraced(s, s.attempts[t].job, own.value); }
  }

  lemma ResultStays(s: Sys, s': Sys, st: Stmt, id: JobId)
    requires Fence.Issued(s.db) && ResultRight(s, id) && Honest(s, st) && Grows(s, s') && s'.db == Exec(s.db, st)
    ensures ResultRight(s', id)
  {
    Fence.Steps(s.db, st);
    if id in s.db.results {
      TracedGrows(s, s', id, s.db.results[id].epochs, s.db.results[id].nam);
    }
    if st.Held? && st.id == id && Holds(s.db, id, st.token) {
      WrittenResult(s, s', st);
    } else if id in s.db.jobs {
      UnwrittenResult(s, s', st, id);
    }
  }

  /** A held write under the row's own claim: the result appears with the success. */
  lemma WrittenResult(s: Sys, s': Sys, st: Stmt)
    requires st.Held? && Holds(s.db, st.id, st.token)
    requires ResultRight(s, st.id) && Honest(s, st) && Grows(s, s') && s'.db == Exec(s.db, st)
    ensures ResultRight(s', st.id)
  {
    assert s'.db.jobs[st.id] == RowAfter(s.db.jobs[st.id], st.w);
    if st.w.Succeed? { TracedGrows(s, s', st.id, st.w.result.reached, st.w.result.nam); }
  }

  lemma UnwrittenResult(s: Sys, s': Sys, st: Stmt, id: JobId)
    requires id in s.db.jobs && !(st.Held? && st.id == id && Holds(s.db, id, st.token))
    requires Fence.Issued(s.db) && ResultRight(s, id) && Grows(s, s') && s'.db == Exec(s.db, st)
    requires id in s.db.results ==> Traced(s', id, s.db.results[id].epochs, s.db.results[id].nam)
    ensures ResultRight(s', id)
  {
    hide CkptsAfter, EpochsAfter, LogAfter;
    assert Lookup(s'.db.results, id) == Lookup(s.db.results, id);
  }

  lemma CkptsStay(s: Sys, s': Sys, st: Stmt, take: TakeId)
    requires WeightsRight(s) && Honest(s, st) && Grows(s, s') && s'.db == Exec(s.db, st)
    requires take in s'.db.ckpts && s'.db.ckpts[take].job.Some?
    ensures Earned(s', s'.db.ckpts[take].job.value, s'.db.ckpts[take])
  {
    hide JobsAfter, ResultsAfter, EpochsAfter, LogAfter;
    if take in s.db.ckpts && s'.db.ckpts[take] == s.db.ckpts[take] {
      EarnedGrows(s, s', s.db.ckpts[take].job.value, s.db.ckpts[take]);
    } else {
      assert st.Held? && st.w.Put? && st.w.take == take;
    }
  }

  /** An accepted write leaves a take whole, its best columns the old ones or the offer's. */
  lemma BestsStay(s: Sys, s': Sys, st: Stmt, take: TakeId)
    requires BestsRight(s) && Honest(s, st) && Grows(s, s') && s'.db == Exec(s.db, st)
    requires take in s'.db.ckpts
    ensures BestRight(s', take, s'.db.ckpts[take]) && (SeedWhole(s', take) ==> WholeRow(s'.db.ckpts[take]))
  {
    hide JobsAfter, ResultsAfter, EpochsAfter, LogAfter, BestRight;
    if take in s.db.ckpts { BestGrows(s, s', take, s.db.ckpts[take]); }
    if !TakeWeights.Accepted(s.db, st, take) {
      assert s'.db.ckpts[take] == s.db.ckpts[take];
    } else {
      Upserted(s, s', st, take);
    }
  }

  lemma Upserted(s: Sys, s': Sys, st: Stmt, take: TakeId)
    requires BestsRight(s) && Honest(s, st) && Grows(s, s') && TakeWeights.Accepted(s.db, st, take)
    requires take in s.db.ckpts ==> BestRight(s', take, s.db.ckpts[take])
    requires take in s'.db.ckpts
    requires s'.db.ckpts[take] == Upsert(Lookup(s.db.ckpts, take), Inserted(st.id, st.token, st.w.last, st.w.best))
    ensures BestRight(s', take, s'.db.ckpts[take]) && (SeedWhole(s', take) ==> WholeRow(s'.db.ckpts[take]))
  {
    hide FigureRight, Grows;
    var c, in' := s'.db.ckpts[take], Inserted(st.id, st.token, st.w.last, st.w.best);
    if take in s.db.ckpts && TakeWeights.SameBest(c, s.db.ckpts[take]) {
      SameBestRight(s', take, s.db.ckpts[take], c);
    } else {
      assert TakeWeights.SameBest(c, in');
      if st.w.best.Some? {
        OfferedBest(s, s', st, in');
        SameBestRight(s', take, in', c);
      }
    }
  }

  lemma SameBestRight(s: Sys, take: TakeId, c: Ckpt, c': Ckpt)
    requires BestRight(s, take, c) && TakeWeights.SameBest(c', c)
    ensures BestRight(s, take, c')
  {
    if BestMade(s, take, c) {
      var t, b :| t in s.attempts && b in s.attempts[t].bests
                  && s.attempts[t].row.req.take == Some(take) && s.attempts[t].row.req.kind != ProbeSelf
                  && Whole(b.w) && BestIs(c, b);
      assert BestIs(c', b);
    }
  }

  lemma OfferedBest(s: Sys, s': Sys, st: Stmt, c: Ckpt)
    requires st.Held? && st.w.Put? && st.w.best.Some? && Honest(s, st) && Grows(s, s')
    requires c == Inserted(st.id, st.token, st.w.last, st.w.best)
    ensures BestMade(s', st.w.take, c) && c.bestNam.value != [] && c.bestCkpt.value != []
  {
    var a := s.attempts[st.token];
    var b :| b in a.bests && Whole(b.w) && st.w.best.value == BestPair(b);
    assert st.token in s'.attempts && b in s'.attempts[st.token].bests && BestIs(c, b);
  }

  lemma PutsStay(s: Sys, s': Sys, st: Stmt)
    requires PutsRight(s) && Honest(s, st) && Grows(s, s') && s'.stmts == s.stmts + [st]
    ensures PutsRight(s')
  {
    hide LookRight, Traced, FigureRight;
  }

  lemma RunOneMore(s: Sys, st: Stmt)
    requires s.db == Run(s.init, s.stmts)
    ensures Exec(s.db, st) == Run(s.init, s.stmts + [st])
  {
    Fence.RunAppend(s.init, s.stmts, [st]);
    assert Run(s.db, [st]) == Exec(s.db, st);
  }

  /** Every table stays right under an honest statement. */
  lemma DbStays(s: Sys, step: Step, st: Stmt)
    requires Inv(s) && Enabled(s, step) && StmtOf(s, step) == Some(st) && Honest(s, st)
    ensures DbRight(Next(s, step))
  {
    hide ResultRight, Earned, Honest, Enabled, JobsAfter, CkptsAfter, ResultsAfter, EpochsAfter, LogAfter,
         AttemptRight, Run,
         HoldersRight, EpochsRight, CancelsRight, PutsRight, BestRight, WholeRow, SeedWhole, Grows;
    var s' := Next(s, step);
    InvGrows(s, step);
    Fence.Steps(s.db, st);
    forall id: JobId ensures ResultRight(s', id) { ResultStays(s, s', st, id); }
    forall take | take in s'.db.ckpts && s'.db.ckpts[take].job.Some?
      ensures Earned(s', s'.db.ckpts[take].job.value, s'.db.ckpts[take])
    {
      CkptsStay(s, s', st, take);
    }
    forall take | take in s'.db.ckpts
      ensures BestRight(s', take, s'.db.ckpts[take]) && (SeedWhole(s', take) ==> WholeRow(s'.db.ckpts[take]))
    {
      BestsStay(s, s', st, take);
    }
    PutsStay(s, s', st);
    EpochsStay(s, s', st);
    CancelsStay(s, s', st);
    HoldersStay(s, step, st);
  }

  lemma EpochsStay(s: Sys, s': Sys, st: Stmt)
    requires EpochsRight(s) && Honest(s, st) && Grows(s, s') && s'.db == Exec(s.db, st)
    ensures EpochsRight(s')
  {
    hide JobsAfter, CkptsAfter, ResultsAfter, LogAfter;
  }

  /** A held write cancels a row only on request. */
  lemma HeldCancels(j: Job, w: Write)
    requires j.state == Running
    ensures RowAfter(j, w).state == Cancelled && !j.cancel ==> w.CloseCancelled?
    ensures RowAfter(j, w).cancel == j.cancel
  {
  }

  lemma CancelsStay(s: Sys, s': Sys, st: Stmt)
    requires Fence.Issued(s.db) && CancelsRight(s) && Honest(s, st) && Grows(s, s')
    requires s'.db == Exec(s.db, st) && s'.stmts == s.stmts + [st] && s.db == Run(s.init, s.stmts)
    ensures CancelsRight(s')
  {
    hide CkptsAfter, ResultsAfter, EpochsAfter, LogAfter, RowAfter, Run, Fence.AppClosed;
    Fence.Steps(s.db, st);
    forall id | id in s'.db.jobs && s'.db.jobs[id].state == Cancelled
      ensures s'.db.jobs[id].cancel || Fence.AppClosed(s'.init, s'.stmts, id)
    {
      Fence.AppClosedMore(s.init, s.stmts, st, id);
      if st.Held? && Touches(s.db, st) { HeldCancels(s.db.jobs[st.id], st.w); }
      assert id in s.db.jobs;
    }
  }

  lemma HoldersStay(s: Sys, step: Step, st: Stmt)
    requires Inv(s) && Enabled(s, step) && StmtOf(s, step) == Some(st)
    ensures HoldersRight(Next(s, step))
  {
    hide CkptsAfter, ResultsAfter, LogAfter, EpochsAfter, AttemptRight, Touched,
         ResultsRight, WeightsRight, EpochsRight, Run, Moved;
    var s' := Next(s, step);
    InvGrows(s, step);
    Fence.Steps(s.db, st);
    forall id | id in s'.db.jobs && s'.db.jobs[id].token.Some?
      ensures s'.db.jobs[id].token.value in s'.attempts && s'.attempts[s'.db.jobs[id].token.value].job == id
    {
      if id in s.db.jobs && s.db.jobs[id].token == s'.db.jobs[id].token {
      } else {
        Fence.TouchedBy(s.db, st);
        assert st.Claim? && st.id == id;
      }
    }
  }

  lemma QuietStays(s: Sys, s': Sys)
    requires DbRight(s) && Grows(s, s') && s'.db == s.db && s'.stmts == s.stmts
    ensures DbRight(s')
  {
    forall id: JobId ensures ResultRight(s', id) {
      assert ResultRight(s, id);
      if id in s.db.results { TracedGrows(s, s', id, s.db.results[id].epochs, s.db.results[id].nam); }
    }
    forall take | take in s'.db.ckpts && s'.db.ckpts[take].job.Some?
      ensures Earned(s', s'.db.ckpts[take].job.value, s'.db.ckpts[take])
    {
      EarnedGrows(s, s', s.db.ckpts[take].job.value, s.db.ckpts[take]);
    }
    forall take | take in s'.db.ckpts ensures BestRight(s', take, s'.db.ckpts[take]) {
      BestGrows(s, s', take, s.db.ckpts[take]);
    }
  }

  lemma AttemptsStay(s: Sys, step: Step, t: Token)
    requires Inv(s) && Enabled(s, step) && t in Next(s, step).attempts
    ensures AttemptRight(Next(s, step), t, Next(s, step).attempts[t])
  {
    hide AttemptRight, HoldersRight, WeightsRight, ResultsRight, EpochsRight, CancelsRight,
         Run, Moved, WriteOf, Prints, Exec;
    var s' := Next(s, step);
    InvGrows(s, step);
    if step.Takes? && step.t == t {
      MovedRight(s, s', t, step.m);
    } else if t in s.attempts {
      assert s'.attempts[t] == s.attempts[t];
      AttemptGrows(s, s', t, s.attempts[t]);
    } else {
      FreshRight(s, step);
    }
  }

  lemma FreshRight(s: Sys, step: Step)
    requires Fence.Issued(s.db) && Enabled(s, step) && step.Claims? && s.db == Run(s.init, s.stmts)
    ensures s.db.nextToken in Next(s, step).attempts
    ensures AttemptRight(Next(s, step), s.db.nextToken, Next(s, step).attempts[s.db.nextToken])
  {
    hide Run;
    var st := Claim(step.id, step.worker, step.instance);
    RunOneMore(s, st);
    assert (s.stmts + [st])[..|s.stmts| + 1] == s.stmts + [st];
  }

  lemma TablesStay(s: Sys, step: Step)
    requires Inv(s) && Enabled(s, step)
    ensures DbRight(Next(s, step))
  {
    hide AttemptRight, DbRight, Exec, Moved, Run, WriteOf;
    var st := StmtOf(s, step);
    InvGrows(s, step);
    if st.Some? {
      if step.Takes? { WriteHonest(s, step.t, step.m); }
      DbStays(s, step, st.value);
    } else {
      QuietStays(s, Next(s, step));
    }
  }

  /** Every step of everybody keeps the invariant. */
  lemma InvStep(s: Sys, step: Step)
    requires Inv(s) && Enabled(s, step)
    ensures Inv(Next(s, step))
  {
    TablesStay(s, step);
    var st := StmtOf(s, step);
    if st.Some? { RunOneMore(s, st.value); }
    forall t | t in Next(s, step).attempts ensures AttemptRight(Next(s, step), t, Next(s, step).attempts[t]) {
      AttemptsStay(s, step, t);
    }
  }

  lemma {:induction false} InvAlways(s: Sys, steps: seq<Step>)
    requires Inv(s) && Runs(s, steps)
    ensures Inv(After(s, steps))
    decreases |steps|
  {
    if steps != [] {
      InvStep(s, steps[0]);
      InvAlways(Next(s, steps[0]), steps[1..]);
    }
  }

  lemma InitialInv(s: Sys)
    requires Initial(s)
    ensures Inv(s)
  {
  }
}
