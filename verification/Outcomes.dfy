/** The promises of the queue, for every run of the whole system: any number of
    attempts on any number of machines, interleaved with the app and cron. */
module Outcomes {
  import opened Types
  import opened Statements
  import opened Attempts
  import opened Safety
  import Fence
  import TakeWeights

  lemma Reached(s0: Sys, steps: seq<Step>)
    requires Initial(s0) && Runs(s0, steps)
    ensures Inv(After(s0, steps))
  {
    InitialInv(s0);
    InvAlways(s0, steps);
  }

  /** A result exists exactly for a succeeded training job; it carries the claim and the
      epoch count of its row, and the model and the count are one pair, written by the
      trainer of some attempt of that very job: never a parent's weights. Its figure is the
      row's, and was printed by that job for that very epoch or for the exported model. */
  lemma ResultProvenance(s0: Sys, steps: seq<Step>, id: JobId)
    requires Initial(s0) && Runs(s0, steps)
    ensures var s := After(s0, steps);
            && (id in s.db.results <==>
                  id in s.db.jobs && s.db.jobs[id].state == Succeeded && s.db.jobs[id].req.kind != ProbeSelf)
            && (id in s.db.results ==>
                  var r := s.db.results[id];
                  && s.db.jobs[id].token == Some(r.token) && s.db.jobs[id].cols.reached == Some(r.epochs)
                  && s.db.jobs[id].cols.esr == r.esr && r.sha == ShaOf(r.nam)
                  && (exists t, w :: t in s.attempts && w in s.attempts[t].made && s.attempts[t].job == id
                                     && w.reached == r.epochs && w.nam == r.nam)
                  && (r.esr.Some? ==>
                        || OfEpoch(id, r.epochs - 1, r.esr.value) in s.printed
                        || (OfModel(id, r.esr.value) in s.printed && r.epochs == s.db.jobs[id].req.epochs)))
  {
    hide Inv;
    Reached(s0, steps);
    ResultInReach(After(s0, steps), id);
  }

  lemma ResultInReach(s: Sys, id: JobId)
    requires Inv(s)
    ensures ResultRight(s, id)
  {
    hide ResultRight;
  }

  /** A cancelled job carries a cancel, or the app itself closed it: at some point of the
      history its statement found the row live. So a cancelled state written by a daemon
      implies a request. */
  lemma CancelledWasAsked(s0: Sys, steps: seq<Step>, id: JobId) returns (i: nat)
    requires Initial(s0) && Runs(s0, steps)
    requires id in After(s0, steps).db.jobs && After(s0, steps).db.jobs[id].state == Cancelled
    ensures var s := After(s0, steps);
            s.db.jobs[id].cancel
            || (i < |s.stmts| && s.stmts[i] == AppCancel(id)
                && var db := Run(s.init, s.stmts[..i]); id in db.jobs && !Terminal(db.jobs[id].state))
  {
    Reached(s0, steps);
    var s := After(s0, steps);
    i := 0;
    if !s.db.jobs[id].cancel { i := Fence.AppClosedAt(s.init, s.stmts, id); }
  }

  /** The statements a stretch of steps sends. */
  ghost function Sent(s: Sys, steps: seq<Step>): seq<Stmt>
    requires Runs(s, steps)
    decreases |steps|
  {
    if steps == [] then []
    else (if StmtOf(s, steps[0]).Some? then [StmtOf(s, steps[0]).value] else []) + Sent(Next(s, steps[0]), steps[1..])
  }

  /** The library sees a stretch of steps as the statements it sends, and nothing else. */
  lemma {:induction false} StepsAreTheirStatements(s: Sys, steps: seq<Step>)
    requires Runs(s, steps)
    ensures After(s, steps).db == Run(s.db, Sent(s, steps))
    decreases |steps|
  {
    hide Exec, AttemptsAfter, WriteOf, Enabled, StmtOf;
    if steps != [] {
      var s' := Next(s, steps[0]);
      StepsAreTheirStatements(s', steps[1..]);
      var st := StmtOf(s, steps[0]);
      if st.Some? {
        assert ([st.value] + Sent(s', steps[1..]))[1..] == Sent(s', steps[1..]);
      } else {
        assert [] + Sent(s', steps[1..]) == Sent(s', steps[1..]);
      }
    }
  }

  /** Once a cancel is on a job that has not succeeded, no continuation makes it succeed. */
  lemma CancelWins(s0: Sys, before: seq<Step>, after: seq<Step>, id: JobId)
    requires Initial(s0) && Runs(s0, before) && Runs(After(s0, before), after)
    requires var db := After(s0, before).db; id in db.jobs && db.jobs[id].cancel && db.jobs[id].state != Succeeded
    ensures var db := After(After(s0, before), after).db;
            id in db.jobs && db.jobs[id].state != Succeeded && id !in db.results
  {
    Reached(s0, before);
    var s := After(s0, before);
    StepsAreTheirStatements(s, after);
    assert ResultRight(s, id);
    Fence.CancelOutranksSuccess(s.db, Sent(s, after), id);
  }

  /** Once the row is no longer an attempt's, everything that attempt still sends can be
      struck from the run without changing the library. */
  lemma StragglersLeaveNoTrace(s0: Sys, before: seq<Step>, after: seq<Step>, t: Token)
    requires Initial(s0) && Runs(s0, before) && Runs(After(s0, before), after)
    requires var s := After(s0, before); t in s.attempts && !Holds(s.db, s.attempts[t].job, t)
    ensures var s := After(s0, before);
            After(s, after).db == Run(s.db, Fence.Without(Sent(s, after), s.attempts[t].job, t))
  {
    Reached(s0, before);
    var s := After(s0, before);
    assert AttemptRight(s, t, s.attempts[t]);
    StepsAreTheirStatements(s, after);
    Fence.StragglersAreInvisible(s.db, Sent(s, after), s.attempts[t].job, t);
  }

  /** An attempt told once that the run is no longer its own is told so ever after. */
  lemma LosersStayLost(s0: Sys, before: seq<Step>, after: seq<Step>, t: Token)
    requires Initial(s0) && Runs(s0, before) && Runs(After(s0, before), after)
    requires var s := After(s0, before); t in s.attempts && !AnswerTo(s.db, s.attempts[t].job, t).mine
    ensures !AnswerTo(After(After(s0, before), after).db, After(s0, before).attempts[t].job, t).mine
  {
    Reached(s0, before);
    var s := After(s0, before);
    assert AttemptRight(s, t, s.attempts[t]);
    StepsAreTheirStatements(s, after);
    Fence.LostForever(s.db, Sent(s, after), s.attempts[t].job, t);
  }

  /** What the take carried when its weights were read, as the history of accepted writes. */
  function HistoryAt(s: Sys, a: Attempt): seq<Ckpt>
    requires a.readAt <= |s.stmts| && a.row.req.take.Some?
  {
    var take := a.row.req.take.value;
    TakeWeights.Offers(s.init, s.stmts[..a.readAt], take, TakeWeights.Seed(s.init, take))
  }

  /** Every spawn of the train lane resumes from the last accepted write of its take as of
      a read after its own claim, or from nothing when there is none; a continuation never
      spawns from nothing, nor from empty bytes; a claim that found an ask on the row never
      spawns at all. */
  lemma SpawnResumes(s0: Sys, steps: seq<Step>, t: Token)
    requires Initial(s0) && Runs(s0, steps)
    requires t in After(s0, steps).attempts && After(s0, steps).attempts[t].spawned
    ensures var s := After(s0, steps);
            var a := s.attempts[t];
            && !a.row.stop && !a.row.cancel
            && a.claimedAt <= a.readAt <= |s.stmts| && a.row.req.take.Some?
            && var h := HistoryAt(s, a);
               && (a.row.req.kind != ProbeSelf ==> a.resume == if h == [] then None else Some(h[|h|-1].ckpt))
               && (a.row.req.kind == TrainMore ==> h != [])
               && (SeedWhole(s, a.row.req.take.value) && a.resume.Some? ==> a.resume.value != [])
  {
    Reached(s0, steps);
    var s := After(s0, steps);
    var a := s.attempts[t];
    InReach(s, t);
    hide AttemptRight, Inv;
    assert SpawnRight(s, a) && SinceRight(s, t, a);
    assert ResumeRight(s, a.row.req, a.readAt, a.resume);
    var take := a.row.req.take.value;
    TakeWeights.SeedFolds(s.init, take);
    TakeWeights.RowIsItsHistory(s.init, s.stmts[..a.readAt], take, TakeWeights.Seed(s.init, take));
    var h := HistoryAt(s, a);
    if h != [] { TakeWeights.LastIsNewest(h); }
  }

  /** A checkpoint write of the history that the fence let through. */
  predicate AcceptedAt(s: Sys, i: nat, take: TakeId) {
    i < |s.stmts| && TakeWeights.Accepted(Run(s.init, s.stmts[..i]), s.stmts[i], take)
  }

  /** Resume continuity: from its claim to any accepted write of its own, an attempt's are
      the only accepted writes on its take. */
  lemma OnlyItsOwnWrites(s0: Sys, steps: seq<Step>, t: Token, i: nat, k: nat)
    requires Initial(s0) && Runs(s0, steps) && t in After(s0, steps).attempts
    requires var s := After(s0, steps);
             var a := s.attempts[t];
             && a.row.req.take.Some? && a.claimedAt <= i <= k
             && AcceptedAt(s, i, a.row.req.take.value) && AcceptedAt(s, k, a.row.req.take.value)
             && s.stmts[k].id == a.job && s.stmts[k].token == t
    ensures After(s0, steps).stmts[i].id == After(s0, steps).attempts[t].job && After(s0, steps).stmts[i].token == t
  {
    Reached(s0, steps);
    var s := After(s0, steps);
    var a := s.attempts[t];
    InReach(s, t);
    hide AttemptRight;
    assert SinceRight(s, t, a);
    hide Run, SinceRight, HoldersRight, WeightsRight, BestsRight, ResultsRight, EpochsRight, CancelsRight;
    MintedBefore(s, t, i);
    PutThere(s, i);
    PutThere(s, k);
    TakeWeights.NoForeignWrite(s.init, s.stmts, i, k, a.row.req.take.value);
  }

  lemma MintedBefore(s: Sys, t: Token, i: nat)
    requires s.init.jobs == map[] && t in s.attempts && SinceRight(s, t, s.attempts[t])
    requires s.attempts[t].claimedAt <= i <= |s.stmts|
    ensures t < Run(s.init, s.stmts[..i]).nextToken
  {
    hide Run;
    var c := s.attempts[t].claimedAt;
    assert s.stmts[..i] == s.stmts[..c] + s.stmts[c..i];
    Fence.RunAppend(s.init, s.stmts[..c], s.stmts[c..i]);
    Fence.IssuedForever(s.init, s.stmts[..c]);
    Fence.IssuedForever(Run(s.init, s.stmts[..c]), s.stmts[c..i]);
  }

  lemma PutThere(s: Sys, i: nat)
    requires s.init.jobs == map[] && s.db == Run(s.init, s.stmts) && PutsRight(s)
    requires i < |s.stmts| && s.stmts[i].Held? && s.stmts[i].w.Put? && s.stmts[i].id in Run(s.init, s.stmts[..i]).jobs
    ensures Run(s.init, s.stmts[..i]).jobs[s.stmts[i].id].req.take == Some(s.stmts[i].w.take)
  {
    hide Run;
    assert s.stmts == s.stmts[..i] + s.stmts[i..];
    Fence.RunAppend(s.init, s.stmts[..i], s.stmts[i..]);
    Fence.IssuedForever(s.init, s.stmts[..i]);
    Fence.IssuedForever(Run(s.init, s.stmts[..i]), s.stmts[i..]);
  }

  /** So the row its first accepted write replaces is the very row it resumed from, unless
      the app dropped that in between. */
  lemma FirstWriteReplacesResumed(s0: Sys, steps: seq<Step>, t: Token, k: nat)
    requires Initial(s0) && Runs(s0, steps)
    requires t in After(s0, steps).attempts && After(s0, steps).attempts[t].spawned
    requires var s := After(s0, steps);
             var a := s.attempts[t];
             && a.row.req.take.Some? && a.readAt <= k && AcceptedAt(s, k, a.row.req.take.value)
             && s.stmts[k].id == a.job && s.stmts[k].token == t
             && (forall i | a.readAt <= i < k :: s.stmts[i] != DropWeights(a.row.req.take.value))
             && (forall i | a.readAt <= i < k :: !(Fence.Under(s.stmts[i], a.job, t) && s.stmts[i].w.Put?))
    ensures var s := After(s0, steps);
            var a := s.attempts[t];
            && a.readAt <= |s.stmts|
            && Lookup(Run(s.init, s.stmts[..k]).ckpts, a.row.req.take.value)
               == Lookup(Run(s.init, s.stmts[..a.readAt]).ckpts, a.row.req.take.value)
  {
    SpawnResumes(s0, steps, t);
    var s := After(s0, steps);
    var a := s.attempts[t];
    var take := a.row.req.take.value;
    hide Run, After, Runs, HistoryAt, TakeWeights.Accepted, AcceptedAt;
    forall i | a.readAt <= i < k ensures !AcceptedAt(s, i, take) {
      if AcceptedAt(s, i, take) {
        OnlyItsOwnWrites(s0, steps, t, i, k);
        AcceptedIsPut(s, i, take);
      }
    }
    AcceptedIsPut(s, k, take);
    LeftAloneBetween(s, a.readAt, k, take);
  }

  lemma AcceptedIsPut(s: Sys, i: nat, take: TakeId)
    requires AcceptedAt(s, i, take)
    ensures i < |s.stmts| && s.stmts[i].Held? && s.stmts[i].w.Put?
  {
  }

  lemma LeftAloneBetween(s: Sys, from: nat, to: nat, take: TakeId)
    requires from <= to <= |s.stmts|
    requires forall i | from <= i < to :: !AcceptedAt(s, i, take) && s.stmts[i] != DropWeights(take)
    ensures Lookup(Run(s.init, s.stmts[..to]).ckpts, take) == Lookup(Run(s.init, s.stmts[..from]).ckpts, take)
  {
    hide Run, TakeWeights.Accepted;
    var db, between := Run(s.init, s.stmts[..from]), s.stmts[from..to];
    forall n | 0 <= n < |between|
      ensures !TakeWeights.Accepted(Run(db, between[..n]), between[n], take) && between[n] != DropWeights(take)
    {
      var i := from + n;
      assert between[n] == s.stmts[i] && s.stmts[..i] == s.stmts[..from] + between[..n];
      Fence.RunAppend(s.init, s.stmts[..from], between[..n]);
      assert !AcceptedAt(s, i, take);
    }
    TakeWeights.LeftAlone(db, between, take);
    assert s.stmts[..to] == s.stmts[..from] + between;
    Fence.RunAppend(s.init, s.stmts[..from], between);
  }

  /** No step of any daemon takes a take's weights away. */
  lemma StepKeepsWeights(s: Sys, step: Step, take: TakeId)
    requires Enabled(s, step) && take in s.db.ckpts
    ensures take in Next(s, step).db.ckpts <==> step != Outside(DropWeights(take))
  {
    var st := StmtOf(s, step);
    if st.Some? { TakeWeights.OnlyADropDeletes(s.db, st.value, take); }
  }

  lemma {:induction false} StepsKeepWeights(s: Sys, steps: seq<Step>, take: TakeId)
    requires Runs(s, steps) && take in s.db.ckpts
    requires forall i | 0 <= i < |steps| :: steps[i] != Outside(DropWeights(take))
    ensures take in After(s, steps).db.ckpts
    decreases |steps|
  {
    hide Next, Enabled;
    if steps != [] {
      StepKeepsWeights(s, steps[0], take);
      StepsKeepWeights(Next(s, steps[0]), steps[1..], take);
    }
  }

  /** Over every run only the app's drop takes a take's weights away, and nobody ever blanks
      them: whatever attempts end, crash, are killed or lose the row, a take that has weights goes
      on having them, whole, unless it came into the run blank. */
  lemma WeightsSurvive(s0: Sys, before: seq<Step>, after: seq<Step>, take: TakeId)
    requires Initial(s0) && Runs(s0, before) && Runs(After(s0, before), after)
    requires take in After(s0, before).db.ckpts
    requires forall i | 0 <= i < |after| :: after[i] != Outside(DropWeights(take))
    ensures var s := After(After(s0, before), after);
            take in s.db.ckpts && (SeedWhole(s0, take) ==> WholeRow(s.db.ckpts[take]))
  {
    hide Next, Enabled, WholeRow;
    Reached(s0, before);
    var s := After(s0, before);
    InvAlways(s, after);
    StepsKeepWeights(s, after, take);
    InitStays(s0, before);
    InitStays(s, after);
  }

  /** At no point of any run does a take hold a blank pair, last or best, unless it came
      into the run with one. */
  lemma NeverBlank(s0: Sys, steps: seq<Step>, take: TakeId)
    requires Initial(s0) && Runs(s0, steps) && take in After(s0, steps).db.ckpts
    requires take in s0.db.ckpts ==> WholeRow(s0.db.ckpts[take])
    ensures WholeRow(After(s0, steps).db.ckpts[take])
  {
    hide Next, Enabled, WholeRow;
    Reached(s0, steps);
    InitStays(s0, steps);
    assert SeedWhole(After(s0, steps), take);
  }

  lemma {:induction false} InitStays(s: Sys, steps: seq<Step>)
    requires Runs(s, steps)
    ensures After(s, steps).init == s.init
    decreases |steps|
  {
    hide Enabled, StmtOf, AttemptsAfter;
    if steps != [] { InitStays(Next(s, steps[0]), steps[1..]); }
  }

  /** Any figure stored beside the last pair was printed for that pair's epoch by this very
      job, or is the exported model's own; the best columns are one pair some attempt at a job of
      the take wrote, under the figure its own name carries, or none, or what the take came
      with. */
  lemma StoredFigures(s0: Sys, steps: seq<Step>, take: TakeId)
    requires Initial(s0) && Runs(s0, steps)
    requires take in After(s0, steps).db.ckpts
    ensures var s := After(s0, steps);
            var c := s.db.ckpts[take];
            && (c.job.Some? ==>
                  && c.job.value in s.db.jobs
                  && (c.esr.Some? ==>
                        || OfEpoch(c.job.value, c.reached - 1, c.esr.value) in s.printed
                        || (OfModel(c.job.value, c.esr.value) in s.printed
                            && c.reached == s.db.jobs[c.job.value].req.epochs)))
            && (|| NoBest(c)
                || BestMade(s, take, c)
                || (take in s.init.ckpts && TakeWeights.SameBest(c, s.init.ckpts[take])))
  {
    hide Inv, BestMade, WholeRow;
    Reached(s0, steps);
    StoredRight(After(s0, steps), take);
  }

  lemma StoredRight(s: Sys, take: TakeId)
    requires Inv(s) && take in s.db.ckpts
    ensures BestRight(s, take, s.db.ckpts[take])
    ensures s.db.ckpts[take].job.Some? ==> Earned(s, s.db.ckpts[take].job.value, s.db.ckpts[take])
  {
    hide AttemptRight, Run, ResultsRight, PutsRight, BestRight, Earned;
  }

  /** What a look is going to write carries beside the last pair only a figure printed for
      that very epoch, though the figure was taken before the disk was read and the recorded
      one is asked for after; and beside the best pair only the figure of its own name. */
  lemma LookFigures(s0: Sys, steps: seq<Step>, t: Token, known: bool)
    requires Initial(s0) && Runs(s0, steps)
    requires Enabled(After(s0, steps), Takes(t, Attribute(known)))
    ensures LookIsRight(After(s0, steps), t, known)
  {
    hide AttemptRight, CanMove, Next, LookIsRight;
    Reached(s0, steps);
    var s := After(s0, steps);
    InReach(s, t);
    LooksRight(s, t, known);
  }

  ghost predicate LookIsRight(s: Sys, t: Token, known: bool)
    requires Enabled(s, Takes(t, Attribute(known)))
  {
    var a, a' := s.attempts[t], Next(s, Takes(t, Attribute(known))).attempts[t];
    && a'.look.Bearing?
    && var last, best := a'.look.last, a'.look.best;
       && last.reached == a.look.w.reached && last.nam == a.look.w.nam && last.ckpt == a.look.w.ckpt
       && last.nam != [] && last.ckpt != []
       && (last.esr.Some? ==> OfEpoch(a.job, last.reached - 1, last.esr.value) in s.printed)
       && (best.Some? ==> exists b :: b in a.bests && Whole(b.w) && best.value == BestPair(b))
  }

  lemma LooksRight(s: Sys, t: Token, known: bool)
    requires Enabled(s, Takes(t, Attribute(known))) && AttemptRight(s, t, s.attempts[t]) && EpochsRight(s)
    ensures LookIsRight(s, t, known)
  {
    hide ClaimRight, SinceRight, PhaseRight, SpawnRight, MadeRight, Exec, OwnRow, Materialized, PlanOf;
    var a := s.attempts[t];
    assert Next(s, Takes(t, Attribute(known))).attempts[t].look.last
        == PairOf(a.look.w, FigureFor(s.db, a.job, a.look.told, a.look.w.reached, known));
  }

  // ---- the saver's shortcut in the system ----

  /** The statements of a stretch of steps as they would be if one attempt's saver offered
      the best pair it found every time. */
  ghost function Offered(s: Sys, steps: seq<Step>, t: Token): seq<TakeWeights.Said>
    requires Runs(s, steps)
    decreases |steps|
  {
    if steps == [] then []
    else
      var st := StmtOf(s, steps[0]);
      (if st.Some? then [OfferedAs(s, steps[0], st.value, t)] else []) + Offered(Next(s, steps[0]), steps[1..], t)
  }

  function OfferedAs(s: Sys, step: Step, st: Stmt, t: Token): TakeWeights.Said
    requires Enabled(s, step) && StmtOf(s, step) == Some(st)
  {
    if step.Takes? && step.t == t && step.m.PutLook? then
      TakeWeights.Said(Held(st.id, st.token, Put(st.w.take, st.w.last, s.attempts[t].look.best)), step.m.heard)
    else TakeWeights.Said(st, true)
  }

  lemma {:induction false} SentIsThinned(s: Sys, steps: seq<Step>, t: Token)
    requires Runs(s, steps) && t in s.attempts && t < s.db.nextToken
    ensures Sent(s, steps) == TakeWeights.Thinned(Offered(s, steps, t), s.attempts[t].job, t, s.attempts[t].sent)
    decreases |steps|
  {
    if steps != [] {
      OneThinned(s, steps[0], t);
      hide Next, Enabled, StmtOf, TakeWeights.Thin, TakeWeights.SentAfter, OfferedAs;
      var s' := Next(s, steps[0]);
      SentIsThinned(s', steps[1..], t);
      var st, more := StmtOf(s, steps[0]), Offered(s', steps[1..], t);
      if st.Some? {
        var all := [OfferedAs(s, steps[0], st.value, t)] + more;
        assert all[1..] == more;
      } else {
        assert [] + more == more;
      }
    }
  }

  /** One step: the statement is the offer thinned, and what was sent moves along. */
  lemma OneThinned(s: Sys, step: Step, t: Token)
    requires Enabled(s, step) && t in s.attempts && t < s.db.nextToken
    ensures t in Next(s, step).attempts && t < Next(s, step).db.nextToken
    ensures var a, a' := s.attempts[t], Next(s, step).attempts[t];
            var st := StmtOf(s, step);
            && a'.job == a.job
            && (st.None? ==> a'.sent == a.sent)
            && (st.Some? ==>
                  var k := OfferedAs(s, step, st.value, t);
                  if TakeWeights.Offer(k.s, a.job, t) then
                    st.value == TakeWeights.Thinly(k.s, a.sent)
                    && a'.sent == TakeWeights.SentAfter(k.s.w.best, k.heard, a.sent)
                  else st.value == k.s && a'.sent == a.sent)
  {
    hide Exec, Materialized, OwnRow, PlanOf, FigureFor, AnswerTo, TakeWeights.Thin, TakeWeights.SentAfter;
    var st := StmtOf(s, step);
    if st.Some? {
      TokensGrow(s.db, st.value);
      if !(step.Takes? && step.t == t && step.m.PutLook?) { OthersThinNothing(s, step, t); }
    }
  }

  lemma TokensGrow(db: Db, st: Stmt)
    ensures db.nextToken <= Exec(db, st).nextToken
  {
  }

  /** Nobody but its saver offers a best pair under an attempt's claim. */
  lemma OthersThinNothing(s: Sys, step: Step, t: Token)
    requires Enabled(s, step) && t in s.attempts && StmtOf(s, step).Some?
    requires !(step.Takes? && step.t == t && step.m.PutLook?)
    ensures var st := StmtOf(s, step).value;
            TakeWeights.Offer(st, s.attempts[t].job, t) ==>
              forall sent :: TakeWeights.Thinly(st, sent) == st && TakeWeights.SentAfter(st.w.best, true, sent) == sent
  {
    hide PlanOf;
  }

  /** Every offer of one attempt is for its job's take. */
  lemma {:induction false} OffersOneTake(s: Sys, steps: seq<Step>, t: Token)
    requires Runs(s, steps) && t in s.attempts && t < s.db.nextToken && s.attempts[t].row.req.take.Some?
    ensures TakeWeights.OneTake(Offered(s, steps, t), s.attempts[t].job, t, s.attempts[t].row.req.take.value)
    decreases |steps|
  {
    if steps != [] {
      OneThinned(s, steps[0], t);
      OneTake(s, steps[0], t);
      hide Next, Enabled, StmtOf, OfferedAs, TakeWeights.Offer, TakeWeights.OneTake;
      var s' := Next(s, steps[0]);
      OffersOneTake(s', steps[1..], t);
      var st, more := StmtOf(s, steps[0]), Offered(s', steps[1..], t);
      if st.Some? {
        OneMoreOffer(OfferedAs(s, steps[0], st.value, t), more, s.attempts[t].job, t, s.attempts[t].row.req.take.value);
      } else {
        assert [] + more == more;
      }
    } else {
      NoOffers(s.attempts[t].job, t, s.attempts[t].row.req.take.value);
    }
  }

  lemma NoOffers(id: JobId, t: Token, take: TakeId)
    ensures TakeWeights.OneTake([], id, t, take)
  {
  }

  lemma OneMoreOffer(k: TakeWeights.Said, more: seq<TakeWeights.Said>, id: JobId, t: Token, take: TakeId)
    requires TakeWeights.Offer(k.s, id, t) ==> k.s.w.take == take
    requires TakeWeights.OneTake(more, id, t, take)
    ensures TakeWeights.OneTake([k] + more, id, t, take)
  {
  }

  lemma OneTake(s: Sys, step: Step, t: Token)
    requires Enabled(s, step) && t in s.attempts && t < s.db.nextToken
    ensures t in Next(s, step).attempts && Next(s, step).attempts[t].row == s.attempts[t].row
    ensures var st := StmtOf(s, step);
            st.Some? && TakeWeights.Offer(OfferedAs(s, step, st.value, t).s, s.attempts[t].job, t) ==>
              s.attempts[t].row.req.take == Some(st.value.w.take)
              && OfferedAs(s, step, st.value, t).s.w.take == st.value.w.take
  {
    hide Exec, Materialized, OwnRow, PlanOf, FigureFor, AnswerTo, TakeWeights.Thin, TakeWeights.SentAfter;
  }

  /** In the whole system: from a state in which an attempt has sent no best pair yet, the
      library goes exactly as it would if its saver offered the best pair every time, whatever
      everybody else does and whichever answers are lost, provided equal bytes mean equal
      pairs and the take's weights are not dropped while the claim can still write them. */
  lemma ShortcutIsInvisible(s0: Sys, before: seq<Step>, after: seq<Step>, t: Token)
    requires Initial(s0) && Runs(s0, before) && Runs(After(s0, before), after)
    requires var s := After(s0, before);
             && t in s.attempts && s.attempts[t].sent.None? && s.attempts[t].row.req.take.Some?
             && TakeWeights.BytesName(Offered(s, after, t), s.attempts[t].job, t)
             && TakeWeights.NoDropWhileMine(s.db, Offered(s, after, t), s.attempts[t].job, t,
                                            s.attempts[t].row.req.take.value)
    ensures var s := After(s0, before);
            After(s, after).db == Run(s.db, TakeWeights.Bare(Offered(s, after, t)))
  {
    hide TakeWeights.NoDropWhileMine, TakeWeights.BytesName, TakeWeights.Thinned, Run;
    Reached(s0, before);
    var s := After(s0, before);
    InReach(s, t);
    var a, ss := s.attempts[t], Offered(s, after, t);
    StepsAreTheirStatements(s, after);
    SentIsThinned(s, after, t);
    OffersOneTake(s, after, t);
    TakeWeights.ShortcutIsHarmless(s.db, ss, a.job, t, a.row.req.take.value);
  }

  // ---- endings ----

  /** A restart puts an in-flight job back for anyone to claim and keeps its weights; a
      cancel on it still keeps it back. */
  lemma RestartRequeues(s0: Sys, steps: seq<Step>, t: Token, io: Io, msg: string)
    requires Initial(s0) && Runs(s0, steps)
    requires var s := After(s0, steps);
             && Enabled(s, Takes(t, Classify(io, msg))) && Holds(s.db, s.attempts[t].job, t)
             && s.attempts[t].reason == Some(ByShutdown) && !s.attempts[t].phase.exit.clean
    ensures var s := After(s0, steps);
            var id, db := s.attempts[t].job, Next(s, Takes(t, Classify(io, msg))).db;
            && db.jobs[id].state == Queued && db.ckpts == s.db.ckpts
            && (Claimable(db.jobs[id]) <==> !s.db.jobs[id].cancel)
  {
    hide AttemptRight, Runs, After;
    Reached(s0, steps);
    var s := After(s0, steps);
    InReach(s, t);
    PutBackHere(s, t, io, msg);
  }

  lemma PutBackHere(s: Sys, t: Token, io: Io, msg: string)
    requires Enabled(s, Takes(t, Classify(io, msg))) && AttemptRight(s, t, s.attempts[t])
    requires Holds(s.db, s.attempts[t].job, t)
    requires s.attempts[t].reason == Some(ByShutdown) && !s.attempts[t].phase.exit.clean
    ensures var id, db := s.attempts[t].job, Next(s, Takes(t, Classify(io, msg))).db;
            && id in db.jobs && db.jobs[id].state == Queued && db.ckpts == s.db.ckpts
            && (Claimable(db.jobs[id]) <==> !s.db.jobs[id].cancel)
  {
    hide PhaseRight, SpawnRight, OutputRight, SaverRight, MadeRight, RowAfter, PlanOf;
    var a := s.attempts[t];
    var id := a.job;
    ClassifyPromises(a.row.req.kind, a.reason, a.phase.exit, a.model.Some?);
    assert Next(s, Takes(t, Classify(io, msg))).db == Exec(s.db, Held(id, t, Requeue));
    hide Next;
    PutBackRow(s.db, id, t);
  }

  lemma PutBackRow(db: Db, id: JobId, t: Token)
    requires Holds(db, id, t)
    ensures var after := Exec(db, Held(id, t, Requeue));
            && id in after.jobs && after.jobs[id].state == Queued && after.ckpts == db.ckpts
            && (Claimable(after.jobs[id]) <==> !db.jobs[id].cancel && db.jobs[id].req.take.Some?)
  {
    Fence.RequeuedIsClaimable(db, id, t);
  }

  /** Nobody holding `t` sends a write that closes the row or puts it back. */
  predicate NothingFinal(ss: seq<Stmt>, id: JobId, t: Token) {
    forall i | 0 <= i < |ss| && Fence.Under(ss[i], id, t) :: !Fence.Final(ss[i].w)
  }

  predicate LosersPhase(p: Phase) {
    p.Alive? || p.Reaped? || p.Over?
  }

  /** An attempt that recorded the loss of its row ends without a trace: in no continuation
      does it close the row or put it back. */
  lemma LosersEndSilently(s0: Sys, before: seq<Step>, after: seq<Step>, t: Token)
    requires Initial(s0) && Runs(s0, before) && Runs(After(s0, before), after)
    requires var s := After(s0, before); t in s.attempts && s.attempts[t].reason == Some(ByLost)
    ensures var s := After(s0, before); NothingFinal(Sent(s, after), s.attempts[t].job, t)
  {
    hide Runs, After;
    Reached(s0, before);
    var s := After(s0, before);
    InReach(s, t);
    LoserSilent(s, after, t);
  }

  lemma {:induction false} LoserSilent(s: Sys, steps: seq<Step>, t: Token)
    requires Runs(s, steps) && t in s.attempts && t < s.db.nextToken
    requires s.attempts[t].reason == Some(ByLost) && LosersPhase(s.attempts[t].phase)
    ensures NothingFinal(Sent(s, steps), s.attempts[t].job, t)
    decreases |steps|
  {
    if steps != [] {
      LoserStep(s, steps[0], t);
      hide Next, Enabled, StmtOf, NothingFinal;
      var s' := Next(s, steps[0]);
      LoserSilent(s', steps[1..], t);
      var st, more := StmtOf(s, steps[0]), Sent(s', steps[1..]);
      if st.Some? { OneMoreSilent(st.value, more, s.attempts[t].job, t); } else { assert [] + more == more; }
    }
  }

  lemma OneMoreSilent(st: Stmt, more: seq<Stmt>, id: JobId, t: Token)
    requires (Fence.Under(st, id, t) ==> !Fence.Final(st.w)) && NothingFinal(more, id, t)
    ensures NothingFinal([st] + more, id, t)
  {
  }

  lemma LoserStep(s: Sys, step: Step, t: Token)
    requires Enabled(s, step) && t in s.attempts && t < s.db.nextToken
    requires s.attempts[t].reason == Some(ByLost) && LosersPhase(s.attempts[t].phase)
    ensures var s' := Next(s, step);
            && t in s'.attempts && t < s'.db.nextToken && s'.attempts[t].job == s.attempts[t].job
            && s'.attempts[t].reason == Some(ByLost) && LosersPhase(s'.attempts[t].phase)
    ensures var st := StmtOf(s, step);
            st.Some? && Fence.Under(st.value, s.attempts[t].job, t) ==> !Fence.Final(st.value.w)
  {
    hide Exec, CanMove, Moved, WriteOf;
    var st := StmtOf(s, step);
    if step.Takes? && step.t == t { LoserMoves(s.db, |s.stmts|, t, s.attempts[t], step.m); }
    if st.Some? { TokensGrow(s.db, st.value); }
  }

  lemma LoserMoves(db: Db, now: nat, t: Token, a: Attempt, m: Move)
    requires CanMove(a, m) && a.row.req.take.Some? && a.reason == Some(ByLost) && LosersPhase(a.phase)
    ensures var a' := Moved(db, now, t, a, m);
            a'.job == a.job && a'.reason == Some(ByLost) && LosersPhase(a'.phase)
    ensures WriteOf(a, m).Some? ==> !Fence.Final(WriteOf(a, m).value)
  {
    hide Materialized, OwnRow, FigureFor, AnswerTo, TakeWeights.Thin, TakeWeights.SentAfter, PlanOf;
    if a.phase.Reaped? { ClassifyPromises(a.row.req.kind, a.reason, a.phase.exit, a.model.Some?); }
  }

  /** All that is left is to file the exported model. */
  predicate ExportStands(s: Sys, t: Token, model: Weights) {
    && Enabled(s, Takes(t, File)) && Holds(s.db, s.attempts[t].job, t)
    && s.attempts[t].model == Some(model) && model.nam != [] && model.reached == s.attempts[t].row.req.epochs
  }

  /** Filing an exported model, after a natural finish or an early stop: in every reachable
      state in which the row is still held, the run succeeds with exactly that model, the epochs it
      was asked for and the figure printed for it, unless a cancel is on the row. */
  lemma ExportFiles(s0: Sys, steps: seq<Step>, t: Token)
    requires Initial(s0) && Runs(s0, steps)
    requires var s := After(s0, steps); Enabled(s, Takes(t, File)) && Holds(s.db, s.attempts[t].job, t)
    ensures var s := After(s0, steps);
            var a := s.attempts[t];
            var was, now := s.db.jobs[a.job], Next(s, Takes(t, File)).db;
            && a.job in now.jobs && now.jobs[a.job].cols.reached == Some(a.row.req.epochs)
            && (was.cancel ==> now.jobs[a.job].state == Cancelled && a.job !in now.results)
            && (!was.cancel ==>
                  && now.jobs[a.job].state == Succeeded && a.job in now.results
                  && now.results[a.job] == ResultRow(t, ShaOf(a.model.value.nam), a.model.value.nam,
                                                     a.row.req.epochs, EsrArg(a.modelEsr)))
  {
    hide AttemptRight, ResultRight, Next, Runs, After;
    Reached(s0, steps);
    var s := After(s0, steps);
    InReach(s, t);
    assert ResultRight(s, s.attempts[t].job);
    FiledHere(s, t);
  }

  lemma FiledHere(s: Sys, t: Token)
    requires Enabled(s, Takes(t, File)) && Holds(s.db, s.attempts[t].job, t)
    requires AttemptRight(s, t, s.attempts[t]) && ResultRight(s, s.attempts[t].job)
    ensures var a := s.attempts[t];
            var was, now := s.db.jobs[a.job], Next(s, Takes(t, File)).db;
            && a.job in now.jobs && now.jobs[a.job].cols.reached == Some(a.row.req.epochs)
            && (was.cancel ==> now.jobs[a.job].state == Cancelled && a.job !in now.results)
            && (!was.cancel ==>
                  && now.jobs[a.job].state == Succeeded && a.job in now.results
                  && now.results[a.job] == ResultRow(t, ShaOf(a.model.value.nam), a.model.value.nam,
                                                     a.row.req.epochs, EsrArg(a.modelEsr)))
  {
    hide Traced, FigureRight, ClaimRight, SinceRight, PhaseRight, SpawnRight, OutputRight, SaverRight,
         CkptsAfter, EpochsAfter, LogAfter;
  }

  /** A stop or a pause that found this run's own weights on the take files exactly them,
      unless a cancel is on the row. With nothing kept, an exported model that can be read is
      what is left to be filed; with nothing exported either a pause goes back to the queue
      and a stop fails; a pause fails a run only when its exported model cannot
      be read. */
  ghost predicate EarlyStopRight(s: Sys, t: Token, io: Io, msg: string)
    requires Enabled(s, Takes(t, Conclude(io, msg))) && s.attempts[t].job in s.db.jobs
  {
    var a := s.attempts[t];
    var was, now := s.db.jobs[a.job], Next(s, Takes(t, Conclude(io, msg))).db;
    && a.job in now.jobs
    && (a.phase.own.Some? ==>
          var own := a.phase.own.value;
          && own.job == Some(a.job) && now.jobs[a.job].cols.reached == Some(own.reached)
          && (was.cancel ==> now.jobs[a.job].state == Cancelled && a.job !in now.results)
          && (!was.cancel ==>
                && now.jobs[a.job].state == Succeeded && a.job in now.results
                && now.results[a.job] == ResultRow(t, own.sha, own.nam, own.reached, EsrArg(own.esr))))
    && (a.phase.own.None? && a.model.Some? && io.readable ==>
          ExportStands(Next(s, Takes(t, Conclude(io, msg))), t, a.model.value) && now.jobs[a.job] == was)
    && (a.phase.own.None? && a.model.None? ==>
          now.jobs[a.job].state == if a.reason == Some(ByPause) then Queued else Failed)
    && (now.jobs[a.job].state == Failed && a.reason == Some(ByPause) ==> a.model.Some? && !io.readable)
    && (now.jobs[a.job].state == Failed && a.model.None? ==>
          a.reason == Some(ByStop) && now.jobs[a.job].cols.error == Some(StopFailed))
  }

  /** So it is in every reachable state. */
  lemma EarlyStopFiles(s0: Sys, steps: seq<Step>, t: Token, io: Io, msg: string)
    requires Initial(s0) && Runs(s0, steps)
    requires var s := After(s0, steps);
             && Enabled(s, Takes(t, Conclude(io, msg))) && Holds(s.db, s.attempts[t].job, t)
    ensures EarlyStopRight(After(s0, steps), t, io, msg)
  {
    hide EarlyStopRight, Holds, AttemptRight, ResultRight;
    Reached(s0, steps);
    var s := After(s0, steps);
    InReach(s, t);
    assert ResultRight(s, s.attempts[t].job);
    EarlyStopHere(s, t, io, msg);
  }

  lemma InReach(s: Sys, t: Token)
    requires Inv(s) && t in s.attempts
    ensures AttemptRight(s, t, s.attempts[t])
  {
  }

  lemma EarlyStopHere(s: Sys, t: Token, io: Io, msg: string)
    requires Enabled(s, Takes(t, Conclude(io, msg))) && Holds(s.db, s.attempts[t].job, t)
    requires AttemptRight(s, t, s.attempts[t]) && ResultRight(s, s.attempts[t].job)
    ensures EarlyStopRight(s, t, io, msg)
  {
    hide Next, Traced, FigureRight, ResumeRight, ClaimRight, SinceRight, SpawnRight, OutputRight, SaverRight, Exec;
    Concluded(s, t, io, msg);
    var a := s.attempts[t];
    if a.phase.own.None? && a.model.Some? && io.readable { Exports(s, t, io, msg); }
  }

  lemma Exports(s: Sys, t: Token, io: Io, msg: string)
    requires Enabled(s, Takes(t, Conclude(io, msg))) && Holds(s.db, s.attempts[t].job, t)
    requires s.attempts[t].phase.own.None? && s.attempts[t].model.Some? && io.readable && MadeRight(s.attempts[t])
    ensures ExportStands(Next(s, Takes(t, Conclude(io, msg))), t, s.attempts[t].model.value)
    ensures var now := Next(s, Takes(t, Conclude(io, msg))).db;
            s.attempts[t].job in now.jobs && now.jobs[s.attempts[t].job] == s.db.jobs[s.attempts[t].job]
  {
    hide CkptsAfter, ResultsAfter, EpochsAfter, LogAfter, OwnRow, Materialized, PlanOf, FigureFor;
  }

  lemma Concluded(s: Sys, t: Token, io: Io, msg: string)
    requires Enabled(s, Takes(t, Conclude(io, msg))) && Holds(s.db, s.attempts[t].job, t)
    ensures var a := s.attempts[t];
            var w := ConcludeWrite(a, io, msg);
            var now := Next(s, Takes(t, Conclude(io, msg))).db;
            && a.job in now.jobs
            && (if w.Some? then now.jobs[a.job] == RowAfter(s.db.jobs[a.job], w.value) else now == s.db)
            && now.results == if w.Some? then ResultsAfter(s.db, Held(a.job, t, w.value)) else s.db.results
  {
    hide ConcludeWrite, RowAfter, ResultsAfter, CkptsAfter, EpochsAfter, LogAfter;
  }
}
