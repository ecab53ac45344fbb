/** What every row of jobs looks like, in every state and after any run of statements: the
    columns a run owns are there exactly when the schema's readers may rely on them. */
module Rows {
  import opened Types
  import opened Statements
  import Fence

  /** Before the end there is no outcome on the row. */
  predicate NoOutcome(c: Columns) {
    c.reached.None? && c.verdict.None? && c.error.None? && c.message.None?
  }

  /** The CHECK constraints on the figures. */
  predicate FiguresLegal(c: Columns) {
    (c.esr.Some? ==> c.esr.value >= 0.0) && (c.sPerEpoch.Some? ==> c.sPerEpoch.value > 0.0)
  }

  predicate Owned(j: Job) {
    j.token.Some? && j.cols.worker.Some? && j.cols.instance.Some?
  }

  predicate Unowned(j: Job) {
    && j.token.None? && j.cols.worker.None? && j.cols.instance.None?
    && j.cols.pgid.None? && j.cols.epoch.None? && j.cols.sPerEpoch.None?
  }

  /** `closedByApp`: the app has closed the row itself, which leaves the run's columns be. */
  predicate Shaped(j: Job, closedByApp: bool) {
    && FiguresLegal(j.cols)
    && match j.state
       case Queued => Unowned(j) && NoOutcome(j.cols)
       case Running => Owned(j) && NoOutcome(j.cols)
       case Succeeded =>
         && Owned(j) && j.cols.pgid.None? && j.cols.error.None? && j.cols.message.None?
         && (j.cols.reached.Some? != j.cols.verdict.Some?)
       case Failed =>
         Owned(j) && j.cols.pgid.None? && j.cols.error.Some? && j.cols.reached.None? && j.cols.verdict.None?
       case Cancelled =>
         || closedByApp
         || (Owned(j) && j.cols.pgid.None? && j.cols.error == Some(WasCancelled) && j.cols.message.None?)
  }

  lemma RowStays(j: Job, s: Stmt, minted: Token, app: bool)
    requires Shaped(j, app)
    requires s.Held? ==> j.state == Running
    requires s.Claim? ==> Claimable(j)
    requires s.AppCancel? ==> !Terminal(j.state)
    requires s.MarkSilent? ==> j.state == Running
    ensures Shaped(Touched(j, s, minted), app || s.AppCancel?)
  {
    hide RowAfter;
    if s.Held? { WriteStays(j, s.w, app); }
  }

  lemma WriteStays(j: Job, w: Write, app: bool)
    requires Shaped(j, app) && j.state == Running
    ensures Shaped(RowAfter(j, w), app)
  {
  }

  /** Whatever the daemons, the app and cron do, in whatever order. */
  lemma {:induction false} ShapedForever(db: Db, ss: seq<Stmt>, id: JobId, app: bool)
    requires Fence.Issued(db) && (id in db.jobs ==> Shaped(db.jobs[id], app))
    ensures id in Run(db, ss).jobs ==> Shaped(Run(db, ss).jobs[id], app || Fence.AppClosed(db, ss, id))
    decreases |ss|
  {
    hide Shaped, Touched, CkptsAfter, ResultsAfter, EpochsAfter, LogAfter;
    if ss != [] {
      var db' := Exec(db, ss[0]);
      var app' := app || (ss[0] == AppCancel(id) && Touches(db, ss[0]));
      Fence.Steps(db, ss[0]);
      if Touches(db, ss[0]) && ss[0].id == id { RowStays(db.jobs[id], ss[0], db.nextToken, app); }
      if id in db'.jobs && id !in db.jobs { NewShaped(db'.jobs[id].req); }
      ShapedForever(db', ss[1..], id, app');
    }
  }

  lemma NewShaped(req: Request)
    ensures forall app: bool :: Shaped(NewRow(req), app)
  {
  }
}
