/** What the fence buys over whole runs: any sequence of statements, from any number
    of daemons, the app and cron, in any order. */
module Fence {
  import opened Types
  import opened Statements

  lemma {:induction false} RunAppend(db: Db, ss: seq<Stmt>, more: seq<Stmt>)
    ensures Run(db, ss + more) == Run(Run(db, ss), more)
    decreases |ss|
  {
    if ss == [] {
      assert ss + more == more;
    } else {
      assert (ss + more)[1..] == ss[1..] + more;
      RunAppend(Exec(db, ss[0]), ss[1..], more);
    }
  }

  /** Ids and tokens are handed out once. */
  ghost predicate Issued(db: Db) {
    && (forall id | id in db.jobs :: id < db.nextJob)
    && (forall id | id in db.jobs && db.jobs[id].token.Some? :: db.jobs[id].token.value < db.nextToken)
  }

  /** Everything a statement can do to one row: leave its claim alone, requeue it, or
      put it under a fresh claim. */
  ghost predicate RowStep(a: Job, b: Job, minted: Token) {
    && b.req == a.req
    && (a.cancel ==> b.cancel)
    && (Terminal(a.state) ==> b == a.(stop := b.stop, cancel := b.cancel))
    && (a.cancel && a.state != Succeeded ==> b.state != Succeeded)
    && (|| (b.token == a.token && (a.paused ==> b.paused) && (b.state == a.state || Terminal(b.state)))
        || (b.token == None && b.state == Queued && a.state == Running && b.paused == a.paused)
        || (b.token == Some(minted) && b.state == Running && !b.paused && Claimable(a)))
  }

  lemma TouchedSteps(db: Db, s: Stmt)
    requires Touches(db, s)
    ensures RowStep(db.jobs[s.id], Touched(db.jobs[s.id], s, db.nextToken), db.nextToken)
  {
  }

  /** Which statement can make which change. */
  lemma TouchedBy(db: Db, s: Stmt)
    requires Touches(db, s)
    ensures var a, b := db.jobs[s.id], Touched(db.jobs[s.id], s, db.nextToken);
            && (b.state == Queued && a.state != Queued ==> s.Held? && s.w.Requeue?)
            && (b.state == Running && a.state != Running ==> s.Claim?)
            && (b.paused && !a.paused ==> s.MarkSilent?)
            && (b.token.Some? && b.token != a.token ==> s.Claim?)
            && (s.Claim? ==> b.state == Running && !b.paused)
            && (s.Held? && s.w.Requeue? ==> b.state == Queued)
  {
  }

  ghost predicate JobsStep(db: Db, after: Db) {
    && db.nextJob <= after.nextJob && db.nextToken <= after.nextToken
    && (forall id | id in db.jobs :: id in after.jobs && RowStep(db.jobs[id], after.jobs[id], db.nextToken))
    && (forall id | id in after.jobs && id !in db.jobs ::
          id == db.nextJob && after.jobs[id] == NewRow(after.jobs[id].req))
    && (forall id | id in after.jobs && id !in db.jobs :: id < after.nextJob)
    && (forall id | id in db.jobs && after.jobs[id].token == Some(db.nextToken)
          && db.jobs[id].token != Some(db.nextToken) ::
          db.nextToken < after.nextToken)
  }

  lemma Steps(db: Db, s: Stmt)
    requires Issued(db)
    ensures JobsStep(db, Exec(db, s)) && Issued(Exec(db, s))
  {
    hide Touched, CkptsAfter, ResultsAfter, EpochsAfter, LogAfter;
    if Touches(db, s) {
      TouchedSteps(db, s);
      TouchedBy(db, s);
    }
  }

  lemma {:induction false} IssuedForever(db: Db, ss: seq<Stmt>)
    requires Issued(db)
    ensures Issued(Run(db, ss))
    ensures db.nextJob <= Run(db, ss).nextJob && db.nextToken <= Run(db, ss).nextToken
    ensures forall id | id in db.jobs :: id in Run(db, ss).jobs && Run(db, ss).jobs[id].req == db.jobs[id].req
    decreases |ss|
  {
    hide Exec;
    if ss != [] {
      Steps(db, ss[0]);
      IssuedForever(Exec(db, ss[0]), ss[1..]);
    }
  }

  // ---- a straggler ----

  lemma StaleStep(db: Db, s: Stmt, id: JobId, token: Token)
    requires token < db.nextToken && !Holds(db, id, token)
    ensures !Holds(Exec(db, s), id, token) && token < Exec(db, s).nextToken
    ensures Under(s, id, token) ==> Exec(db, s) == db
  {
    hide CkptsAfter, ResultsAfter, EpochsAfter, LogAfter;
    if Touches(db, s) {
      TouchedSteps(db, s);
      hide Touched;
    }
    if Under(s, id, token) { UnheldIsNothing(db, s); }
  }

  lemma UnheldIsNothing(db: Db, s: Stmt)
    requires s.Held? && !Holds(db, s.id, s.token)
    ensures Exec(db, s) == db
  {
  }

  /** A claim that is over is over for good: tokens never come back. */
  lemma {:induction false} StaleForever(db: Db, ss: seq<Stmt>, id: JobId, token: Token)
    requires token < db.nextToken && !Holds(db, id, token)
    ensures !Holds(Run(db, ss), id, token)
    decreases |ss|
  {
    hide Exec;
    if ss != [] {
      StaleStep(db, ss[0], id, token);
      StaleForever(Exec(db, ss[0]), ss[1..], id, token);
    }
  }

  predicate Under(s: Stmt, id: JobId, token: Token) {
    s.Held? && s.id == id && s.token == token
  }

  /** A run with every write made under one claim taken out. */
  function Without(ss: seq<Stmt>, id: JobId, token: Token): seq<Stmt> {
    if ss == [] then []
    else if Under(ss[0], id, token) then Without(ss[1..], id, token)
    else [ss[0]] + Without(ss[1..], id, token)
  }

  /** Once a row is re-claimed, requeued or terminal, nothing an earlier attempt writes
      can be told from its never having been written. */
  lemma {:induction false} StragglersAreInvisible(db: Db, ss: seq<Stmt>, id: JobId, token: Token)
    requires token < db.nextToken && !Holds(db, id, token)
    ensures Run(db, ss) == Run(db, Without(ss, id, token))
    decreases |ss|
  {
    hide JobsAfter, CkptsAfter, ResultsAfter, EpochsAfter, LogAfter;
    if ss != [] {
      StaleStep(db, ss[0], id, token);
      StragglersAreInvisible(Exec(db, ss[0]), ss[1..], id, token);
      if !Under(ss[0], id, token) {
        var w := Without(ss, id, token);
        assert w[0] == ss[0] && w[1..] == Without(ss[1..], id, token);
      }
    }
  }

  /** The ways a claim ends: its row is requeued, closed, or handed to a new claim. */
  predicate Ends(db: Db, s: Stmt, id: JobId, token: Token)
    requires id in db.jobs
  {
    || (Under(s, id, token) && (Final(s.w) && !(s.w.Succeed? && s.w.result.nam == [])))
    || s == AppCancel(id)
    || (s.Claim? && s.id == id && db.jobs[id].paused && db.jobs[id].req.take.Some?)
  }

  /** A write that closes a row or puts it back. */
  predicate Final(w: Write) {
    w.Requeue? || w.CloseFailed? || w.CloseCancelled? || w.CloseProbe? || w.Succeed?
  }

  lemma ClaimEnds(db: Db, s: Stmt, id: JobId, token: Token)
    requires Issued(db) && Holds(db, id, token)
    ensures !Holds(Exec(db, s), id, token) <==> Ends(db, s, id, token)
  {
  }

  lemma RunPrefix(db: Db, ss: seq<Stmt>, n: nat)
    requires 0 < n <= |ss|
    ensures Run(db, ss[..n]) == Run(Exec(db, ss[0]), ss[1..][..n - 1])
  {
    assert ss[..n][1..] == ss[1..][..n - 1];
  }

  /** A claim that held and no longer does was ended by one statement of the run, made
      while it held: its own requeue or terminal write, the app closing the row, or a
      claim taking over a row marked silent. */
  lemma {:induction false} HowAClaimEnds(db: Db, ss: seq<Stmt>, id: JobId, token: Token) returns (i: nat)
    requires Issued(db) && Holds(db, id, token) && !Holds(Run(db, ss), id, token)
    ensures i < |ss| && Holds(Run(db, ss[..i]), id, token) && Ends(Run(db, ss[..i]), ss[i], id, token)
    decreases |ss|
  {
    hide Exec, Ends;
    if Holds(Exec(db, ss[0]), id, token) {
      Steps(db, ss[0]);
      var k := HowAClaimEnds(Exec(db, ss[0]), ss[1..], id, token);
      i := k + 1;
      RunPrefix(db, ss, i);
    } else {
      ClaimEnds(db, ss[0], id, token);
      i := 0;
      assert ss[..0] == [];
    }
  }

  // ---- what the mark stops ----

  function Remarked(db: Db, id: JobId, mark: bool): Db {
    if id in db.jobs then db.(jobs := db.jobs[id := db.jobs[id].(paused := mark)]) else db
  }

  /** The shared fence does not look at cron's mark: with and without it, every write but
      the checkpoint's does the same. */
  lemma MarkIgnored(db: Db, id: JobId, token: Token, w: Write, mark: bool)
    requires !w.Put?
    ensures Exec(Remarked(db, id, mark), Held(id, token, w)) == Remarked(Exec(db, Held(id, token, w)), id, mark)
  {
    hide RowAfter;
    if id in db.jobs {
      RowIgnoresMark(db.jobs[id], w, mark);
      var s := Held(id, token, w);
      assert JobsAfter(Remarked(db, id, mark), s) == Remarked(Exec(db, s), id, mark).jobs;
    }
  }

  /** The checkpoint write lands exactly for a held row without the mark, and says so. */
  lemma MarkStopsPuts(db: Db, id: JobId, token: Token, w: Write)
    requires w.Put?
    ensures AnswerTo(db, id, token).mine <==> Holds(db, id, token) && !db.jobs[id].paused
    ensures !AnswerTo(db, id, token).mine ==> Exec(db, Held(id, token, w)) == db
    ensures AnswerTo(db, id, token).mine ==>
              var c := Lookup(Exec(db, Held(id, token, w)).ckpts, w.take);
              c.Some? && c.value.token == Some(token) && c.value.nam == w.last.nam && c.value.ckpt == w.last.ckpt
  {
  }

  lemma RowIgnoresMark(j: Job, w: Write, mark: bool)
    ensures RowAfter(j.(paused := mark), w) == RowAfter(j, w).(paused := mark)
  {
  }

  /** So a run marked silent, not yet claimed over, still files its result. */
  lemma SilentRunStillFiles(db: Db, id: JobId, token: Token, r: Result)
    requires Holds(db, id, token) && db.jobs[id].paused && !db.jobs[id].cancel && r.nam != []
    ensures !AnswerTo(db, id, token).mine
    ensures var after := Exec(db, Held(id, token, Succeed(r)));
            && id in after.jobs && after.jobs[id].state == Succeeded && id in after.results
            && after.results[id].nam == r.nam && after.results[id].epochs == r.reached
  {
  }

  // ---- losing a run ----

  /** After the checkpoint write has once answered "not yours", it answers so for ever:
      the mark is cleared only together with a fresh token. */
  lemma {:induction false} LostForever(db: Db, ss: seq<Stmt>, id: JobId, token: Token)
    requires token < db.nextToken && !AnswerTo(db, id, token).mine
    ensures !AnswerTo(Run(db, ss), id, token).mine
    decreases |ss|
  {
    hide CkptsAfter, ResultsAfter, EpochsAfter, LogAfter;
    if ss != [] { LostForever(Exec(db, ss[0]), ss[1..], id, token); }
  }

  /** The paused mark outlives a requeue, so a straggler is refused even between the
      requeue and the next claim; only a claim clears it, and a claim brings a new token. */
  lemma MarkClearedOnlyByClaim(db: Db, s: Stmt, id: JobId)
    requires Issued(db) && id in db.jobs && db.jobs[id].paused && !Exec(db, s).jobs[id].paused
    ensures s.Claim? && s.id == id && Claimable(db.jobs[id]) && Mine(Exec(db, s), id, db.nextToken)
  {
  }

  /** So over any run: where the mark has come off, some claim took the row over in
      between, under a token minted there and then. */
  lemma {:induction false} HowAMarkClears(db: Db, ss: seq<Stmt>, id: JobId) returns (i: nat)
    requires Issued(db) && id in db.jobs && db.jobs[id].paused
    requires id in Run(db, ss).jobs && !Run(db, ss).jobs[id].paused
    ensures i < |ss| && ss[i].Claim? && ss[i].id == id
    ensures var at := Run(db, ss[..i]);
            && id in at.jobs && at.jobs[id].paused && Claimable(at.jobs[id]) && db.nextToken <= at.nextToken
            && Mine(Exec(at, ss[i]), id, at.nextToken)
    decreases |ss|
  {
    hide Exec;
    Steps(db, ss[0]);
    var next := Exec(db, ss[0]);
    if next.jobs[id].paused {
      var k := HowAMarkClears(next, ss[1..], id);
      i := k + 1;
      RunPrefix(db, ss, i);
    } else {
      MarkClearedOnlyByClaim(db, ss[0], id);
      i := 0;
      assert ss[..0] == [];
    }
  }

  /** A requeued row is a new attempt's to claim: the stop goes with the attempt it was
      asked of, and only a cancel, which is about the job, keeps the row back. */
  lemma RequeuedIsClaimable(db: Db, id: JobId, token: Token)
    requires Holds(db, id, token)
    ensures var after := Exec(db, Held(id, token, Requeue));
            && id in after.jobs && after.jobs[id].token.None? && !after.jobs[id].stop
            && (Claimable(after.jobs[id]) <==> !db.jobs[id].cancel && db.jobs[id].req.take.Some?)
            && after.ckpts == db.ckpts
  {
  }

  // ---- terminal rows ----

  /** Everything about a job but the asks on it. */
  ghost predicate SameJob(a: Db, b: Db, id: JobId) {
    && id in a.jobs && id in b.jobs
    && b.jobs[id] == a.jobs[id].(stop := b.jobs[id].stop, cancel := b.jobs[id].cancel, paused := b.jobs[id].paused)
    && Lookup(a.results, id) == Lookup(b.results, id)
    && (forall e: int :: Lookup(a.epochs, (id, e)) == Lookup(b.epochs, (id, e)))
    && LogOf(a.log, id) == LogOf(b.log, id)
  }

  function LogOf(log: seq<LogLine>, id: JobId): seq<LogLine> {
    if log == [] then []
    else LogOf(log[..|log|-1], id) + if log[|log|-1].job == id then [log[|log|-1]] else []
  }

  lemma TerminalStep(db: Db, s: Stmt, id: JobId)
    requires Issued(db) && id in db.jobs && Terminal(db.jobs[id].state)
    ensures SameJob(db, Exec(db, s), id) && Terminal(Exec(db, s).jobs[id].state)
  {
    hide Touched, CkptsAfter;
    Steps(db, s);
    LogStays(db, s, id);
  }

  lemma LogStays(db: Db, s: Stmt, id: JobId)
    requires id in db.jobs && Terminal(db.jobs[id].state)
    ensures LogOf(LogAfter(db, s), id) == LogOf(db.log, id)
  {
    var after := LogAfter(db, s);
    if after != db.log { assert after[..|after|-1] == db.log; }
  }

  /** A finished job is closed for ever: its row, its result, its epochs and its story. */
  lemma {:induction false} TerminalForever(db: Db, ss: seq<Stmt>, id: JobId)
    requires Issued(db) && id in db.jobs && Terminal(db.jobs[id].state)
    ensures SameJob(db, Run(db, ss), id)
    decreases |ss|
  {
    if ss != [] {
      TerminalStep(db, ss[0], id);
      IssuedForever(db, [ss[0]]);
      assert Run(db, [ss[0]]) == Exec(db, ss[0]);
      TerminalForever(Exec(db, ss[0]), ss[1..], id);
    }
  }

  // ---- a cancel ----

  /** Somewhere in the run the app closed the row, with effect. */
  predicate AppClosed(db: Db, ss: seq<Stmt>, id: JobId)
    decreases |ss|
  {
    ss != [] && ((ss[0] == AppCancel(id) && Touches(db, ss[0])) || AppClosed(Exec(db, ss[0]), ss[1..], id))
  }

  lemma {:induction false} AppClosedAt(db: Db, ss: seq<Stmt>, id: JobId) returns (i: nat)
    requires AppClosed(db, ss, id)
    ensures i < |ss| && ss[i] == AppCancel(id) && Touches(Run(db, ss[..i]), ss[i])
    decreases |ss|
  {
    hide Exec, Touches;
    if ss[0] == AppCancel(id) && Touches(db, ss[0]) {
      i := 0;
      assert ss[..0] == [];
    } else {
      var k := AppClosedAt(Exec(db, ss[0]), ss[1..], id);
      i := k + 1;
      RunPrefix(db, ss, i);
    }
  }

  lemma {:induction false} AppClosedMore(db: Db, ss: seq<Stmt>, s: Stmt, id: JobId)
    ensures AppClosed(db, ss + [s], id) <==> AppClosed(db, ss, id) || (s == AppCancel(id) && Touches(Run(db, ss), s))
    decreases |ss|
  {
    hide Exec, Touches;
    if ss == [] {
      assert (ss + [s])[1..] == [];
    } else {
      assert (ss + [s])[1..] == ss[1..] + [s];
      AppClosedMore(Exec(db, ss[0]), ss[1..], s, id);
    }
  }

  /** A cancel requested before the terminal write is never outrun by a success. */
  lemma {:induction false} CancelOutranksSuccess(db: Db, ss: seq<Stmt>, id: JobId)
    requires Issued(db) && id in db.jobs && db.jobs[id].cancel && db.jobs[id].state != Succeeded
    ensures id in Run(db, ss).jobs && Run(db, ss).jobs[id].cancel && Run(db, ss).jobs[id].state != Succeeded
    ensures Lookup(Run(db, ss).results, id) == Lookup(db.results, id)
    decreases |ss|
  {
    hide Touched, CkptsAfter, EpochsAfter, LogAfter;
    if ss != [] {
      Steps(db, ss[0]);
      CancelOutranksSuccess(Exec(db, ss[0]), ss[1..], id);
    }
  }

  // ---- one live job per take ----

  ghost predicate OneLive(db: Db) {
    forall take, i, k | LiveOn(db, take, i) && LiveOn(db, take, k) :: i == k
  }

  lemma {:induction false} OneLiveForever(db: Db, ss: seq<Stmt>)
    requires Issued(db) && OneLive(db)
    ensures OneLive(Run(db, ss))
    decreases |ss|
  {
    if ss != [] {
      OneLiveStep(db, ss[0]);
      OneLiveForever(Exec(db, ss[0]), ss[1..]);
    }
  }

  lemma OneLiveStep(db: Db, s: Stmt)
    requires Issued(db) && OneLive(db)
    ensures OneLive(Exec(db, s)) && Issued(Exec(db, s))
  {
    hide Touched;
    Steps(db, s);
    var after := Exec(db, s);
    forall take, i, k | LiveOn(after, take, i) && LiveOn(after, take, k) ensures i == k {
      assert i in db.jobs ==> LiveOn(db, take, i);
      assert k in db.jobs ==> LiveOn(db, take, k);
    }
  }

  // ---- conservation of attempts ----

  predicate IsClaim(db: Db, s: Stmt, id: JobId) {
    s.Claim? && s.id == id && id in db.jobs && Claimable(db.jobs[id])
  }

  predicate IsHandover(db: Db, s: Stmt, id: JobId) {
    IsClaim(db, s, id) && db.jobs[id].state == Running
  }

  predicate IsRequeue(db: Db, s: Stmt, id: JobId) {
    s.Held? && s.id == id && s.w.Requeue? && Holds(db, id, s.token)
  }

  predicate IsMark(db: Db, s: Stmt, id: JobId) {
    s == MarkSilent(id) && id in db.jobs && db.jobs[id].state == Running && !db.jobs[id].paused
  }

  /** A write that ends the claim it is made under: a terminal state or a requeue. */
  predicate IsEnding(db: Db, s: Stmt, id: JobId, token: Token) {
    && Under(s, id, token) && Holds(db, id, token)
    && Exec(db, s).jobs[id].state != Running
  }

  ghost function Count(db: Db, ss: seq<Stmt>, what: (Db, Stmt) -> bool): nat
    decreases |ss|
  {
    if ss == [] then 0
    else (if what(db, ss[0]) then 1 else 0) + Count(Exec(db, ss[0]), ss[1..], what)
  }

  ghost function Claims(db: Db, ss: seq<Stmt>, id: JobId): nat { Count(db, ss, (d, s) => IsClaim(d, s, id)) }
  ghost function Handovers(db: Db, ss: seq<Stmt>, id: JobId): nat { Count(db, ss, (d, s) => IsHandover(d, s, id)) }
  ghost function Requeues(db: Db, ss: seq<Stmt>, id: JobId): nat { Count(db, ss, (d, s) => IsRequeue(d, s, id)) }
  ghost function Marks(db: Db, ss: seq<Stmt>, id: JobId): nat { Count(db, ss, (d, s) => IsMark(d, s, id)) }
  ghost function Endings(db: Db, ss: seq<Stmt>, id: JobId, token: Token): nat {
    Count(db, ss, (d, s) => IsEnding(d, s, id, token))
  }

  function Claimed0(db: Db, id: JobId): nat {
    if id !in db.jobs || db.jobs[id].state == Queued then 1 else 0
  }

  function Marked0(db: Db, id: JobId): nat {
    if id in db.jobs && db.jobs[id].state == Running && db.jobs[id].paused then 1 else 0
  }

  lemma ClaimStep(db: Db, s: Stmt, id: JobId)
    requires Issued(db)
    ensures Claimed0(Exec(db, s), id) + (if IsClaim(db, s, id) then 1 else 0)
         <= Claimed0(db, id) + (if IsRequeue(db, s, id) then 1 else 0) + (if IsHandover(db, s, id) then 1 else 0)
    ensures Marked0(Exec(db, s), id) + (if IsHandover(db, s, id) then 1 else 0)
         <= Marked0(db, id) + (if IsMark(db, s, id) then 1 else 0)
  {
    hide Touched, CkptsAfter, ResultsAfter, EpochsAfter, LogAfter;
    if Touches(db, s) { TouchedBy(db, s); }
  }

  lemma {:induction false} ClaimsBounded(db: Db, ss: seq<Stmt>, id: JobId)
    requires Issued(db)
    ensures Claims(db, ss, id) <= Claimed0(db, id) + Requeues(db, ss, id) + Handovers(db, ss, id)
    decreases |ss|
  {
    hide Exec, IsClaim, IsRequeue, IsHandover, Claimed0;
    if ss != [] {
      Steps(db, ss[0]);
      ClaimStep(db, ss[0], id);
      ClaimsBounded(Exec(db, ss[0]), ss[1..], id);
    }
  }

  /** Each of cron's marks is handed over at most once. */
  lemma {:induction false} HandoversBounded(db: Db, ss: seq<Stmt>, id: JobId)
    requires Issued(db)
    ensures Handovers(db, ss, id) <= Marked0(db, id) + Marks(db, ss, id)
    decreases |ss|
  {
    hide Exec, IsMark, IsHandover, Marked0;
    if ss != [] {
      Steps(db, ss[0]);
      ClaimStep(db, ss[0], id);
      HandoversBounded(Exec(db, ss[0]), ss[1..], id);
    }
  }

  /** No attempt comes from nowhere: the first claim, one per effective requeue, one
      per mark. */
  lemma ConservationOfAttempts(db: Db, ss: seq<Stmt>, id: JobId)
    requires Issued(db) && id !in db.jobs
    ensures Claims(db, ss, id) <= 1 + Requeues(db, ss, id) + Marks(db, ss, id)
  {
    ClaimsBounded(db, ss, id);
    HandoversBounded(db, ss, id);
  }

  /** A claim has at most one effective ending. */
  lemma {:induction false} AtMostOneEnding(db: Db, ss: seq<Stmt>, id: JobId, token: Token)
    requires Issued(db)
    ensures Endings(db, ss, id, token) <= if Holds(db, id, token) || db.nextToken <= token then 1 else 0
    decreases |ss|
  {
    hide Touched;
    if ss != [] {
      Steps(db, ss[0]);
      AtMostOneEnding(Exec(db, ss[0]), ss[1..], id, token);
    }
  }
}
