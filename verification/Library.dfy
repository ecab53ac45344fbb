/** The shared library as the daemon sees it: one method per SQL statement, each
    updating the tables in place and proved to be the statement it stands for. */
module Library {
  import opened Types
  import opened Statements
  import Effects

  class Store {
    var jobs: map<JobId, Job>
    var ckpts: map<TakeId, Ckpt>
    var results: map<JobId, ResultRow>
    var epochs: map<(JobId, int), EpochRow>
    var log: seq<LogLine>
    var nextJob: JobId
    var nextToken: Token

    function View(): Db
      reads this
    {
      Db(jobs, ckpts, results, epochs, log, nextJob, nextToken)
    }

    constructor ()
      ensures View() == Db(map[], map[], map[], map[], [], 0, 0)
    {
      jobs, ckpts, results, epochs, log, nextJob, nextToken := map[], map[], map[], map[], [], 0, 0;
    }

    /** Pops the head of one lane's drain order among the rows nobody else has locked. */
    method ClaimNext(lane: Lane, worker: string, instance: string, version: string, locked: set<JobId>)
      returns (claimed: Option<(JobId, Job)>)
      modifies this
      ensures claimed.None? <==> forall k | k in old(jobs) :: !Candidate(old(View()), lane, version, locked, k)
      ensures claimed.None? ==> View() == old(View())
      ensures claimed.Some? ==>
                var (id, row) := claimed.value;
                && IsNext(old(View()), lane, version, locked, id)
                && View() == Exec(old(View()), Claim(id, worker, instance))
                && row == jobs[id]
                && Holds(View(), id, old(nextToken))
                // nobody waits behind a lower priority, a later arrival or a greater id
                && forall k | k in old(jobs) && Candidate(old(View()), lane, version, locked, k) ::
                     var a, b := old(jobs)[id].req, old(jobs)[k].req;
                     && (b.priority == High ==> a.priority == High)
                     && (b.priority == Normal ==> a.priority != Low)
                     && (a.priority == b.priority ==> a.queuedAt <= b.queuedAt)
                     && (a.priority == b.priority && a.queuedAt == b.queuedAt ==> id <= k)
    {
      var pool := set k | k in jobs && Candidate(View(), lane, version, locked, k);
      if pool == {} {
        assert forall k | k in jobs :: Candidate(View(), lane, version, locked, k) ==> k in pool;
        return None;
      }
      HeadExists(View(), lane, version, locked, pool);
      var id :| id in pool && IsNext(View(), lane, version, locked, id);
      forall k | k in jobs && Candidate(View(), lane, version, locked, k)
        ensures var a, b := jobs[id].req, jobs[k].req;
                && (b.priority == High ==> a.priority == High) && (b.priority == Normal ==> a.priority != Low)
                && (a.priority == b.priority ==> a.queuedAt <= b.queuedAt)
                && (a.priority == b.priority && a.queuedAt == b.queuedAt ==> id <= k)
      {
        Effects.HeadOfTheQueue(View(), lane, version, locked, id, k);
      }
      jobs := jobs[id := ClaimedRow(jobs[id], worker, instance, nextToken)];
      nextToken := nextToken + 1;
      return Some((id, jobs[id]));
    }

    method SetJobPgid(id: JobId, token: Token, pgid: int) returns (ok: bool)
      modifies this`jobs
      ensures ok == Holds(old(View()), id, token)
      ensures View() == Exec(old(View()), Held(id, token, SetPgid(pgid)))
    {
      if id !in jobs || jobs[id].token != Some(token) || jobs[id].state != Running { return false; }
      jobs := jobs[id := jobs[id].(cols := jobs[id].cols.(pgid := Some(pgid)))];
      return true;
    }

    method RequeueJob(id: JobId, token: Token)
      modifies this`jobs
      ensures View() == Exec(old(View()), Held(id, token, Requeue))
    {
      if id !in jobs || jobs[id].token != Some(token) || jobs[id].state != Running { return; }
      var cols := jobs[id].cols.(worker := None, instance := None, pgid := None, epoch := None, sPerEpoch := None);
      jobs := jobs[id := jobs[id].(state := Queued, token := None, stop := false, cols := cols)];
    }

    method UpdateProgress(id: JobId, token: Token, epoch: int, sPerEpoch: real, esr: Option<real>)
      modifies this`jobs
      ensures View() == Exec(old(View()), Held(id, token, Progress(epoch, sPerEpoch, esr)))
    {
      var sp: Option<real> := None;
      if sPerEpoch > 0.0 { sp := Some(sPerEpoch); }
      if id !in jobs || jobs[id].token != Some(token) || jobs[id].state != Running { return; }
      var cols := jobs[id].cols.(epoch := Some(epoch), sPerEpoch := sp);
      if EsrArg(esr).Some? { cols := cols.(esr := esr); }
      jobs := jobs[id := jobs[id].(cols := cols)];
    }

    method RecordEpoch(id: JobId, token: Token, epoch: int, esr: Option<real>, seconds: real)
      modifies this`epochs
      ensures View() == Exec(old(View()), Held(id, token, Epoch(epoch, esr, seconds)))
    {
      var sec: Option<real> := None;
      if seconds > 0.0 { sec := Some(seconds); }
      if Holds(View(), id, token) {
        epochs := epochs[(id, epoch) := EpochRow(token, EsrArg(esr), sec)];
      }
    }

    method AppendLog(id: JobId, token: Token, line: string)
      modifies this`log
      ensures View() == Exec(old(View()), Held(id, token, Log(line)))
    {
      if Holds(View(), id, token) {
        log := log + [LogLine(id, token, line)];
      }
    }

    /** The terminal state and the result row in one transaction; None is the refusal
        of an empty model. */
    method FinishSucceeded(id: JobId, token: Token, r: Result) returns (ok: Option<bool>)
      modifies this`jobs, this`results
      ensures ok == if r.nam == [] then None else Some(Holds(old(View()), id, token))
      ensures View() == Exec(old(View()), Held(id, token, Succeed(r)))
    {
      if r.nam == [] { return None; }
      if id !in jobs || jobs[id].token != Some(token) || jobs[id].state != Running { return Some(false); }
      var cols := jobs[id].cols.(pgid := None, reached := Some(r.reached), esr := EsrArg(r.esr), message := None);
      if jobs[id].cancel {
        jobs := jobs[id := jobs[id].(state := Cancelled, cols := cols.(error := Some(WasCancelled)))];
        return Some(true);
      }
      jobs := jobs[id := jobs[id].(state := Succeeded, cols := cols.(error := None))];
      results := results[id := ResultRow(token, ShaOf(r.nam), r.nam, r.reached, EsrArg(r.esr))];
      return Some(true);
    }

    method FinishProbeSelf(id: JobId, token: Token, verdict: Verdict, esr: Option<real>) returns (ok: bool)
      modifies this`jobs
      ensures ok == Holds(old(View()), id, token)
      ensures View() == Exec(old(View()), Held(id, token, CloseProbe(verdict, esr)))
    {
      if id !in jobs || jobs[id].token != Some(token) || jobs[id].state != Running { return false; }
      var cols := jobs[id].cols.(pgid := None, verdict := Some(verdict), esr := EsrArg(esr), message := None);
      if jobs[id].cancel {
        jobs := jobs[id := jobs[id].(state := Cancelled, cols := cols.(error := Some(WasCancelled)))];
      } else {
        jobs := jobs[id := jobs[id].(state := Succeeded, cols := cols.(error := None))];
      }
      return true;
    }

    method FinishFailed(id: JobId, token: Token, code: ErrorCode, message: string) returns (ok: bool)
      modifies this`jobs
      ensures ok == Holds(old(View()), id, token)
      ensures View() == Exec(old(View()), Held(id, token, CloseFailed(code, message)))
    {
      if id !in jobs || jobs[id].token != Some(token) || jobs[id].state != Running { return false; }
      var cols := jobs[id].cols.(pgid := None, error := Some(code), message := StrArg(message));
      jobs := jobs[id := jobs[id].(state := Failed, cols := cols)];
      return true;
    }

    method FinishCancelled(id: JobId, token: Token) returns (ok: bool)
      modifies this`jobs
      ensures ok == Holds(old(View()), id, token)
      ensures View() == Exec(old(View()), Held(id, token, CloseCancelled))
    {
      if id !in jobs || jobs[id].token != Some(token) || jobs[id].state != Running { return false; }
      var cols := jobs[id].cols.(pgid := None, error := Some(WasCancelled), message := None);
      jobs := jobs[id := jobs[id].(state := Cancelled, cols := cols)];
      return true;
    }

    /** The fenced upsert of a take's weights, and the answer that comes back with it. */
    method PutCheckpoint(id: JobId, token: Token, take: TakeId, last: Pair, best: Option<Pair>) returns (v: Answer)
      modifies this`ckpts
      ensures v == AnswerTo(old(View()), id, token)
      ensures View() == Exec(old(View()), Held(id, token, Put(take, last, best)))
      // whose they are, so that a stop finds them again
      ensures v.mine ==>
                && take in ckpts && ckpts[take].job == Some(id) && ckpts[take].token == Some(token)
                && ckpts[take].reached == last.reached && ckpts[take].esr == last.esr && ckpts[take].sha == last.sha
                && ckpts[take].nam == last.nam && ckpts[take].ckpt == last.ckpt
      ensures !v.mine ==> ckpts == old(ckpts)
    {
      if !Mine(View(), id, token) { return Answer(false, false, false); }
      var excluded := Inserted(id, token, last, best);
      if take !in ckpts {
        ckpts := ckpts[take := excluded];
      } else {
        var row := ckpts[take];
        var offered := if best.Some? then best.value.esr else None;
        var wins := offered.Some? && (row.bestEsr.None? || offered.value < row.bestEsr.value);
        row := row.(job := Some(id), token := Some(token), reached := last.reached, esr := last.esr);
        row := row.(sha := last.sha, nam := last.nam, ckpt := last.ckpt);
        if wins {
          row := row.(bestReached := Some(best.value.reached), bestEsr := best.value.esr);
          row := row.(bestSha := Some(best.value.sha), bestNam := Some(best.value.nam));
          row := row.(bestCkpt := Some(best.value.ckpt));
        }
        ckpts := ckpts[take := row];
      }
      return Answer(true, jobs[id].stop, jobs[id].cancel);
    }

    method Checkpoint(take: TakeId) returns (c: Option<Ckpt>)
      ensures c.Some? <==> take in ckpts
      ensures c.Some? ==> c.value == ckpts[take]
    {
      if take !in ckpts { return None; }
      return Some(ckpts[take]);
    }

    method EpochEsr(id: JobId, epoch: int) returns (esr: Option<real>)
      ensures esr.Some? <==> (id, epoch) in epochs && epochs[(id, epoch)].esr.Some?
      ensures esr.Some? ==> esr == epochs[(id, epoch)].esr
    {
      if (id, epoch) !in epochs { return None; }
      return epochs[(id, epoch)].esr;
    }
  }

  /** A non-empty set of candidates has a head: the drain order is total. */
  lemma {:induction false} HeadExists(db: Db, lane: Lane, version: string, locked: set<JobId>, pool: set<JobId>)
    requires pool != {}
    requires pool == set k | k in db.jobs && Candidate(db, lane, version, locked, k)
    ensures exists id :: id in pool && IsNext(db, lane, version, locked, id)
  {
    var id := LeastOf(db, pool);
    forall k | k in db.jobs && Candidate(db, lane, version, locked, k)
      ensures Before(db.jobs[id], id, db.jobs[k], k)
    {
      assert k in pool;
    }
    assert IsNext(db, lane, version, locked, id);
  }

  lemma {:induction false} LeastOf(db: Db, pool: set<JobId>) returns (id: JobId)
    requires pool != {} && pool <= db.jobs.Keys
    ensures id in pool && forall k | k in pool :: Before(db.jobs[id], id, db.jobs[k], k)
  {
    var x :| x in pool;
    id := x;
    if pool != {x} {
      var rest := pool - {x};
      assert pool == rest + {x};
      var y := LeastOf(db, rest);
      if Before(db.jobs[y], y, db.jobs[x], x) { id := y; }
    }
  }

  /** The head is unique: two daemons that see the same unlocked rows see the same head. */
  lemma HeadIsUnique(db: Db, lane: Lane, version: string, locked: set<JobId>, i: JobId, k: JobId)
    requires IsNext(db, lane, version, locked, i) && IsNext(db, lane, version, locked, k)
    ensures i == k
  {
    assert Before(db.jobs[i], i, db.jobs[k], k) && Before(db.jobs[k], k, db.jobs[i], i);
  }
}
