/** The checkpoint write against a discarding cancel, statement by statement and lock by
    lock, on the one row of weights a take has. Uncommitted effects are invisible; a row
    lock is held to the end of its transaction. */
module Resurrection {
  import opened Types

  type TxnId = nat

  datatype RowState = Waiting | Live(token: Token, paused: bool) | Closed

  datatype Txn =
    | Writing(job: JobId, token: Token, at: WritePoint)
    | Discarding(job: JobId, done: DiscardPoint)

  datatype WritePoint = ToFence | Fenced(mine: bool) | Stored | WriteOver
  datatype DiscardPoint = ToClose | RowClosed | WeightsGone | DiscardOver

  datatype World = World(
    rows: map<JobId, RowState>,
    weights: Option<JobId>,            // which job's weights the take carries, if any
    txns: map<TxnId, Txn>,
    rowLocks: map<JobId, TxnId>,
    weightsLock: Option<TxnId>,
    discarded: set<JobId>)             // jobs whose discarding cancel has committed

  datatype Step =
    | Begin(id: TxnId, txn: Txn)
    | Advance(id: TxnId)
    | Update(job: JobId, row: RowState)

  predicate FenceHolds(w: World, job: JobId, token: Token) {
    job in w.rows && w.rows[job] == Live(token, false)
  }

  /** Whether a step can be taken now; a step that waits on a lock is not enabled. The
      checkpoint write takes the row lock only when it says FOR UPDATE. */
  predicate Enabled(w: World, s: Step, forUpdate: bool) {
    match s
    case Begin(id, txn) =>
      id !in w.txns && (txn.Writing? ==> txn.at == ToFence) && (txn.Discarding? ==> txn.done == ToClose)
    case Update(job, row) =>
      job in w.rows && job !in w.rowLocks && (w.rows[job] == Closed ==> row == Closed)
    case Advance(id) =>
      id in w.txns &&
      match w.txns[id]
      case Writing(job, token, at) =>
        (match at
         case ToFence => forUpdate ==> job !in w.rowLocks
         case Fenced(mine) => mine ==> w.weightsLock.None?
         case Stored => true
         case WriteOver => false)
      case Discarding(job, done) =>
        (match done
         case ToClose => job in w.rows && w.rows[job] != Closed && job !in w.rowLocks
         case RowClosed => w.weightsLock.None?
         case WeightsGone => true
         case DiscardOver => false)
  }

  function Unlocked(locks: map<JobId, TxnId>, job: JobId, id: TxnId): map<JobId, TxnId> {
    if job in locks && locks[job] == id then locks - {job} else locks
  }

  function WriteStep(w: World, id: TxnId, job: JobId, token: Token, at: WritePoint, forUpdate: bool): World {
    match at
    case ToFence =>
      // FOR UPDATE waits for the lock and judges the row as it then stands
      var mine := FenceHolds(w, job, token);
      w.(txns := w.txns[id := Writing(job, token, Fenced(mine))],
         rowLocks := if forUpdate && mine then w.rowLocks[job := id] else w.rowLocks)
    case Fenced(mine) =>
      if !mine then w.(txns := w.txns[id := Writing(job, token, WriteOver)])
      else w.(txns := w.txns[id := Writing(job, token, Stored)], weightsLock := Some(id))
    case Stored =>
      w.(txns := w.txns[id := Writing(job, token, WriteOver)], weights := Some(job),
         weightsLock := None, rowLocks := Unlocked(w.rowLocks, job, id))
    case WriteOver => w
  }

  function DiscardStep(w: World, id: TxnId, job: JobId, done: DiscardPoint): World {
    match done
    case ToClose => w.(txns := w.txns[id := Discarding(job, RowClosed)], rowLocks := w.rowLocks[job := id])
    case RowClosed => w.(txns := w.txns[id := Discarding(job, WeightsGone)], weightsLock := Some(id))
    case WeightsGone =>
      w.(txns := w.txns[id := Discarding(job, DiscardOver)], rows := w.rows[job := Closed], weights := None,
         weightsLock := None, rowLocks := Unlocked(w.rowLocks, job, id), discarded := w.discarded + {job})
    case DiscardOver => w
  }

  function Next(w: World, s: Step, forUpdate: bool): World
    requires Enabled(w, s, forUpdate)
  {
    match s
    case Begin(id, txn) => w.(txns := w.txns[id := txn])
    case Update(job, row) => w.(rows := w.rows[job := row])
    case Advance(id) =>
      match w.txns[id]
      case Writing(job, token, at) => WriteStep(w, id, job, token, at, forUpdate)
      case Discarding(job, done) => DiscardStep(w, id, job, done)
  }

  predicate Runs(w: World, ss: seq<Step>, forUpdate: bool)
    decreases |ss|
  {
    ss == [] || (Enabled(w, ss[0], forUpdate) && Runs(Next(w, ss[0], forUpdate), ss[1..], forUpdate))
  }

  function After(w: World, ss: seq<Step>, forUpdate: bool): World
    requires Runs(w, ss, forUpdate)
    decreases |ss|
  {
    if ss == [] then w else After(Next(w, ss[0], forUpdate), ss[1..], forUpdate)
  }

  predicate Quiet(w: World) {
    w.txns == map[] && w.rowLocks == map[] && w.weightsLock.None? && w.discarded == {}
  }

  /** A transaction past its first statement holds the lock on its job's row. */
  predicate HoldsRow(t: Txn) {
    match t
    case Writing(_, _, at) => at == Fenced(true) || at == Stored
    case Discarding(_, done) => done == RowClosed || done == WeightsGone
  }

  ghost predicate Inv(w: World) {
    && (forall id | id in w.txns && HoldsRow(w.txns[id]) ::
          w.txns[id].job in w.rowLocks && w.rowLocks[w.txns[id].job] == id)
    && (forall id | id in w.txns && w.txns[id].Writing? && HoldsRow(w.txns[id]) ::
          FenceHolds(w, w.txns[id].job, w.txns[id].token))
    && (forall job | job in w.discarded :: job in w.rows && w.rows[job] == Closed && w.weights != Some(job))
  }

  lemma InvStep(w: World, s: Step)
    requires Inv(w) && Enabled(w, s, true)
    ensures Inv(Next(w, s, true))
    ensures w.discarded <= Next(w, s, true).discarded
  {
  }

  lemma {:induction false} InvAlways(w: World, ss: seq<Step>)
    requires Inv(w) && Runs(w, ss, true)
    ensures Inv(After(w, ss, true)) && w.discarded <= After(w, ss, true).discarded
    decreases |ss|
  {
    if ss != [] {
      InvStep(w, ss[0]);
      InvAlways(Next(w, ss[0], true), ss[1..]);
    }
  }

  /** Once a discarding cancel has committed, no write of that job puts the weights back,
      whatever was in flight and whatever comes after. */
  lemma NoResurrection(w: World, before: seq<Step>, after: seq<Step>, job: JobId)
    requires Quiet(w) && Runs(w, before, true) && Runs(After(w, before, true), after, true)
    requires job in After(w, before, true).discarded
    ensures After(After(w, before, true), after, true).weights != Some(job)
  {
    InvAlways(w, before);
    InvAlways(After(w, before, true), after);
  }

  /** Without the lock the race is lost: the fence is read, the cancel commits, and the
      retried insert puts the weights back for good. */
  lemma WithoutTheLockTheyComeBack(w: World, job: JobId, token: Token) returns (ss: seq<Step>)
    requires Quiet(w) && job in w.rows && w.rows[job] == Live(token, false)
    ensures Runs(w, ss, false) && job in After(w, ss, false).discarded && After(w, ss, false).weights == Some(job)
  {
    var early := FenceThenCancel(w, job, token);
    var late := CancelThenInsert(After(w, early, false), job, token);
    RunsAppend(w, early, late, false);
    ss := early + late;
  }

  /** The write has read its fence and the cancel has closed the row. */
  predicate Racing(w: World, job: JobId, token: Token) {
    && job in w.rows && w.weightsLock.None? && 0 in w.txns && 1 in w.txns
    && w.txns[0] == Writing(job, token, Fenced(true)) && w.txns[1] == Discarding(job, RowClosed)
  }

  lemma FenceThenCancel(w: World, job: JobId, token: Token) returns (ss: seq<Step>)
    requires Quiet(w) && job in w.rows && w.rows[job] == Live(token, false)
    ensures Runs(w, ss, false) && Racing(After(w, ss, false), job, token)
  {
    ss := [Begin(0, Writing(job, token, ToFence)), Begin(1, Discarding(job, ToClose)), Advance(0), Advance(1)];
    var w1 := Next(w, ss[0], false);
    var w2 := Next(w1, ss[1], false);
    var w3 := Next(w2, ss[2], false);
    var w4 := Next(w3, ss[3], false);
    Unfolds(w3, ss[3..], w4);
    Unfolds(w2, ss[2..], w4);
    Unfolds(w1, ss[1..], w4);
    Unfolds(w, ss, w4);
  }

  lemma CancelThenInsert(w: World, job: JobId, token: Token) returns (ss: seq<Step>)
    requires Racing(w, job, token)
    ensures Runs(w, ss, false) && job in After(w, ss, false).discarded && After(w, ss, false).weights == Some(job)
  {
    ss := [Advance(1), Advance(1), Advance(0), Advance(0)];
    var w1 := Next(w, ss[0], false);
    var w2 := Next(w1, ss[1], false);
    var w3 := Next(w2, ss[2], false);
    var w4 := Next(w3, ss[3], false);
    Unfolds(w3, ss[3..], w4);
    Unfolds(w2, ss[2..], w4);
    Unfolds(w1, ss[1..], w4);
    Unfolds(w, ss, w4);
  }

  /** The lock costs an honest write nothing: alone with its row it stores. */
  lemma AloneItStores(w: World, job: JobId, token: Token) returns (ss: seq<Step>)
    requires Quiet(w) && job in w.rows && w.rows[job] == Live(token, false)
    ensures Runs(w, ss, true) && After(w, ss, true).weights == Some(job) && After(w, ss, true).rowLocks == map[]
  {
    ss := [Begin(0, Writing(job, token, ToFence)), Advance(0), Advance(0), Advance(0)];
    var w1 := Next(w, ss[0], true);
    var w2 := Next(w1, ss[1], true);
    var w3 := Next(w2, ss[2], true);
    var w4 := Next(w3, ss[3], true);
    assert w4.rowLocks == map[];
    OneMore(w3, ss[3..], w4);
    OneMore(w2, ss[2..], w4);
    OneMore(w1, ss[1..], w4);
    OneMore(w, ss, w4);
  }

  /** And a cancel alone discards. */
  lemma AloneItDiscards(w: World, job: JobId) returns (ss: seq<Step>)
    requires Quiet(w) && job in w.rows && w.rows[job] != Closed
    ensures Runs(w, ss, true) && job in After(w, ss, true).discarded && After(w, ss, true).weights.None?
    ensures job in After(w, ss, true).rows && After(w, ss, true).rows[job] == Closed
  {
    ss := [Begin(0, Discarding(job, ToClose)), Advance(0), Advance(0), Advance(0)];
    var w1 := Next(w, ss[0], true);
    var w2 := Next(w1, ss[1], true);
    var w3 := Next(w2, ss[2], true);
    var w4 := Next(w3, ss[3], true);
    OneMore(w3, ss[3..], w4);
    OneMore(w2, ss[2..], w4);
    OneMore(w1, ss[1..], w4);
    OneMore(w, ss, w4);
  }

  lemma OneMore(w: World, ss: seq<Step>, end: World)
    requires ss != [] && Enabled(w, ss[0], true)
    requires Runs(Next(w, ss[0], true), ss[1..], true) && After(Next(w, ss[0], true), ss[1..], true) == end
    ensures Runs(w, ss, true) && After(w, ss, true) == end
  {
  }

  lemma {:induction false} RunsAppend(w: World, ss: seq<Step>, more: seq<Step>, forUpdate: bool)
    requires Runs(w, ss, forUpdate) && Runs(After(w, ss, forUpdate), more, forUpdate)
    ensures Runs(w, ss + more, forUpdate)
    ensures After(w, ss + more, forUpdate) == After(After(w, ss, forUpdate), more, forUpdate)
    decreases |ss|
  {
    hide Next, Enabled;
    if ss == [] {
      assert ss + more == more;
    } else {
      assert (ss + more)[1..] == ss[1..] + more;
      RunsAppend(Next(w, ss[0], forUpdate), ss[1..], more, forUpdate);
    }
  }

  lemma Unfolds(w: World, ss: seq<Step>, end: World)
    requires ss != [] && Enabled(w, ss[0], false)
    requires Runs(Next(w, ss[0], false), ss[1..], false) && After(Next(w, ss[0], false), ss[1..], false) == end
    ensures Runs(w, ss, false) && After(w, ss, false) == end
  {
  }
}
