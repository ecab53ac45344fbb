/** The kill/Wait discipline: any number of goroutines killing and one reaping the same
    child, under its entry's mutex, on a machine whose pids are recycled. */
module KillWait {
  import opened Types
  import Attempts

  type Reason = Attempts.Reason
  type Pid = nat
  type EntryId = nat
  type ThreadId = nat

  // ---- the entry, as its methods run ----

  /** The kernel, as far as a kill is concerned: the groups it was asked to kill, in order. */
  class Kernel {
    var killed: seq<Pid>

    constructor ()
      ensures killed == []
    {
      killed := [];
    }

    method KillGroup(pgid: Pid)
      modifies this
      ensures killed == old(killed) + [pgid]
    {
      killed := killed + [pgid];
    }
  }

  class ProcEntry {
    const pgid: Pid
    var reason: Option<Reason>
    var reaping: bool

    constructor (pgid: Pid)
      ensures this.pgid == pgid && reason.None? && !reaping
    {
      this.pgid, reason, reaping := pgid, None, false;
    }

    /** The first caller's reason sticks; once the worker reaps, a kill is nothing at all. */
    method Kill(why: Reason, kernel: Kernel)
      modifies this, kernel
      ensures reaping == old(reaping)
      ensures reason == KilledReason(old(reason), old(reaping), why)
      ensures reason == if old(reaping) || old(reason) != None then old(reason) else Some(why)
      ensures kernel.killed == if old(reaping) then old(kernel.killed) else old(kernel.killed) + [pgid]
    {
      if reaping { return; }
      if reason.None? { reason := Some(why); }
      kernel.KillGroup(pgid);
    }

    /** Closes the door on kills, sweeps the group once more, and returns what was decided. */
    method BeginReap(kernel: Kernel) returns (decided: Option<Reason>)
      modifies this, kernel
      ensures reaping && reason == old(reason) && decided == old(reason)
      ensures kernel.killed == old(kernel.killed) + [pgid]
    {
      reaping := true;
      kernel.KillGroup(pgid);
      return reason;
    }
  }

  function KilledReason(reason: Option<Reason>, reaping: bool, why: Reason): Option<Reason> {
    if reaping || reason.Some? then reason else Some(why)
  }

  // ---- the interleavings ----

  datatype Owner = Child(entry: EntryId) | Stranger

  datatype Entry = Entry(pgid: Pid,
    reason: Option<Reason>, reaping: bool, mu: Option<ThreadId>, reaper: Option<ThreadId>)

  /** Where a goroutine stands. All but the ends are inside the mutex. */
  datatype Thread =
    | KillStart(e: EntryId, why: Reason)
    | KillLocked(e: EntryId, why: Reason)
    | KillSignal(e: EntryId, why: Reason)
    | KillLeave(e: EntryId)
    | ReapStart(e: EntryId)
    | ReapLocked(e: EntryId)
    | ReapSweep(e: EntryId)
    | ReapLeave(e: EntryId, decided: Option<Reason>)
    | WaitNext(e: EntryId, decided: Option<Reason>)
    | Waited(e: EntryId, decided: Option<Reason>)
    | KillDone(e: EntryId)

  /** A SIGKILL: for whose attempt it was meant, and who owned the pid when it arrived. */
  datatype Signal = Signal(e: EntryId, pgid: Pid, hit: Option<Owner>)

  datatype World = World(
    entries: map<EntryId, Entry>,
    pids: map<Pid, Owner>,          // running or zombie; a pid is free again only after its Wait
    threads: map<ThreadId, Thread>,
    sent: seq<Signal>,
    recorded: seq<(EntryId, Reason)>,  // the kills that found the door open, in order
    waited: set<EntryId>)

  datatype Step =
    | Spawn(e: EntryId, pid: Pid)
    | StrangerBorn(pid: Pid)
    | StrangerGone(pid: Pid)
    | CallKill(t: ThreadId, e: EntryId, why: Reason)
    | CallReap(t: ThreadId, e: EntryId)
    | Advance(t: ThreadId)

  predicate Enabled(w: World, s: Step) {
    match s
    case Spawn(e, pid) => e !in w.entries && pid !in w.pids
    case StrangerBorn(pid) => pid !in w.pids
    case StrangerGone(pid) => pid in w.pids && w.pids[pid] == Stranger
    case CallKill(t, e, _) => t !in w.threads && e in w.entries
    case CallReap(t, e) => t !in w.threads && e in w.entries && w.entries[e].reaper.None?
    case Advance(t) =>
      t in w.threads && w.threads[t].e in w.entries
      && !w.threads[t].Waited? && !w.threads[t].KillDone?
      && (w.threads[t].KillStart? || w.threads[t].ReapStart? ==> w.entries[w.threads[t].e].mu.None?)
  }

  function Hit(w: World, pid: Pid): Option<Owner> {
    if pid in w.pids then Some(w.pids[pid]) else None
  }

  /** One instruction of one goroutine. */
  function Ran(w: World, t: ThreadId): World
    requires Enabled(w, Advance(t))
  {
    var e := w.threads[t].e;
    var en := w.entries[e];
    match w.threads[t]
    case KillStart(_, why) =>
      w.(threads := w.threads[t := KillLocked(e, why)], entries := w.entries[e := en.(mu := Some(t))])
    case KillLocked(_, why) =>
      if en.reaping then w.(threads := w.threads[t := KillLeave(e)])
      else w.(threads := w.threads[t := KillSignal(e, why)],
              entries := w.entries[e := en.(reason := KilledReason(en.reason, en.reaping, why))],
              recorded := w.recorded + [(e, why)])
    case KillSignal(_, _) =>
      w.(threads := w.threads[t := KillLeave(e)], sent := w.sent + [Signal(e, en.pgid, Hit(w, en.pgid))])
    case KillLeave(_) => w.(threads := w.threads[t := KillDone(e)], entries := w.entries[e := en.(mu := None)])
    case ReapStart(_) => w.(threads := w.threads[t := ReapLocked(e)], entries := w.entries[e := en.(mu := Some(t))])
    case ReapLocked(_) => w.(threads := w.threads[t := ReapSweep(e)], entries := w.entries[e := en.(reaping := true)])
    case ReapSweep(_) =>
      w.(threads := w.threads[t := ReapLeave(e, en.reason)], sent := w.sent + [Signal(e, en.pgid, Hit(w, en.pgid))])
    case ReapLeave(_, d) => w.(threads := w.threads[t := WaitNext(e, d)], entries := w.entries[e := en.(mu := None)])
    case WaitNext(_, d) =>
      w.(threads := w.threads[t := Waited(e, d)], pids := w.pids - {en.pgid}, waited := w.waited + {e})
    case Waited(_, _) => w
    case KillDone(_) => w
  }

  function Next(w: World, s: Step): World
    requires Enabled(w, s)
  {
    match s
    case Spawn(e, pid) =>
      w.(entries := w.entries[e := Entry(pid, None, false, None, None)], pids := w.pids[pid := Child(e)])
    case StrangerBorn(pid) => w.(pids := w.pids[pid := Stranger])
    case StrangerGone(pid) => w.(pids := w.pids - {pid})
    case CallKill(t, e, why) => w.(threads := w.threads[t := KillStart(e, why)])
    case CallReap(t, e) =>
      w.(threads := w.threads[t := ReapStart(e)], entries := w.entries[e := w.entries[e].(reaper := Some(t))])
    case Advance(t) => Ran(w, t)
  }

  predicate Runs(w: World, ss: seq<Step>)
    decreases |ss|
  {
    ss == [] || (Enabled(w, ss[0]) && Runs(Next(w, ss[0]), ss[1..]))
  }

  function After(w: World, ss: seq<Step>): World
    requires Runs(w, ss)
    decreases |ss|
  {
    if ss == [] then w else After(Next(w, ss[0]), ss[1..])
  }

  predicate Inside(t: Thread) {
    t.KillLocked? || t.KillSignal? || t.KillLeave? || t.ReapLocked? || t.ReapSweep? || t.ReapLeave?
  }

  predicate Reaper(t: Thread) {
    t.ReapStart? || t.ReapLocked? || t.ReapSweep? || t.ReapLeave? || t.WaitNext? || t.Waited?
  }

  predicate PastMark(t: Thread) {
    t.ReapSweep? || t.ReapLeave? || t.WaitNext? || t.Waited?
  }

  /** The first reason recorded for an attempt. */
  function FirstReason(recorded: seq<(EntryId, Reason)>, e: EntryId): Option<Reason> {
    if recorded == [] then None
    else
      var before := FirstReason(recorded[..|recorded|-1], e);
      if before.Some? then before
      else if recorded[|recorded|-1].0 == e then Some(recorded[|recorded|-1].1)
      else None
  }

  ghost predicate ThreadRight(w: World, t: ThreadId)
    requires t in w.threads
  {
    && w.threads[t].e in w.entries
    && var th, en := w.threads[t], w.entries[w.threads[t].e];
       && (Inside(th) ==> en.mu == Some(t))
       && (Reaper(th) ==> en.reaper == Some(t))
       && (th.KillSignal? ==> !en.reaping)
       && (PastMark(th) ==> en.reaping)
       && (th.ReapLeave? || th.WaitNext? || th.Waited? ==> th.decided == en.reason)
       && (Reaper(th) && !th.Waited? ==> th.e !in w.waited)
  }

  ghost predicate EntryRight(w: World, e: EntryId)
    requires e in w.entries
  {
    var en := w.entries[e];
    && (en.reaping ==> en.reaper.Some? && en.reaper.value in w.threads && w.threads[en.reaper.value].e == e
                       && PastMark(w.threads[en.reaper.value]))
    && (en.reaper.Some? ==>
          en.reaper.value in w.threads && w.threads[en.reaper.value].e == e && Reaper(w.threads[en.reaper.value]))
    && (e in w.waited ==> en.reaping)
    && (e !in w.waited ==> en.pgid in w.pids && w.pids[en.pgid] == Child(e))
    && en.reason == FirstReason(w.recorded, e)
  }

  ghost predicate Inv(w: World) {
    && (forall t | t in w.threads :: ThreadRight(w, t))
    && (forall e | e in w.entries :: EntryRight(w, e))
    && (forall e | e !in w.entries :: FirstReason(w.recorded, e).None? && e !in w.waited)
    && (forall i | 0 <= i < |w.sent| :: w.sent[i].hit == Some(Child(w.sent[i].e)))
  }

  lemma RecordedStep(w: World, t: ThreadId, e: EntryId)
    requires Inv(w) && Enabled(w, Advance(t))
    ensures FirstReason(Ran(w, t).recorded, e) ==
              if w.threads[t].KillLocked? && w.threads[t].e == e && !w.entries[e].reaping
              then KilledReason(FirstReason(w.recorded, e), false, w.threads[t].why)
              else FirstReason(w.recorded, e)
  {
    var after := Ran(w, t).recorded;
    if |after| > |w.recorded| { assert after[..|after|-1] == w.recorded; }
  }

  lemma ThreadKept(w: World, t: ThreadId, k: ThreadId)
    requires t in w.threads && k in w.threads && w.threads[t].e in w.entries
    requires ThreadRight(w, t) && EntryRight(w, w.threads[t].e) && ThreadRight(w, k) && Enabled(w, Advance(t))
    ensures ThreadRight(Ran(w, t), k)
  {
    hide FirstReason, SentFor, Hit;
  }

  lemma EntryKept(w: World, t: ThreadId, x: EntryId)
    requires Inv(w) && Enabled(w, Advance(t)) && x in w.entries
    ensures EntryRight(Ran(w, t), x)
  {
    hide Ran, FirstReason;
    RecordedStep(w, t, x);
    if x == w.threads[t].e {
      OwnEntryKept(w, t);
    } else {
      OtherEntryKept(w, t, x);
    }
  }

  lemma OwnEntryKept(w: World, t: ThreadId)
    requires t in w.threads && w.threads[t].e in w.entries && Enabled(w, Advance(t))
    requires ThreadRight(w, t) && EntryRight(w, w.threads[t].e)
    requires var e := w.threads[t].e;
             FirstReason(Ran(w, t).recorded, e) ==
               if w.threads[t].KillLocked? && !w.entries[e].reaping
               then KilledReason(FirstReason(w.recorded, e), false, w.threads[t].why)
               else FirstReason(w.recorded, e)
    ensures EntryRight(Ran(w, t), w.threads[t].e)
  {
    hide Hit, FirstReason;
  }

  /** Another attempt's goroutine frees only its own pid. */
  lemma OtherEntryKept(w: World, t: ThreadId, x: EntryId)
    requires t in w.threads && w.threads[t].e in w.entries && x in w.entries && x != w.threads[t].e
    requires Enabled(w, Advance(t)) && ThreadRight(w, t) && EntryRight(w, w.threads[t].e) && EntryRight(w, x)
    requires FirstReason(Ran(w, t).recorded, x) == FirstReason(w.recorded, x)
    ensures EntryRight(Ran(w, t), x)
  {
    hide Hit, FirstReason;
  }

  lemma AdvanceKeeps(w: World, t: ThreadId)
    requires Inv(w) && Enabled(w, Advance(t))
    ensures Inv(Ran(w, t))
  {
    hide ThreadRight, EntryRight, FirstReason;
    var w' := Ran(w, t);
    forall k | k in w'.threads ensures ThreadRight(w', k) { ThreadKept(w, t, k); }
    forall x | x in w'.entries ensures EntryRight(w', x) { EntryKept(w, t, x); }
    forall x | x !in w'.entries ensures FirstReason(w'.recorded, x).None? && x !in w'.waited { RecordedStep(w, t, x); }
    SignalRight(w, t);
  }

  lemma SignalRight(w: World, t: ThreadId)
    requires Inv(w) && Enabled(w, Advance(t))
    ensures forall i | 0 <= i < |Ran(w, t).sent| :: Ran(w, t).sent[i].hit == Some(Child(Ran(w, t).sent[i].e))
  {
    hide FirstReason;
    assert ThreadRight(w, t) && EntryRight(w, w.threads[t].e);
  }

  lemma OutsideKeeps(w: World, s: Step)
    requires Inv(w) && Enabled(w, s) && !s.Advance?
    ensures forall e | e in Next(w, s).entries :: EntryRight(Next(w, s), e)
  {
    hide FirstReason, Ran, ThreadRight;
    var w' := Next(w, s);
    forall e | e in w'.entries ensures EntryRight(w', e) {
      if e in w.entries { assert EntryRight(w, e); }
    }
  }

  lemma OutsideThreads(w: World, s: Step)
    requires Inv(w) && Enabled(w, s) && !s.Advance?
    ensures forall k | k in Next(w, s).threads :: ThreadRight(Next(w, s), k)
  {
    hide FirstReason, Ran;
    if s.CallReap? { assert EntryRight(w, s.e); }
    forall k | k in Next(w, s).threads ensures ThreadRight(Next(w, s), k) {
      if k in w.threads { assert ThreadRight(w, k); }
    }
  }

  lemma InvStep(w: World, s: Step)
    requires Inv(w) && Enabled(w, s)
    ensures Inv(Next(w, s))
  {
    hide FirstReason, Ran, EntryRight;
    if s.Advance? {
      AdvanceKeeps(w, s.t);
    } else {
      OutsideKeeps(w, s);
      OutsideThreads(w, s);
    }
  }

  lemma {:induction false} InvAlways(w: World, ss: seq<Step>)
    requires Inv(w) && Runs(w, ss)
    ensures Inv(After(w, ss))
    decreases |ss|
  {
    if ss != [] {
      InvStep(w, ss[0]);
      InvAlways(Next(w, ss[0]), ss[1..]);
    }
  }

  predicate Fresh(w: World) {
    w.entries == map[] && w.threads == map[] && w.sent == [] && w.recorded == [] && w.waited == {}
    && forall p | p in w.pids :: w.pids[p] == Stranger
  }

  /** No signal ever reaches a recycled group or another attempt's child. */
  lemma SignalsReachTheirOwn(w: World, ss: seq<Step>)
    requires Fresh(w) && Runs(w, ss)
    ensures forall i | 0 <= i < |After(w, ss).sent| :: After(w, ss).sent[i].hit == Some(Child(After(w, ss).sent[i].e))
  {
    InvAlways(w, ss);
  }

  /** What was decided when an attempt is reaped is the first reason recorded before the
      door closed, and it never changes. */
  lemma FirstReasonSticks(w: World, ss: seq<Step>, t: ThreadId)
    requires Fresh(w) && Runs(w, ss)
    requires var w' := After(w, ss); t in w'.threads && (w'.threads[t].WaitNext? || w'.threads[t].Waited?)
    ensures var w' := After(w, ss); w'.threads[t].decided == FirstReason(w'.recorded, w'.threads[t].e)
  {
    InvAlways(w, ss);
    assert ThreadRight(After(w, ss), t);
    assert EntryRight(After(w, ss), After(w, ss).threads[t].e);
  }

  function SentFor(sent: seq<Signal>, e: EntryId): nat {
    if sent == [] then 0
    else SentFor(sent[..|sent|-1], e) + if sent[|sent|-1].e == e then 1 else 0
  }

  lemma SentStep(w: World, s: Step, e: EntryId)
    requires Inv(w) && Enabled(w, s) && e in w.waited
    ensures SentFor(Next(w, s).sent, e) == SentFor(w.sent, e) && e in Next(w, s).waited
    ensures FirstReason(Next(w, s).recorded, e) == FirstReason(w.recorded, e)
  {
    var after := Next(w, s).sent;
    assert e in w.entries && EntryRight(w, e);
    if s.Advance? {
      assert ThreadRight(w, s.t);
      RecordedStep(w, s.t, e);
    }
    if |after| > |w.sent| { assert after[..|after|-1] == w.sent; }
  }

  /** After its Wait an attempt is never signalled again, however late the kill. */
  lemma {:induction false} NoSignalAfterWait(w: World, ss: seq<Step>, e: EntryId)
    requires Inv(w) && Runs(w, ss) && e in w.waited
    ensures SentFor(After(w, ss).sent, e) == SentFor(w.sent, e)
    ensures FirstReason(After(w, ss).recorded, e) == FirstReason(w.recorded, e)
    decreases |ss|
  {
    if ss != [] {
      InvStep(w, ss[0]);
      SentStep(w, ss[0], e);
      NoSignalAfterWait(Next(w, ss[0]), ss[1..], e);
    }
  }

  /** While a goroutine is inside the mutex, nobody else moves the entry's fields. */
  lemma MutexProtects(w: World, s: Step, t: ThreadId)
    requires Inv(w) && Enabled(w, s) && t in w.threads && Inside(w.threads[t]) && s != Advance(t)
    ensures var e := w.threads[t].e;
            && e in Next(w, s).entries
            && Next(w, s).entries[e].reason == w.entries[e].reason
            && Next(w, s).entries[e].reaping == w.entries[e].reaping
            && Next(w, s).entries[e].mu == Some(t)
  {
    assert ThreadRight(w, t);
    if s.Advance? { assert ThreadRight(w, s.t); }
  }

  /** A Wait gives the pid back, and the machine may hand it to anybody, also to the next
      attempt's child, while anyone may still call a kill for the attempt that had it. */
  lemma PidsAreRecycled(w: World, t: ThreadId, e2: EntryId, late: ThreadId, why: Reason)
    requires Inv(w) && t in w.threads && w.threads[t].WaitNext? && e2 !in w.entries && late !in w.threads
    ensures Enabled(w, Advance(t))
    ensures var e := w.threads[t].e;
            var w1 := Next(w, Advance(t));
            && e in w.entries && e in w1.waited && w1.threads[t] == Waited(e, w.threads[t].decided)
            && w.entries[e].pgid !in w1.pids
            && Enabled(w1, StrangerBorn(w.entries[e].pgid)) && Enabled(w1, Spawn(e2, w.entries[e].pgid))
            && var w2 := Next(w1, Spawn(e2, w.entries[e].pgid));
               && w2.pids[w.entries[e].pgid] == Child(e2)
               && Enabled(w2, CallKill(late, e, why))
               && Next(w2, CallKill(late, e, why)).threads[late] == KillStart(e, why)
  {
    hide FirstReason;
    assert ThreadRight(w, t);
  }

  /** Nobody waits but for the mutex. */
  lemma OnlyTheMutexWaits(w: World, t: ThreadId)
    requires Inv(w) && t in w.threads && !w.threads[t].KillDone? && !w.threads[t].Waited?
    ensures Enabled(w, Advance(t)) <==>
              !((w.threads[t].KillStart? || w.threads[t].ReapStart?) && w.entries[w.threads[t].e].mu.Some?)
    ensures forall e, k, why | e in w.entries && k !in w.threads :: Enabled(w, CallKill(k, e, why))
    ensures forall e, k | e in w.entries && k !in w.threads && w.entries[e].reaper.None? :: Enabled(w, CallReap(k, e))
  {
    hide FirstReason;
    assert ThreadRight(w, t);
  }

  /** One goroutine inside the mutex: whatever the others do, the entry is as it left it,
      and nobody else signals that attempt's group. */
  lemma OthersStandBack(w: World, s: Step, t: ThreadId)
    requires Inv(w) && Enabled(w, s) && t in w.threads && Inside(w.threads[t]) && s != Advance(t)
    ensures var e, w' := w.threads[t].e, Next(w, s);
            && t in w'.threads && w'.threads[t] == w.threads[t] && e in w.entries && e in w'.entries
            && w'.entries[e].reason == w.entries[e].reason && w'.entries[e].reaping == w.entries[e].reaping
            && SentFor(w'.sent, e) == SentFor(w.sent, e)
  {
    MutexProtects(w, s, t);
    hide FirstReason;
    assert ThreadRight(w, t);
    var after := Next(w, s).sent;
    if s.Advance? { assert ThreadRight(w, s.t); }
    if |after| > |w.sent| { assert after[..|after|-1] == w.sent; }
  }

  /** How far a kill has got that took the mutex when the entry was `was` and `n` signals
      had gone to it. */
  predicate KillAt(w: World, t: ThreadId, e: EntryId, why: Reason, was: Entry, n: nat) {
    && t in w.threads && w.threads[t].e == e && e in w.entries
    && var en, k := w.entries[e], SentFor(w.sent, e);
       match w.threads[t]
       case KillLocked(_, y) => y == why && en.reason == was.reason && en.reaping == was.reaping && k == n
       case KillSignal(_, y) =>
         y == why && !was.reaping && !en.reaping && en.reason == KilledReason(was.reason, false, why) && k == n
       case KillLeave(_) =>
         && en.reaping == was.reaping && en.reason == KilledReason(was.reason, was.reaping, why)
         && k == if was.reaping then n else n + 1
       case _ => false
  }

  lemma KillStep(w: World, s: Step, t: ThreadId, e: EntryId, why: Reason, was: Entry, n: nat)
    requires Inv(w) && Enabled(w, s) && KillAt(w, t, e, why, was, n)
    ensures KillAt(Next(w, s), t, e, why, was, n) || (t in Next(w, s).threads && Next(w, s).threads[t].KillDone?)
  {
    hide Inv;
    if s != Advance(t) {
      OthersStandBack(w, s, t);
    } else {
      var after := Next(w, s).sent;
      if |after| > |w.sent| { assert after[..|after|-1] == w.sent; }
    }
  }

  lemma {:induction false} DoneStays(w: World, ss: seq<Step>, t: ThreadId)
    requires Runs(w, ss) && t in w.threads && (w.threads[t].KillDone? || w.threads[t].Waited? || w.threads[t].WaitNext?)
    ensures var w' := After(w, ss);
            t in w'.threads && (w'.threads[t].KillDone? || w'.threads[t].Waited? || w'.threads[t].WaitNext?)
    decreases |ss|
  {
    if ss != [] { DoneStays(Next(w, ss[0]), ss[1..], t); }
  }

  /** The steps of a kill, however they are interleaved with everybody else's, are together
      the method: from taking the mutex to giving it up the entry and its signals change as
      ProcEntry.Kill promises. */
  lemma {:induction false} KillIsItsMethod(w: World, ss: seq<Step>, t: ThreadId,
                                       e: EntryId, why: Reason, was: Entry, n: nat)
    requires Inv(w) && Runs(w, ss) && KillAt(w, t, e, why, was, n)
    requires t in After(w, ss).threads && After(w, ss).threads[t].KillLeave?
    ensures var w' := After(w, ss);
            && e in w'.entries && w'.entries[e].reaping == was.reaping
            && w'.entries[e].reason == KilledReason(was.reason, was.reaping, why)
            && SentFor(w'.sent, e) == if was.reaping then n else n + 1
    decreases |ss|
  {
    hide Next, Enabled, Inv;
    if ss != [] {
      InvStep(w, ss[0]);
      KillStep(w, ss[0], t, e, why, was, n);
      var w1 := Next(w, ss[0]);
      if KillAt(w1, t, e, why, was, n) {
        KillIsItsMethod(w1, ss[1..], t, e, why, was, n);
      } else {
        DoneStays(w1, ss[1..], t);
      }
    }
  }

  predicate ReapAt(w: World, t: ThreadId, e: EntryId, was: Entry, n: nat) {
    && t in w.threads && w.threads[t].e == e && e in w.entries
    && var en, k := w.entries[e], SentFor(w.sent, e);
       match w.threads[t]
       case ReapLocked(_) => en.reason == was.reason && k == n
       case ReapSweep(_) => en.reason == was.reason && en.reaping && k == n
       case ReapLeave(_, d) => d == was.reason && en.reason == was.reason && en.reaping && k == n + 1
       case _ => false
  }

  lemma ReapStep(w: World, s: Step, t: ThreadId, e: EntryId, was: Entry, n: nat)
    requires Inv(w) && Enabled(w, s) && ReapAt(w, t, e, was, n)
    ensures ReapAt(Next(w, s), t, e, was, n) || (t in Next(w, s).threads && Next(w, s).threads[t].WaitNext?)
  {
    hide Inv;
    if s != Advance(t) {
      OthersStandBack(w, s, t);
    } else {
      var after := Next(w, s).sent;
      if |after| > |w.sent| { assert after[..|after|-1] == w.sent; }
    }
  }

  /** And those of a reap are together ProcEntry.BeginReap. */
  lemma {:induction false} ReapIsItsMethod(w: World, ss: seq<Step>, t: ThreadId, e: EntryId, was: Entry, n: nat)
    requires Inv(w) && Runs(w, ss) && ReapAt(w, t, e, was, n)
    requires t in After(w, ss).threads && After(w, ss).threads[t].ReapLeave?
    ensures var w' := After(w, ss);
            && e in w'.entries && w'.entries[e].reaping && w'.entries[e].reason == was.reason
            && w'.threads[t].decided == was.reason && SentFor(w'.sent, e) == n + 1
    decreases |ss|
  {
    hide Next, Enabled, Inv;
    if ss != [] {
      InvStep(w, ss[0]);
      ReapStep(w, ss[0], t, e, was, n);
      var w1 := Next(w, ss[0]);
      if ReapAt(w1, t, e, was, n) {
        ReapIsItsMethod(w1, ss[1..], t, e, was, n);
      } else {
        DoneStays(w1, ss[1..], t);
      }
    }
  }
}
