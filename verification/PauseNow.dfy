/** "Pause now" against the claim-to-register window: a flag, a snapshot of the running
    children and a kill loop on one side; register, one look at the flag and the reaping
    on the other; any number of both, and Resume at any time. */
module PauseNow {
  import opened Types
  import Attempts
  import KillWait

  type EntryId = nat
  type PauserId = nat

  // ---- the registry, as its methods run ----

  class Registry {
    var procs: map<JobId, EntryId>

    constructor ()
      ensures procs == map[]
    {
      procs := map[];
    }

    method Register(id: JobId, e: EntryId)
      modifies this
      ensures procs == Filed(old(procs), id, e)
      ensures id in procs && procs[id] == e && forall k | k != id :: Lookup(procs, k) == Lookup(old(procs), k)
    {
      procs := procs[id := e];
    }

    /** Compare-and-delete: a lagging teardown cannot drop a newer attempt's entry. */
    method Unregister(id: JobId, e: EntryId)
      modifies this
      ensures procs == Dropped(old(procs), id, e)
      ensures id in procs ==> procs[id] != e
      ensures !(id in old(procs) && old(procs)[id] == e) ==> procs == old(procs)
      ensures forall k | k != id :: Lookup(procs, k) == Lookup(old(procs), k)
    {
      if id in procs && procs[id] == e {
        procs := procs - {id};
      }
    }

    /** What Pause copies out under the lock. */
    method Snapshot() returns (entries: set<EntryId>)
      ensures forall e :: e in entries <==> exists id :: id in procs && procs[id] == e
    {
      entries := procs.Values;
    }
  }

  function Lookup(procs: map<JobId, EntryId>, id: JobId): Option<EntryId> {
    if id in procs then Some(procs[id]) else None
  }

  function Filed(procs: map<JobId, EntryId>, id: JobId, e: EntryId): map<JobId, EntryId> {
    procs[id := e]
  }

  function Dropped(procs: map<JobId, EntryId>, id: JobId, e: EntryId): map<JobId, EntryId> {
    if id in procs && procs[id] == e then procs - {id} else procs
  }

  // ---- the interleavings ----

  datatype Point = Spawned | Registered | SawFlag | Checked

  datatype Entry = Entry(job: JobId, at: Point, reason: Option<Attempts.Reason>, reaping: bool)

  /** One call of Pause(true). `intact` turns false at a Resume after its flag went up. */
  datatype Pauser = Pauser(raised: bool, snapped: bool, todo: set<EntryId>, finished: bool, intact: bool)

  datatype World = World(
    pauseKill: bool, procs: map<JobId, EntryId>, entries: map<EntryId, Entry>, pausers: map<PauserId, Pauser>,
    displaced: set<EntryId>)           // entries a later register has taken the place of

  datatype Step =
    | Spawn(e: EntryId, job: JobId)
    | Register(e: EntryId)
    | LoadFlag(e: EntryId)
    | KillSelf(e: EntryId)
    | KillFor(e: EntryId, why: Attempts.Reason)
    | Reap(e: EntryId)
    | Unregister(e: EntryId)
    | CallPause(p: PauserId)
    | Raise(p: PauserId)
    | Snap(p: PauserId)
    | KillOne(p: PauserId, e: EntryId)
    | Finish(p: PauserId)
    | Resume

  /** `flagFirst` is the order the code uses: the flag is up before the snapshot. */
  predicate Enabled(w: World, s: Step, flagFirst: bool) {
    match s
    case Spawn(e, _) => e !in w.entries
    case Register(e) => e in w.entries && w.entries[e].at == Spawned
    case LoadFlag(e) => e in w.entries && w.entries[e].at == Registered
    case KillSelf(e) => e in w.entries && w.entries[e].at == SawFlag
    case KillFor(e, _) => e in w.entries
    case Reap(e) => e in w.entries && w.entries[e].at == Checked
    case Unregister(e) => e in w.entries && w.entries[e].reaping
    case CallPause(p) => p !in w.pausers
    case Raise(p) => p in w.pausers && !w.pausers[p].raised && (flagFirst ==> !w.pausers[p].snapped)
    case Snap(p) => p in w.pausers && !w.pausers[p].snapped && (flagFirst ==> w.pausers[p].raised)
    case KillOne(p, e) => p in w.pausers && e in w.pausers[p].todo
    case Finish(p) => p in w.pausers && w.pausers[p].raised && w.pausers[p].snapped && w.pausers[p].todo == {}
    case Resume => true
  }

  function Killed(en: Entry, why: Attempts.Reason): Entry {
    en.(reason := KillWait.KilledReason(en.reason, en.reaping, why))
  }

  function KilledIn(entries: map<EntryId, Entry>, e: EntryId, why: Attempts.Reason): map<EntryId, Entry> {
    if e in entries then entries[e := Killed(entries[e], why)] else entries
  }

  function Next(w: World, s: Step, flagFirst: bool): World
    requires Enabled(w, s, flagFirst)
  {
    match s
    case Spawn(e, job) => w.(entries := w.entries[e := Entry(job, Spawned, None, false)])
    case Register(e) =>
      var id := w.entries[e].job;
      w.(entries := w.entries[e := w.entries[e].(at := Registered)], procs := Filed(w.procs, id, e),
         displaced := if id in w.procs then w.displaced + {w.procs[id]} else w.displaced)
    case LoadFlag(e) => w.(entries := w.entries[e := w.entries[e].(at := if w.pauseKill then SawFlag else Checked)])
    case KillSelf(e) => w.(entries := w.entries[e := Killed(w.entries[e], Attempts.ByPause).(at := Checked)])
    case KillFor(e, why) => w.(entries := KilledIn(w.entries, e, why))
    case Reap(e) => w.(entries := w.entries[e := w.entries[e].(reaping := true)])
    case Unregister(e) => w.(procs := Dropped(w.procs, w.entries[e].job, e))
    case CallPause(p) => w.(pausers := w.pausers[p := Pauser(false, false, {}, false, false)])
    case Raise(p) => w.(pauseKill := true, pausers := w.pausers[p := w.pausers[p].(raised := true, intact := true)])
    case Snap(p) => w.(pausers := w.pausers[p := w.pausers[p].(snapped := true, todo := w.procs.Values)])
    case KillOne(p, e) =>
      w.(pausers := w.pausers[p := w.pausers[p].(todo := w.pausers[p].todo - {e})],
         entries := KilledIn(w.entries, e, Attempts.ByPause))
    case Finish(p) => w.(pausers := w.pausers[p := w.pausers[p].(finished := true)])
    case Resume => w.(pauseKill := false, pausers := map p | p in w.pausers :: w.pausers[p].(intact := false))
  }

  predicate Runs(w: World, ss: seq<Step>, flagFirst: bool)
    decreases |ss|
  {
    ss == [] || (Enabled(w, ss[0], flagFirst) && Runs(Next(w, ss[0], flagFirst), ss[1..], flagFirst))
  }

  function After(w: World, ss: seq<Step>, flagFirst: bool): World
    requires Runs(w, ss, flagFirst)
    decreases |ss|
  {
    if ss == [] then w else After(Next(w, ss[0], flagFirst), ss[1..], flagFirst)
  }

  /** Caught, about to be, or no longer anybody's to catch. */
  predicate Covered(w: World, p: Pauser, e: EntryId) {
    e in w.entries &&
    (w.entries[e].reason.Some? || w.entries[e].reaping || e in p.todo
     || w.entries[e].at == Registered || w.entries[e].at == SawFlag)
  }

  ghost predicate PauserRight(w: World, p: Pauser) {
    && (p.intact ==> w.pauseKill)
    && (p.snapped ==> p.raised)
    && (p.finished ==> p.snapped && p.todo == {})
    && (p.intact && p.snapped ==> forall id | id in w.procs :: Covered(w, p, w.procs[id]))
  }

  ghost predicate Inv(w: World) {
    && (forall id | id in w.procs ::
          w.procs[id] in w.entries && w.entries[w.procs[id]].at != Spawned && w.entries[w.procs[id]].job == id)
    && (forall p | p in w.pausers :: PauserRight(w, w.pausers[p]))
  }

  lemma ProcsStep(w: World, s: Step)
    requires Inv(w) && Enabled(w, s, true)
    ensures var w' := Next(w, s, true);
            forall id | id in w'.procs ::
              w'.procs[id] in w'.entries && w'.entries[w'.procs[id]].at != Spawned && w'.entries[w'.procs[id]].job == id
  {
  }

  lemma PauserStep(w: World, s: Step, p: PauserId)
    requires Inv(w) && Enabled(w, s, true) && p in Next(w, s, true).pausers
    ensures PauserRight(Next(w, s, true), Next(w, s, true).pausers[p])
  {
    var w' := Next(w, s, true);
    var q := w'.pausers[p];
    if p in w.pausers {
      assert PauserRight(w, w.pausers[p]);
      forall id | q.intact && q.snapped && id in w'.procs ensures Covered(w', q, w'.procs[id]) {
        if id in w.procs && w.procs[id] == w'.procs[id] && w.pausers[p].snapped {
          assert Covered(w, w.pausers[p], w.procs[id]);
        }
      }
    }
  }

  lemma {:induction false} InvAlways(w: World, ss: seq<Step>)
    requires Inv(w) && Runs(w, ss, true)
    ensures Inv(After(w, ss, true))
    decreases |ss|
  {
    if ss != [] {
      var w' := Next(w, ss[0], true);
      ProcsStep(w, ss[0]);
      forall p | p in w'.pausers ensures PauserRight(w', w'.pausers[p]) { PauserStep(w, ss[0], p); }
      InvAlways(w', ss[1..]);
    }
  }

  /** A Resume lifts the flag: no child that looks after it, and before another pause, is
      stopped by its own look. */
  lemma ResumeLifts(w: World, e: EntryId)
    requires e in w.entries && w.entries[e].at == Registered
    ensures Enabled(w, Resume, true) && !Next(w, Resume, true).pauseKill
    ensures var w' := Next(w, Resume, true);
            Enabled(w', LoadFlag(e), true) && Next(w', LoadFlag(e), true).entries[e] == w.entries[e].(at := Checked)
    ensures forall p | p in w.pausers :: !Next(w, Resume, true).pausers[p].intact
  {
  }

  /** A pause never waits: until it is finished it has a step of its own, and each kill
      leaves one entry fewer to do. */
  lemma PauseNeverWaits(w: World, p: PauserId)
    requires p in w.pausers && !w.pausers[p].finished && (w.pausers[p].snapped ==> w.pausers[p].raised)
    ensures !w.pausers[p].raised ==> Enabled(w, Raise(p), true) && Next(w, Raise(p), true).pauseKill
    ensures w.pausers[p].raised && !w.pausers[p].snapped ==>
              Enabled(w, Snap(p), true) && Next(w, Snap(p), true).pausers[p].todo == w.procs.Values
    ensures w.pausers[p].snapped ==>
              forall e | e in w.pausers[p].todo ::
                Enabled(w, KillOne(p, e), true) && |Next(w, KillOne(p, e), true).pausers[p].todo| < |w.pausers[p].todo|
    ensures w.pausers[p].snapped && w.pausers[p].todo == {} ==>
              Enabled(w, Finish(p), true) && Next(w, Finish(p), true).pausers[p].finished
  {
    forall e | w.pausers[p].snapped && e in w.pausers[p].todo
      ensures |Next(w, KillOne(p, e), true).pausers[p].todo| < |w.pausers[p].todo|
    {
      var todo := w.pausers[p].todo;
      assert todo == (todo - {e}) + {e};
    }
  }

  predicate Idle(w: World) {
    w.procs == map[] && w.pausers == map[]
  }

  /** When a Pause(true) has finished its loop and no Resume came, every attempt still
      registered, past its own look at the flag and not being reaped carries a reason. */
  lemma PauseMissesNobody(w: World, ss: seq<Step>, p: PauserId, id: JobId)
    requires Idle(w) && Runs(w, ss, true)
    requires var w' := After(w, ss, true);
             p in w'.pausers && w'.pausers[p].finished && w'.pausers[p].intact && id in w'.procs
    ensures var w' := After(w, ss, true);
            var e := w'.procs[id];
            e in w'.entries && (w'.entries[e].at == Checked && !w'.entries[e].reaping ==> w'.entries[e].reason.Some?)
  {
    InvAlways(w, ss);
    var w' := After(w, ss, true);
    assert PauserRight(w', w'.pausers[p]);
    assert Covered(w', w'.pausers[p], w'.procs[id]);
  }

  /** The pool as it starts. */
  predicate Fresh(w: World) {
    Idle(w) && w.entries == map[] && w.displaced == {}
  }

  /** A live child past its register is in the registry, unless another's register took its
      place there. */
  ghost predicate Known(w: World) {
    forall e | e in w.entries && w.entries[e].at != Spawned && !w.entries[e].reaping ::
      e in w.displaced || (w.entries[e].job in w.procs && w.procs[w.entries[e].job] == e)
  }

  lemma {:induction false} KnownAlways(w: World, ss: seq<Step>)
    requires Known(w) && Runs(w, ss, true)
    ensures Known(After(w, ss, true))
    decreases |ss|
  {
    if ss != [] {
      KnownStep(w, ss[0]);
      hide Next, Enabled;
      KnownAlways(Next(w, ss[0], true), ss[1..]);
    }
  }

  lemma KnownStep(w: World, s: Step)
    requires Known(w) && Enabled(w, s, true)
    ensures Known(Next(w, s, true))
  {
  }

  /** What was displaced had registered, and never comes back. */
  ghost predicate Gone(w: World) {
    forall e | e in w.displaced ::
      && e in w.entries && w.entries[e].at != Spawned
      && !(w.entries[e].job in w.procs && w.procs[w.entries[e].job] == e)
  }

  lemma {:induction false} DisplacedAreGone(w: World, ss: seq<Step>)
    requires Inv(w) && Gone(w) && Runs(w, ss, true)
    ensures Gone(After(w, ss, true))
    decreases |ss|
  {
    if ss != [] {
      var w' := Next(w, ss[0], true);
      ProcsStep(w, ss[0]);
      forall p | p in w'.pausers ensures PauserRight(w', w'.pausers[p]) { PauserStep(w, ss[0], p); }
      GoneStep(w, ss[0]);
      hide Next, Enabled, Gone, Inv;
      DisplacedAreGone(w', ss[1..]);
    }
  }

  lemma GoneStep(w: World, s: Step)
    requires Inv(w) && Gone(w) && Enabled(w, s, true)
    ensures Gone(Next(w, s, true))
  {
  }

  /** When a Pause(true) has finished its loop and no Resume came, the only live children it
      can have missed, among all past their own look at the flag, are those another
      attempt's register displaced. */
  lemma OnlyTheDisplacedAreMissed(w: World, ss: seq<Step>, p: PauserId, e: EntryId)
    requires Fresh(w) && Runs(w, ss, true)
    requires var w' := After(w, ss, true);
             && p in w'.pausers && w'.pausers[p].finished && w'.pausers[p].intact
             && e in w'.entries && w'.entries[e].at == Checked && !w'.entries[e].reaping && w'.entries[e].reason.None?
    ensures var w' := After(w, ss, true);
            e in w'.displaced && !(w'.entries[e].job in w'.procs && w'.procs[w'.entries[e].job] == e)
  {
    hide Next, Enabled;
    KnownAlways(w, ss);
    DisplacedAreGone(w, ss);
    var w' := After(w, ss, true);
    var id := w'.entries[e].job;
    if e !in w'.displaced { PauseMissesNobody(w, ss, p, id); }
  }

  /** And those it does miss: two attempts at one job, the older registering late, and the
      pause finds only that one. */
  lemma DisplacedIsMissed(w: World, older: EntryId, newer: EntryId, id: JobId, p: PauserId) returns (ss: seq<Step>)
    requires Fresh(w) && !w.pauseKill && older != newer
    ensures Runs(w, ss, true)
    ensures var w' := After(w, ss, true);
            && p in w'.pausers && w'.pausers[p].finished && w'.pausers[p].intact
            && newer in w'.entries && w'.entries[newer] == Entry(id, Checked, None, false)
  {
    var early := TwoRegister(w, older, newer, id);
    var w1 := After(w, early, true);
    var late := PauseFindsOne(w1, older, newer, id, p);
    RunsAppend(w, early, late, true);
    ss := early + late;
  }

  predicate BothChecked(w: World, older: EntryId, newer: EntryId, id: JobId) {
    && w.pausers == map[] && w.procs == map[id := older] && older in w.entries && newer in w.entries
    && w.entries[newer] == Entry(id, Checked, None, false)
  }

  lemma TwoRegister(w: World, older: EntryId, newer: EntryId, id: JobId) returns (ss: seq<Step>)
    requires Fresh(w) && !w.pauseKill && older != newer
    ensures Runs(w, ss, true) && BothChecked(After(w, ss, true), older, newer, id)
  {
    ss := [Spawn(older, id), Spawn(newer, id), Register(newer), LoadFlag(newer), Register(older)];
    var w1 := Next(w, ss[0], true);
    var w2 := Next(w1, ss[1], true);
    var w3 := Next(w2, ss[2], true);
    var w4 := Next(w3, ss[3], true);
    var w5 := Next(w4, ss[4], true);
    Unfolds(w4, ss[4..], w5, true);
    Unfolds(w3, ss[3..], w5, true);
    Unfolds(w2, ss[2..], w5, true);
    Unfolds(w1, ss[1..], w5, true);
    Unfolds(w, ss, w5, true);
  }

  lemma PauseFindsOne(w: World, older: EntryId, newer: EntryId, id: JobId, p: PauserId) returns (ss: seq<Step>)
    requires older != newer && BothChecked(w, older, newer, id)
    ensures Runs(w, ss, true)
    ensures var w' := After(w, ss, true);
            && p in w'.pausers && w'.pausers[p].finished && w'.pausers[p].intact
            && newer in w'.entries && w'.entries[newer] == Entry(id, Checked, None, false)
  {
    ss := [CallPause(p), Raise(p), Snap(p), KillOne(p, older), Finish(p)];
    var w1 := Next(w, ss[0], true);
    var w2 := Next(w1, ss[1], true);
    var w3 := Next(w2, ss[2], true);
    assert w.procs[id] == older && w.procs.Values == {older};
    assert w3.pausers[p].todo == {older};
    var w4 := Next(w3, ss[3], true);
    assert w4.pausers[p].todo == {};
    var w5 := Next(w4, ss[4], true);
    Unfolds(w4, ss[4..], w5, true);
    Unfolds(w3, ss[3..], w5, true);
    Unfolds(w2, ss[2..], w5, true);
    Unfolds(w1, ss[1..], w5, true);
    Unfolds(w, ss, w5, true);
  }

  /** With the snapshot taken before the flag goes up, a child registered in between is
      missed by both. */
  lemma SnapshotFirstMisses(w: World, e: EntryId, id: JobId, p: PauserId) returns (ss: seq<Step>)
    requires Idle(w) && !w.pauseKill && e !in w.entries
    ensures Runs(w, ss, false)
    ensures var w' := After(w, ss, false);
            && p in w'.pausers && w'.pausers[p].finished && w'.pausers[p].intact && id in w'.procs
            && w'.procs[id] in w'.entries
            && w'.entries[w'.procs[id]] == Entry(id, Checked, None, false)
  {
    var early := SnapThenRegister(w, e, id, p);
    var w1 := After(w, early, false);
    var late := [LoadFlag(e), Raise(p), Finish(p)];
    var w2 := Next(w1, late[0], false);
    var w3 := Next(w2, late[1], false);
    var w4 := Next(w3, late[2], false);
    Unfolds(w3, late[2..], w4, false);
    Unfolds(w2, late[1..], w4, false);
    Unfolds(w1, late, w4, false);
    RunsAppend(w, early, late, false);
    ss := early + late;
  }

  lemma SnapThenRegister(w: World, e: EntryId, id: JobId, p: PauserId) returns (ss: seq<Step>)
    requires Idle(w) && !w.pauseKill && e !in w.entries
    ensures Runs(w, ss, false)
    ensures var w' := After(w, ss, false);
            && !w'.pauseKill && p in w'.pausers && w'.pausers[p] == Pauser(false, true, {}, false, false)
            && e in w'.entries && w'.entries[e] == Entry(id, Registered, None, false)
            && id in w'.procs && w'.procs[id] == e
  {
    ss := [CallPause(p), Snap(p), Spawn(e, id), Register(e)];
    var w1 := Next(w, ss[0], false);
    var w2 := Next(w1, ss[1], false);
    var w3 := Next(w2, ss[2], false);
    var w4 := Next(w3, ss[3], false);
    Unfolds(w3, ss[3..], w4, false);
    Unfolds(w2, ss[2..], w4, false);
    Unfolds(w1, ss[1..], w4, false);
    Unfolds(w, ss, w4, false);
  }

  lemma {:induction false} RunsAppend(w: World, ss: seq<Step>, more: seq<Step>, flagFirst: bool)
    requires Runs(w, ss, flagFirst) && Runs(After(w, ss, flagFirst), more, flagFirst)
    ensures Runs(w, ss + more, flagFirst)
    ensures After(w, ss + more, flagFirst) == After(After(w, ss, flagFirst), more, flagFirst)
    decreases |ss|
  {
    hide Next, Enabled;
    if ss == [] {
      assert ss + more == more;
    } else {
      assert (ss + more)[1..] == ss[1..] + more;
      RunsAppend(Next(w, ss[0], flagFirst), ss[1..], more, flagFirst);
    }
  }

  lemma Unfolds(w: World, ss: seq<Step>, end: World, flagFirst: bool)
    requires ss != [] && Enabled(w, ss[0], flagFirst)
    requires Runs(Next(w, ss[0], flagFirst), ss[1..], flagFirst)
    requires After(Next(w, ss[0], flagFirst), ss[1..], flagFirst) == end
    ensures Runs(w, ss, flagFirst) && After(w, ss, flagFirst) == end
  {
  }
}
