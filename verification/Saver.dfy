/** The coalescing checkpoint saver: a flag under a mutex, a wake channel of capacity one,
    a done channel and a goroutine that looks. */
module Saver {
  import opened Types

  type Figure = (int, Option<real>)

  const CAPACITY: nat := 1

  // ---- the saver's own fields, as its methods run ----

  datatype Fields = Fields(pending: bool, heard: Option<Figure>, wake: nat)

  /** A nudge, whatever was there before. */
  function Nudged(f: Figure): Fields {
    Fields(true, Some(f), CAPACITY)
  }

  function Taken(x: Fields): Fields {
    x.(pending := false)
  }

  class CkptSaver {
    var pending: bool
    var heard: Option<Figure>
    var wake: nat

    function View(): Fields
      reads this
    {
      Fields(pending, heard, wake)
    }

    constructor ()
      ensures !pending && heard.None? && wake == 0
    {
      pending, heard, wake := false, None, 0;
    }

    /** "An epoch finished": never blocks, never queues more than one token. */
    method Nudge(f: Figure)
      requires wake <= CAPACITY
      modifies this
      ensures View() == Nudged(f) && pending && heard == Some(f) && wake == 1
    {
      pending := true;
      heard := Some(f);
      if wake < CAPACITY { wake := wake + 1; }
    }

    method Take() returns (had: bool, f: Option<Figure>)
      modifies this`pending
      ensures had == old(pending) && f == heard && View() == Taken(old(View()))
      ensures !pending && heard == old(heard) && wake == old(wake)
    {
      had, f := pending, heard;
      pending := false;
    }
  }

  // ---- the interleavings ----

  datatype SaverAt = Selecting | Woken | Closing | Looking(last: bool) | Gone

  datatype StopperAt = Idle | Closed(nudges: nat) | ReturnedFinished(nudges: nat) | ReturnedLate(nudges: nat)

  /** A look: how many nudges had been made when it began, the figure it carried, and
      whether it is over. */
  datatype Look = Look(saw: nat, carried: Option<Figure>, over: bool)

  datatype World = World(
    pending: bool, heard: Option<Figure>, wake: nat, done: bool, finished: bool,
    saver: SaverAt,
    halfNudged: bool,              // the reader set the flag and has not yet sent its wake
    stopper: StopperAt,
    nudges: seq<Figure>,           // every nudge so far
    seen: nat,                     // nudges made before the flag was last taken
    looks: seq<Look>)

  datatype Step =
    | NudgeFlag(f: Figure)
    | NudgeSend
    | PickWake
    | PickDone
    | TakeWoken
    | TakeClosing
    | EndLook
    | Stop
    | ReturnFinished
    | ReturnLate

  predicate Enabled(w: World, s: Step) {
    match s
    case NudgeFlag(_) => !w.halfNudged
    case NudgeSend => w.halfNudged
    case PickWake => w.saver == Selecting && w.wake > 0
    case PickDone => w.saver == Selecting && w.done
    case TakeWoken => w.saver == Woken
    case TakeClosing => w.saver == Closing
    case EndLook => w.saver.Looking?
    case Stop => w.stopper == Idle
    case ReturnFinished => w.stopper.Closed? && w.finished
    case ReturnLate => w.stopper.Closed?
  }

  function Begun(w: World): seq<Look> {
    w.looks + [Look(|w.nudges|, w.heard, false)]
  }

  function Ended(looks: seq<Look>): seq<Look> {
    if looks == [] then [] else looks[|looks| - 1 := looks[|looks| - 1].(over := true)]
  }

  function Next(w: World, s: Step): World
    requires Enabled(w, s)
  {
    match s
    case NudgeFlag(f) => w.(pending := true, heard := Some(f), halfNudged := true, nudges := w.nudges + [f])
    case NudgeSend => w.(halfNudged := false, wake := if w.wake < CAPACITY then w.wake + 1 else w.wake)
    case PickWake => w.(saver := Woken, wake := w.wake - 1)
    case PickDone => w.(saver := Closing)
    case TakeWoken =>
      if w.pending then w.(pending := false, seen := |w.nudges|, saver := Looking(false), looks := Begun(w))
      else w.(saver := Selecting)
    case TakeClosing => w.(pending := false, seen := |w.nudges|, saver := Looking(true), looks := Begun(w))
    case EndLook =>
      if w.saver.last then w.(saver := Gone, finished := true, looks := Ended(w.looks))
      else w.(saver := Selecting, looks := Ended(w.looks))
    case Stop => w.(done := true, stopper := Closed(|w.nudges|))
    case ReturnFinished => w.(stopper := ReturnedFinished(w.stopper.nudges))
    case ReturnLate => w.(stopper := ReturnedLate(w.stopper.nudges))
  }

  predicate Runs(w: World, ss: seq<Step>)
    decreases |ss|
  {
    ss == [] || (Enabled(w, ss[0]) && Runs(Next(w, ss[0]), ss[1..]))
  }

  function After(w: World, ss: seq<Step>): World
    requires Runs(w, ss)
    decreases |ss|
  {
    if ss == [] then w else After(Next(w, ss[0]), ss[1..])
  }

  /** A pending flag always has somebody on the way to it. */
  ghost predicate FlagRight(w: World) {
    && w.wake <= CAPACITY
    && w.seen <= |w.nudges| && (w.pending <==> w.seen < |w.nudges|)
    && w.heard == (if w.nudges == [] then None else Some(w.nudges[|w.nudges| - 1]))
    && (w.pending ==>
          || w.wake > 0 || w.halfNudged
          || w.saver == Woken || w.saver == Closing || w.saver == Looking(true) || w.saver == Gone)
  }

  ghost predicate CarriesRight(w: World, k: Look) {
    k.saw <= |w.nudges| && k.carried == if k.saw == 0 then None else Some(w.nudges[k.saw - 1])
  }

  /** Looks never overlap: only the newest can be open, and exactly while the goroutine
      looks. */
  ghost predicate LooksRight(w: World) {
    && (forall i | 0 <= i < |w.looks| :: w.looks[i].over <==> !(i == |w.looks| - 1 && w.saver.Looking?))
    && (w.saver.Looking? ==> w.looks != [])
    && (w.seen > 0 ==> w.looks != [])
    && (w.looks != [] ==> w.looks[|w.looks| - 1].saw == w.seen)
  }

  ghost predicate FiguresRight(w: World) {
    forall i | 0 <= i < |w.looks| :: CarriesRight(w, w.looks[i])
  }

  /** The way out goes through one last look. */
  ghost predicate ExitRight(w: World) {
    && (w.done <==> w.stopper != Idle)
    && (w.saver == Closing || w.saver == Looking(true) || w.saver == Gone ==> w.done)
    && (!w.stopper.Idle? ==> w.stopper.nudges <= |w.nudges|)
    && (w.saver == Looking(true) || w.saver == Gone ==>
          w.looks != [] && !w.stopper.Idle? && w.stopper.nudges <= w.seen)
    && (w.finished <==> w.saver == Gone)
    && (w.stopper.ReturnedFinished? ==> w.finished)
  }

  ghost predicate Inv(w: World) {
    FlagRight(w) && LooksRight(w) && FiguresRight(w) && ExitRight(w)
  }

  lemma FlagStep(w: World, s: Step)
    requires FlagRight(w) && Enabled(w, s)
    ensures FlagRight(Next(w, s))
  {
    hide Begun, Ended;
  }

  /** Every other step leaves the looks alone. */
  lemma LooksIdle(w: World, s: Step)
    requires Enabled(w, s) && !s.TakeWoken? && !s.TakeClosing? && !s.EndLook?
    ensures var w' := Next(w, s);
            w'.looks == w.looks && w'.saver.Looking? == w.saver.Looking? && w'.seen == w.seen
  {
  }

  /** Old looks keep what they saw and carried; nudges are only added. */
  lemma LooksKept(w: World, s: Step)
    requires Enabled(w, s) && (w.saver.Looking? ==> w.looks != [])
    ensures var w' := Next(w, s);
            && w.nudges <= w'.nudges && |w.looks| <= |w'.looks|
            && (forall i | 0 <= i < |w.looks| ::
                  w'.looks[i].saw == w.looks[i].saw && w'.looks[i].carried == w.looks[i].carried)
            && (forall i | |w.looks| <= i < |w'.looks| ::
                  w'.looks[i] == Look(|w.nudges|, w.heard, false) && w'.nudges == w.nudges)
  {
  }

  lemma LooksStep(w: World, s: Step)
    requires FlagRight(w) && LooksRight(w) && Enabled(w, s)
    ensures LooksRight(Next(w, s))
  {
    hide CarriesRight, ExitRight;
    var w' := Next(w, s);
    if !s.TakeWoken? && !s.TakeClosing? && !s.EndLook? {
      LooksIdle(w, s);
    }
  }

  lemma CarriesStays(w: World, w': World, k: Look, k': Look)
    requires CarriesRight(w, k) && w.nudges <= w'.nudges && k'.saw == k.saw && k'.carried == k.carried
    ensures CarriesRight(w', k')
  {
  }

  lemma FiguresStep(w: World, s: Step)
    requires FlagRight(w) && FiguresRight(w) && (w.saver.Looking? ==> w.looks != []) && Enabled(w, s)
    ensures FiguresRight(Next(w, s))
  {
    LooksKept(w, s);
    hide Next, Enabled;
    var w' := Next(w, s);
    forall i | 0 <= i < |w'.looks| ensures CarriesRight(w', w'.looks[i]) {
      if i < |w.looks| { CarriesStays(w, w', w.looks[i], w'.looks[i]); }
    }
  }

  lemma ExitStep(w: World, s: Step)
    requires FlagRight(w) && ExitRight(w) && (w.saver.Looking? ==> w.looks != []) && Enabled(w, s)
    ensures ExitRight(Next(w, s))
  {
  }

  lemma InvStep(w: World, s: Step)
    requires Inv(w) && Enabled(w, s)
    ensures Inv(Next(w, s))
  {
    hide Next, Enabled;
    FlagStep(w, s);
    LooksStep(w, s);
    FiguresStep(w, s);
    ExitStep(w, s);
  }

  lemma {:induction false} InvAlways(w: World, ss: seq<Step>)
    requires Inv(w) && Runs(w, ss)
    ensures Inv(After(w, ss))
    decreases |ss|
  {
    if ss != [] {
      InvStep(w, ss[0]);
      InvAlways(Next(w, ss[0]), ss[1..]);
    }
  }

  function FieldsOf(w: World): Fields {
    Fields(w.pending, w.heard, w.wake)
  }

  /** The two steps of a nudge are together the method Nudge, and whatever the saver does
      between them, the newest figure is kept and a token is in the channel. */
  lemma NudgeIsItsMethod(w: World, f: Figure, between: seq<Step>)
    requires FlagRight(w) && Enabled(w, NudgeFlag(f)) && Runs(Next(w, NudgeFlag(f)), between)
    requires forall i | 0 <= i < |between| :: !between[i].NudgeFlag? && !between[i].NudgeSend?
    ensures var w' := After(Next(w, NudgeFlag(f)), between);
            && Enabled(w', NudgeSend)
            && FieldsOf(Next(w', NudgeSend)).(pending := true) == Nudged(f)
            && (between == [] ==> FieldsOf(Next(w', NudgeSend)) == Nudged(f))
  {
    FlagStep(w, NudgeFlag(f));
    HalfNudged(Next(w, NudgeFlag(f)), between);
  }

  lemma {:induction false} HalfNudged(w: World, ss: seq<Step>)
    requires FlagRight(w) && w.halfNudged && Runs(w, ss)
    requires forall i | 0 <= i < |ss| :: !ss[i].NudgeFlag? && !ss[i].NudgeSend?
    ensures var w' := After(w, ss); FlagRight(w') && w'.halfNudged && w'.heard == w.heard
    decreases |ss|
  {
    if ss != [] {
      FlagStep(w, ss[0]);
      HalfStep(w, ss[0]);
      assert forall i | 0 <= i < |ss[1..]| :: ss[1..][i] == ss[i + 1];
      hide Next, Enabled, FlagRight;
      HalfNudged(Next(w, ss[0]), ss[1..]);
    }
  }

  lemma HalfStep(w: World, s: Step)
    requires w.halfNudged && Enabled(w, s) && !s.NudgeFlag? && !s.NudgeSend?
    ensures Next(w, s).halfNudged && Next(w, s).heard == w.heard
  {
  }

  /** Both of the saver's takes are the method Take: a woken saver looks exactly when
      something was pending, a closing one always, each with the figure then heard. */
  lemma TakeIsItsMethod(w: World, s: Step)
    requires Enabled(w, s) && (s.TakeWoken? || s.TakeClosing?)
    ensures var w' := Next(w, s);
            && FieldsOf(w') == Taken(FieldsOf(w))
            && (w'.saver.Looking? <==> w.pending || s.TakeClosing?)
            && (w'.saver.Looking? ==> w'.looks == w.looks + [Look(|w.nudges|, w.heard, false)])
  {
  }

  const START := World(false, None, 0, false, false, Selecting, false, Idle, [], 0, [])

  /** A blocked saver has nothing to do: whenever it sits in its select with an empty wake
      channel and no nudge is half-done, a look that carried the newest figure has been
      made since the last nudge. */
  lemma NoLostWakeup(ss: seq<Step>)
    requires Runs(START, ss)
    requires var w := After(START, ss); w.saver == Selecting && w.wake == 0 && !w.halfNudged
    ensures var w := After(START, ss);
            && !w.pending
            && (w.nudges != [] ==>
                  && w.looks != []
                  && w.looks[|w.looks| - 1] == Look(|w.nudges|, Some(w.nudges[|w.nudges| - 1]), true))
  {
    InvAlways(START, ss);
  }

  /** The saver waits only in its select, only with nothing to pick: everywhere else, up to
      its end, it has a step of its own, and so has a stop the saver has finished for. */
  lemma NeverStuck(ss: seq<Step>)
    requires Runs(START, ss)
    ensures var w := After(START, ss);
            && (w.saver == Selecting && w.wake > 0 ==> Enabled(w, PickWake) && Next(w, PickWake).saver == Woken)
            && (w.saver == Selecting && w.done ==> Enabled(w, PickDone) && Next(w, PickDone).saver == Closing)
            && (w.saver == Woken ==> Enabled(w, TakeWoken))
            && (w.saver == Closing ==> Enabled(w, TakeClosing) && Next(w, TakeClosing).saver == Looking(true))
            && (w.saver.Looking? ==> Enabled(w, EndLook))
            && (w.saver == Looking(true) ==> Next(w, EndLook).saver == Gone && Next(w, EndLook).finished)
            && (w.saver == Gone && w.stopper.Closed? ==> Enabled(w, ReturnFinished))
            && (w.halfNudged ==> Enabled(w, NudgeSend))
            && (!w.halfNudged ==> forall f :: Enabled(w, NudgeFlag(f)))
  {
    InvAlways(START, ss);
  }

  /** One token at most, one look at a time, and each look carries the newest figure there
      was when it began. */
  lemma LooksAreOrderly(ss: seq<Step>)
    requires Runs(START, ss)
    ensures var w := After(START, ss);
            && w.wake <= 1
            && (forall i | 0 <= i < |w.looks| - 1 :: w.looks[i].over)
            && (forall i | 0 <= i < |w.looks| && w.looks[i].saw > 0 ::
                  w.looks[i].saw <= |w.nudges| && w.looks[i].carried == Some(w.nudges[w.looks[i].saw - 1]))
  {
    InvAlways(START, ss);
    var w := After(START, ss);
    forall i | 0 <= i < |w.looks| && w.looks[i].saw > 0
      ensures w.looks[i].saw <= |w.nudges| && w.looks[i].carried == Some(w.nudges[w.looks[i].saw - 1])
    {
      assert CarriesRight(w, w.looks[i]);
    }
  }

  /** When stop returns because the goroutine is done, a look begun after every nudge that
      came before the stop is over, and no look is in flight. */
  lemma StopIsABarrier(ss: seq<Step>)
    requires Runs(START, ss)
    requires After(START, ss).stopper.ReturnedFinished?
    ensures var w := After(START, ss);
            && w.looks != []
            && w.looks[|w.looks| - 1].over && w.stopper.nudges <= w.looks[|w.looks| - 1].saw
            && forall i | 0 <= i < |w.looks| :: w.looks[i].over
  {
    InvAlways(START, ss);
  }
}
