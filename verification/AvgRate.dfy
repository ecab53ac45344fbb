/** The seconds-per-epoch figure of the heartbeat: a windowed, weighted average over the
    newest finished training jobs. */
module AvgRate {
  import opened Types

  const WINDOW: nat := 30

  /** A row of jobs, as far as the query reads it. */
  datatype Row = Row(
    lane: Lane, worker: string, state: State, sPerEpoch: Option<real>,
    epoch: Option<int>, startEpoch: Option<int>, finishedAt: Option<int>, id: JobId)

  /** One finished job's rate and the epochs it computed. */
  datatype Rate = Rate(spe: real, ep: nat)

  predicate Counts(r: Row, worker: string) {
    r.lane == TrainLane && r.worker == worker && (r.state == Succeeded || r.state == Failed)
    && r.sPerEpoch.Some? && r.epoch.Some? && r.finishedAt.Some?
  }

  function RateOf(r: Row): Rate
    requires r.sPerEpoch.Some? && r.epoch.Some?
  {
    var n := r.epoch.value + 1 - if r.startEpoch.Some? then r.startEpoch.value else 0;
    Rate(r.sPerEpoch.value, if n < 1 then 1 else n)
  }

  /** The rows the query keeps, in the order it is given: newest finish first, then id. */
  function History(rows: seq<Row>, worker: string): seq<Rate> {
    if rows == [] then []
    else (if Counts(rows[0], worker) then [RateOf(rows[0])] else []) + History(rows[1..], worker)
  }

  function Min(a: int, b: int): int { if a < b then a else b }

  function Times(x: real, n: nat): real { x * (n as real) }

  /** SUM(spe * w): `before` is cum - ep, the epochs of the newer rows. */
  function Weighted(rows: seq<Rate>, before: nat, window: nat): real {
    if rows == [] then 0.0
    else (if before < window then Times(rows[0].spe, Min(rows[0].ep, window - before)) else 0.0)
         + Weighted(rows[1..], before + rows[0].ep, window)
  }

  /** SUM(w). */
  function Weights(rows: seq<Rate>, before: nat, window: nat): nat {
    if rows == [] then 0
    else (if before < window then Min(rows[0].ep, window - before) else 0)
         + Weights(rows[1..], before + rows[0].ep, window)
  }

  function AvgSPerEpoch(rows: seq<Row>, worker: string, window: nat): Option<real> {
    var all := History(rows, worker);
    var recent := all[..Min(window, |all|)];
    if Weights(recent, 0, window) == 0 then None
    else Some(Weighted(recent, 0, window) / (Weights(recent, 0, window) as real))
  }

  /** What the heartbeat publishes. */
  function Published(rows: seq<Row>, worker: string): Option<real> {
    AvgSPerEpoch(rows, worker, WINDOW)
  }

  // ---- what it means ----

  /** One entry per computed epoch, newest job first. */
  function Expand(rows: seq<Rate>): seq<real> {
    if rows == [] then [] else seq(rows[0].ep, _ => rows[0].spe) + Expand(rows[1..])
  }

  function Sum(s: seq<real>): real {
    if s == [] then 0.0 else s[0] + Sum(s[1..])
  }

  function Mean(s: seq<real>): real
    requires s != []
  {
    Sum(s) / (|s| as real)
  }

  /** The newest `window` computed epochs. */
  function Newest(rows: seq<Row>, worker: string, window: nat): seq<real> {
    var e := Expand(History(rows, worker));
    e[..Min(window, |e|)]
  }

  /** What one row counts for: a training job of that worker that succeeded or failed, with
      its rate, its last epoch and its end on it, counts for the epochs it computed itself, and
      for one when that is none; any other row counts for nothing. */
  lemma RowCounts(r: Row, worker: string)
    ensures var counted := History([r], worker);
            if r.lane != TrainLane || r.worker != worker
               || r.state == Queued || r.state == Running || r.state == Cancelled
               || r.sPerEpoch.None? || r.epoch.None? || r.finishedAt.None?
            then counted == []
            else
              var first := match r.startEpoch { case None => 0 case Some(e) => e };
              && |counted| == 1 && counted[0].spe == r.sPerEpoch.value
              && (first <= r.epoch.value ==> counted[0].ep == r.epoch.value - first + 1)
              && (first > r.epoch.value ==> counted[0].ep == 1)
  {
  }

  lemma HistoryHead(r: Row, rows: seq<Row>, worker: string)
    ensures History([r] + rows, worker) == History([r], worker) + History(rows, worker)
  {
    assert ([r] + rows)[1..] == rows && [r][1..] == [];
    hide Counts, RateOf;
    assert History([], worker) == [];
  }

  lemma {:induction false} HistoryAppend(a: seq<Row>, b: seq<Row>, worker: string)
    ensures History(a + b, worker) == History(a, worker) + History(b, worker)
  {
    hide History;
    if a == [] {
      assert a + b == b;
      NoHistory(worker);
      assert [] + History(b, worker) == History(b, worker);
    } else {
      HistoryAppend(a[1..], b, worker);
      HistoryHead(a[0], a[1..], worker);
      HistoryHead(a[0], a[1..] + b, worker);
      assert a == [a[0]] + a[1..] && a + b == [a[0]] + (a[1..] + b);
      Regrouped(History([a[0]], worker), History(a[1..], worker), History(b, worker));
    }
  }

  lemma NoHistory(worker: string)
    ensures History([], worker) == []
  {
  }

  lemma Regrouped(x: seq<Rate>, y: seq<Rate>, z: seq<Rate>)
    ensures (x + y) + z == x + (y + z)
  {
  }

  lemma {:induction false} SumAppend(a: seq<real>, b: seq<real>)
    ensures Sum(a + b) == Sum(a) + Sum(b)
  {
    if a == [] {
      assert a + b == b;
    } else {
      assert (a + b)[1..] == a[1..] + b;
      SumAppend(a[1..], b);
    }
  }

  lemma {:induction false} SumRepeat(x: real, n: nat)
    ensures Sum(seq(n, _ => x)) == Times(x, n)
  {
    var s := seq(n, _ => x);
    if n > 0 {
      assert s[1..] == seq(n - 1, _ => x);
      SumRepeat(x, n - 1);
    }
  }

  function Room(before: nat, window: nat, n: nat): nat {
    if before < window then Min(window - before, n) else 0
  }

  lemma RoomSplits(rows: seq<Rate>, before: nat, window: nat)
    requires rows != []
    ensures var e, rest := Expand(rows), Expand(rows[1..]);
            var taken := Min(rows[0].ep, Room(before, window, |e|));
            var left := Room(before + rows[0].ep, window, |rest|);
            && Room(before, window, |e|) == taken + left
            && taken == (if before < window then Min(rows[0].ep, window - before) else 0)
            && e[..taken + left] == seq(taken, _ => rows[0].spe) + rest[..left]
  {
    var e, rest := Expand(rows), Expand(rows[1..]);
    assert |e| == rows[0].ep + |rest|;
  }

  /** The weighted sums are the plain sum and the plain count of the newest epochs. */
  lemma {:induction false} WindowIsPrefix(rows: seq<Rate>, before: nat, window: nat)
    ensures var e := Expand(rows);
            var room := Room(before, window, |e|);
            Weighted(rows, before, window) == Sum(e[..room]) && Weights(rows, before, window) == room
  {
    if rows != [] {
      hide Expand, Room, Sum, Times;
      var ep, x := rows[0].ep, rows[0].spe;
      WindowIsPrefix(rows[1..], before + ep, window);
      RoomSplits(rows, before, window);
      var taken := Min(ep, Room(before, window, |Expand(rows)|));
      var left := Room(before + ep, window, |Expand(rows[1..])|);
      SumAppend(seq(taken, _ => x), Expand(rows[1..])[..left]);
      SumRepeat(x, taken);
      NothingTaken(x);
    }
  }

  lemma NothingTaken(x: real)
    ensures Times(x, 0) == 0.0
  {
  }

  predicate Positive(rows: seq<Rate>) {
    forall i | 0 <= i < |rows| :: rows[i].ep >= 1
  }

  lemma {:induction false} HistoryPositive(rows: seq<Row>, worker: string)
    ensures Positive(History(rows, worker))
  {
    if rows != [] { HistoryPositive(rows[1..], worker); }
  }

  /** LIMIT keeps every epoch the window can reach, because no job counts for less than
      one. */
  lemma {:induction false} LimitKeepsWindow(rows: seq<Rate>, window: nat, limit: nat)
    requires Positive(rows) && window <= limit
    ensures var e, l := Expand(rows), Expand(rows[..Min(limit, |rows|)]);
            l[..Min(window, |l|)] == e[..Min(window, |e|)]
  {
    if rows != [] && limit > 0 {
      hide Expand;
      var w' := if window < rows[0].ep then 0 else window - rows[0].ep;
      var cut := rows[..Min(limit, |rows|)];
      assert cut[0] == rows[0] && cut[1..] == rows[1..][..Min(limit - 1, |rows[1..]|)];
      assert forall i | 0 <= i < |rows[1..]| :: rows[1..][i] == rows[i + 1];
      LimitKeepsWindow(rows[1..], w', limit - 1);
      ExpandHead(rows);
      ExpandHead(cut);
      Prefixes(seq(rows[0].ep, _ => rows[0].spe), Expand(rows[1..]), Expand(cut[1..]), window, w');
    } else if rows == [] {
      assert rows[..Min(limit, |rows|)] == rows;
    }
  }

  lemma ExpandHead(rows: seq<Rate>)
    requires rows != []
    ensures Expand(rows) == seq(rows[0].ep, _ => rows[0].spe) + Expand(rows[1..])
  {
  }

  /** Two continuations that agree where the window can still reach. */
  lemma Prefixes(head: seq<real>, a: seq<real>, b: seq<real>, window: nat, left: nat)
    requires left == if window < |head| then 0 else window - |head|
    requires a[..Min(left, |a|)] == b[..Min(left, |b|)]
    ensures (head + a)[..Min(window, |head + a|)] == (head + b)[..Min(window, |head + b|)]
  {
    if window < |head| {
      assert (head + a)[..window] == head[..window] && (head + b)[..window] == head[..window];
    } else {
      assert (head + a)[..Min(window, |head + a|)] == head + a[..Min(left, |a|)];
      assert (head + b)[..Min(window, |head + b|)] == head + b[..Min(left, |b|)];
    }
  }

  /** The figure is the plain mean of the newest `window` computed epochs; there is none
      exactly when there are none of those. */
  lemma AvgIsTheMean(rows: seq<Row>, worker: string, window: nat)
    ensures var n := Newest(rows, worker, window);
            && |n| == Min(window, |Expand(History(rows, worker))|)
            && AvgSPerEpoch(rows, worker, window) == if n == [] then None else Some(Mean(n))
  {
    var all := History(rows, worker);
    HistoryPositive(rows, worker);
    LimitKeepsWindow(all, window, window);
    WindowIsPrefix(all[..Min(window, |all|)], 0, window);
  }

  lemma TimesStep(x: real, n: nat)
    ensures Times(x, 0) == 0.0 && Times(x, n + 1) == x + Times(x, n)
  {
  }

  /** What the heartbeat publishes is the plain mean of the newest thirty computed epochs,
      or of all of them while there are fewer. */
  lemma PublishedIsTheMean(rows: seq<Row>, worker: string)
    ensures var all := Expand(History(rows, worker));
            Published(rows, worker) == if all == [] then None else Some(Mean(all[..Min(30, |all|)]))
  {
    hide AvgSPerEpoch, Expand, History, Mean;
    AvgIsTheMean(rows, worker, WINDOW);
  }

  lemma {:induction false} SumBetween(s: seq<real>, lo: real, hi: real)
    requires forall i | 0 <= i < |s| :: lo <= s[i] <= hi
    ensures Times(lo, |s|) <= Sum(s) <= Times(hi, |s|)
  {
    hide Times;
    TimesStep(lo, if s == [] then 0 else |s| - 1);
    TimesStep(hi, if s == [] then 0 else |s| - 1);
    if s != [] { SumBetween(s[1..], lo, hi); }
  }

  lemma MeanBetween(s: seq<real>, lo: real, hi: real)
    requires s != [] && forall i | 0 <= i < |s| :: lo <= s[i] <= hi
    ensures lo <= Mean(s) <= hi
  {
    hide Sum, Times;
    SumBetween(s, lo, hi);
    Quotient(lo, Sum(s), hi, |s|);
  }

  /** It lies between the least and the greatest rate that went into it. */
  lemma AvgIsBetween(rows: seq<Row>, worker: string, window: nat, lo: real, hi: real)
    requires forall x | x in Newest(rows, worker, window) :: lo <= x <= hi
    requires AvgSPerEpoch(rows, worker, window).Some?
    ensures lo <= AvgSPerEpoch(rows, worker, window).value <= hi
  {
    hide AvgSPerEpoch, Mean, Newest;
    AvgIsTheMean(rows, worker, window);
    var n := Newest(rows, worker, window);
    assert n != [];
    forall i | 0 <= i < |n| ensures lo <= n[i] <= hi { assert n[i] in n; }
    MeanBetween(n, lo, hi);
  }

  lemma Quotient(lo: real, total: real, hi: real, n: nat)
    requires n > 0 && Times(lo, n) <= total <= Times(hi, n)
    ensures lo <= total / (n as real) <= hi
  {
    var k := n as real;
    var q := total / k;
    assert q * k == total;
    assert Times(lo, n) == lo * k && Times(hi, n) == hi * k;
    if q < lo { Scaled(q, lo, k); }
    if hi < q { Scaled(hi, q, k); }
  }

  lemma Scaled(a: real, b: real, k: real)
    requires k > 0.0 && a < b
    ensures a * k < b * k
  {
  }
}
