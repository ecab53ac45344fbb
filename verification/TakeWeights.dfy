/** What a take's one row of weights holds after any run: the newest accepted write, and
    beside it the best pair the take has seen since its weights were last discarded. */
module TakeWeights {
  import opened Types
  import opened Statements
  import Fence

  predicate Accepted(db: Db, s: Stmt, take: TakeId) {
    s.Held? && s.w.Put? && s.w.take == take && Mine(db, s.id, s.token)
  }

  /** The writes the fence let through for a take since its weights were last dropped,
      oldest first, each as the row it would have made on its own. */
  function Offers(db: Db, ss: seq<Stmt>, take: TakeId, before: seq<Ckpt>): seq<Ckpt>
    decreases |ss|
  {
    if ss == [] then before
    else
      var now :=
        if ss[0] == DropWeights(take) then []
        else if Accepted(db, ss[0], take) then before + [Inserted(ss[0].id, ss[0].token, ss[0].w.last, ss[0].w.best)]
        else before;
      Offers(Exec(db, ss[0]), ss[1..], take, now)
  }

  function Folded(h: seq<Ckpt>): Option<Ckpt> {
    if h == [] then None else Some(Upsert(Folded(h[..|h|-1]), h[|h|-1]))
  }

  /** The stored row is the fold of its history, over every run. */
  lemma {:induction false} RowIsItsHistory(db: Db, ss: seq<Stmt>, take: TakeId, before: seq<Ckpt>)
    requires Lookup(db.ckpts, take) == Folded(before)
    ensures Lookup(Run(db, ss).ckpts, take) == Folded(Offers(db, ss, take, before))
    decreases |ss|
  {
    if ss != [] {
      var now :=
        if ss[0] == DropWeights(take) then []
        else if Accepted(db, ss[0], take) then before + [Inserted(ss[0].id, ss[0].token, ss[0].w.last, ss[0].w.best)]
        else before;
      if Accepted(db, ss[0], take) {
        assert now[..|now|-1] == before;
      }
      assert Lookup(CkptsAfter(db, ss[0]), take) == Folded(now);
      RowIsItsHistory(Exec(db, ss[0]), ss[1..], take, now);
    }
  }

  predicate SameLast(a: Ckpt, b: Ckpt) {
    && a.job == b.job && a.token == b.token && a.reached == b.reached && a.esr == b.esr
    && a.sha == b.sha && a.nam == b.nam && a.ckpt == b.ckpt
  }

  predicate SameBest(a: Ckpt, b: Ckpt) {
    && a.bestReached == b.bestReached && a.bestEsr == b.bestEsr && a.bestSha == b.bestSha
    && a.bestNam == b.bestNam && a.bestCkpt == b.bestCkpt
  }

  /** The pair a continuation resumes from is the last one accepted, whole. */
  lemma LastIsNewest(h: seq<Ckpt>)
    requires h != []
    ensures SameLast(Folded(h).value, h[|h|-1])
  {
  }

  /** The earliest offer of least figure, or the first write while no offer carries one. */
  ghost predicate IsBest(h: seq<Ckpt>, i: nat) {
    && i < |h|
    && (h[i].bestEsr.None? ==> i == 0 && forall k | 0 <= k < |h| :: h[k].bestEsr.None?)
    && (h[i].bestEsr.Some? ==>
          forall k | 0 <= k < |h| && h[k].bestEsr.Some? ::
            h[i].bestEsr.value <= h[k].bestEsr.value && (k < i ==> h[i].bestEsr.value < h[k].bestEsr.value))
  }

  lemma {:induction false} BestExists(h: seq<Ckpt>) returns (i: nat)
    requires h != []
    ensures IsBest(h, i)
  {
    if |h| == 1 { return 0; }
    var last := |h| - 1;
    var p := h[..last];
    i := BestExists(p);
    assert forall k | 0 <= k < last :: p[k] == h[k];
    if h[last].bestEsr.Some? && (h[i].bestEsr.None? || h[last].bestEsr.value < h[i].bestEsr.value) { i := last; }
  }

  /** The five best columns are one offer's columns, never a mixture, and that offer is
      the running minimum. */
  lemma {:induction false} BestIsRunningMinimum(h: seq<Ckpt>, i: nat)
    requires IsBest(h, i)
    ensures SameBest(Folded(h).value, h[i])
  {
    if |h| > 1 {
      var last := |h| - 1;
      var p := h[..last];
      assert forall k | 0 <= k < last :: p[k] == h[k];
      var k := BestExists(p);
      BestIsRunningMinimum(p, k);
      if i < last {
        assert IsBest(p, i);
        BestIsRunningMinimum(p, i);
      }
    }
  }

  /** What a take already carries counts as its first write. */
  function Seed(db: Db, take: TakeId): seq<Ckpt> {
    if take in db.ckpts then [db.ckpts[take]] else []
  }

  lemma SeedFolds(db: Db, take: TakeId)
    ensures Lookup(db.ckpts, take) == Folded(Seed(db, take))
  {
    if take in db.ckpts {
      var h := [db.ckpts[take]];
      assert h[..|h|-1] == [];
    }
  }

  /** Both halves together, over every run of the queue from any library. */
  lemma StoredWeights(db: Db, ss: seq<Stmt>, take: TakeId) returns (h: seq<Ckpt>, best: nat)
    ensures h == Offers(db, ss, take, Seed(db, take))
    ensures take in Run(db, ss).ckpts <==> h != []
    ensures h != [] ==>
              && SameLast(Run(db, ss).ckpts[take], h[|h|-1])
              && IsBest(h, best) && SameBest(Run(db, ss).ckpts[take], h[best])
  {
    h, best := Offers(db, ss, take, Seed(db, take)), 0;
    SeedFolds(db, take);
    RowIsItsHistory(db, ss, take, Seed(db, take));
    if h != [] {
      LastIsNewest(h);
      best := BestExists(h);
      BestIsRunningMinimum(h, best);
    }
  }

  /** Only a drop takes a take's weights away: every other statement leaves them, or
      replaces them by an accepted write's. */
  lemma OnlyADropDeletes(db: Db, s: Stmt, take: TakeId)
    requires take in db.ckpts
    ensures take !in Exec(db, s).ckpts <==> s == DropWeights(take)
    ensures take in Exec(db, s).ckpts && !Accepted(db, s, take) ==> Exec(db, s).ckpts[take] == db.ckpts[take]
  {
  }

  // ---- whose writes they are ----

  /** While a claim goes on writing, nobody else's write lands on its take: before any
      accepted write of the claim, back to when its token was minted, only its own are
      accepted. */
  lemma NoForeignWrite(db: Db, ss: seq<Stmt>, i: nat, k: nat, take: TakeId)
    requires Fence.Issued(db) && Fence.OneLive(db) && i <= k < |ss|
    requires Accepted(Run(db, ss[..i]), ss[i], take) && Accepted(Run(db, ss[..k]), ss[k], take)
    requires ss[k].token < Run(db, ss[..i]).nextToken
    requires Run(db, ss[..i]).jobs[ss[i].id].req.take == Some(take)
    requires Run(db, ss[..k]).jobs[ss[k].id].req.take == Some(take)
    ensures ss[i].id == ss[k].id && ss[i].token == ss[k].token
  {
    hide Run, Fence.OneLive, Fence.Issued;
    var earlier, between := Run(db, ss[..i]), ss[i..k];
    assert ss[..k] == ss[..i] + between;
    Fence.RunAppend(db, ss[..i], between);
    Fence.IssuedForever(db, ss[..i]);
    Fence.OneLiveForever(db, ss[..i]);
    if !Holds(earlier, ss[k].id, ss[k].token) { Fence.StaleForever(earlier, between, ss[k].id, ss[k].token); }
    Fence.IssuedForever(earlier, between);
    OnlyHolder(earlier, take, ss[i].id, ss[k].id);
  }

  lemma OnlyHolder(db: Db, take: TakeId, i: JobId, k: JobId)
    requires Fence.OneLive(db) && LiveOn(db, take, i) && LiveOn(db, take, k)
    ensures i == k
  {
  }

  /** Without an accepted write and without a drop a take's row stays as it is. */
  lemma {:induction false} LeftAlone(db: Db, ss: seq<Stmt>, take: TakeId)
    requires forall n | 0 <= n < |ss| :: !Accepted(Run(db, ss[..n]), ss[n], take) && ss[n] != DropWeights(take)
    ensures Lookup(Run(db, ss).ckpts, take) == Lookup(db.ckpts, take)
  {
    if ss != [] {
      var n := |ss| - 1;
      var front := ss[..n];
      assert ss == front + [ss[n]];
      Fence.RunAppend(db, front, [ss[n]]);
      assert Run(Run(db, front), [ss[n]]) == Exec(Run(db, front), ss[n]);
      hide Accepted, Run, Exec;
      forall m | 0 <= m < n ensures !Accepted(Run(db, front[..m]), front[m], take) && front[m] != DropWeights(take) {
        assert front[..m] == ss[..m] && front[m] == ss[m];
      }
      LeftAlone(db, front, take);
      StepLeavesAlone(Run(db, front), ss[n], take);
    }
  }

  lemma StepLeavesAlone(db: Db, s: Stmt, take: TakeId)
    requires !Accepted(db, s, take) && s != DropWeights(take)
    ensures Lookup(Exec(db, s).ckpts, take) == Lookup(db.ckpts, take)
  {
  }

  // ---- the saver's shortcut ----

  /** A statement, and whether its sender gets to hear that it was answered. A write lost on
      its way is not a statement at all; one whose answer is lost was said and not heard. */
  datatype Said = Said(s: Stmt, heard: bool)

  function Bare(ss: seq<Said>): seq<Stmt> {
    if ss == [] then [] else [ss[0].s] + Bare(ss[1..])
  }

  predicate Offer(s: Stmt, id: JobId, token: Token) {
    Fence.Under(s, id, token) && s.w.Put?
  }

  /** What the saver sends: the best pair is left out when the last one it heard back about
      has the same bytes. */
  function Thin(best: Option<Pair>, sent: Option<Sha>): Option<Pair> {
    if best.Some? && sent == Some(best.value.sha) then None else best
  }

  /** Any answer will do, also a refusal. */
  function SentAfter(best: Option<Pair>, heard: bool, sent: Option<Sha>): Option<Sha> {
    var p := Thin(best, sent);
    if heard && p.Some? then Some(p.value.sha) else sent
  }

  function Thinly(s: Stmt, sent: Option<Sha>): Stmt
    requires s.Held? && s.w.Put?
  {
    Held(s.id, s.token, Put(s.w.take, s.w.last, Thin(s.w.best, sent)))
  }

  /** A run with the writes of one claim as the shortcut sends them. */
  function Thinned(ss: seq<Said>, id: JobId, token: Token, sent: Option<Sha>): seq<Stmt> {
    if ss == [] then []
    else if Offer(ss[0].s, id, token) then
      [Thinly(ss[0].s, sent)] + Thinned(ss[1..], id, token, SentAfter(ss[0].s.w.best, ss[0].heard, sent))
    else [ss[0].s] + Thinned(ss[1..], id, token, sent)
  }

  /** Offering `p` would change nothing. */
  predicate Spent(row: Option<Ckpt>, p: Pair) {
    row.Some? && (p.esr.Some? ==> row.value.bestEsr.Some? && row.value.bestEsr.value <= p.esr.value)
  }

  /** Leaving the best pair out of one write is harmless exactly when the write is refused
      or the row already holds a best that the offer does not beat. */
  lemma SkipExactly(db: Db, id: JobId, token: Token, take: TakeId, last: Pair, p: Pair)
    ensures Exec(db, Held(id, token, Put(take, last, None))) == Exec(db, Held(id, token, Put(take, last, Some(p))))
            <==> !Mine(db, id, token) || Spent(Lookup(db.ckpts, take), p)
  {
    hide JobsAfter, ResultsAfter, EpochsAfter, LogAfter;
    var x, y := Exec(db, Held(id, token, Put(take, last, None))), Exec(db, Held(id, token, Put(take, last, Some(p))));
    SameTables(db, id, token, take, last, None, Some(p));
    if Mine(db, id, token) {
      assert x.ckpts[take] == Upsert(Lookup(db.ckpts, take), Inserted(id, token, last, None));
      assert y.ckpts[take] == Upsert(Lookup(db.ckpts, take), Inserted(id, token, last, Some(p)));
    }
  }

  lemma SameTables(db: Db, id: JobId, token: Token, take: TakeId, last: Pair, b: Option<Pair>, c: Option<Pair>)
    ensures var x, y := Exec(db, Held(id, token, Put(take, last, b))), Exec(db, Held(id, token, Put(take, last, c)));
            x == y.(ckpts := x.ckpts)
  {
  }

  /** Every pair left out was spent where it was left out. */
  predicate AllSpent(db: Db, ss: seq<Said>, id: JobId, token: Token, sent: Option<Sha>)
    decreases |ss|
  {
    ss != [] ==>
      var s := ss[0].s;
      if Offer(s, id, token) then
        && (Thin(s.w.best, sent) != s.w.best ==>
              !Mine(db, id, token) || Spent(Lookup(db.ckpts, s.w.take), s.w.best.value))
        && AllSpent(Exec(db, s), ss[1..], id, token, SentAfter(s.w.best, ss[0].heard, sent))
      else AllSpent(Exec(db, s), ss[1..], id, token, sent)
  }

  /** At no moment can the library tell the shortcut from offering every time. */
  ghost predicate Alike(db: Db, xs: seq<Stmt>, ys: seq<Stmt>) {
    |xs| == |ys| && forall n | 0 <= n <= |xs| :: Run(db, xs[..n]) == Run(db, ys[..n])
  }

  lemma AlikeStep(db: Db, xs: seq<Stmt>, ys: seq<Stmt>)
    requires xs != [] && |xs| == |ys|
    ensures Alike(db, xs, ys) <==> Exec(db, xs[0]) == Exec(db, ys[0]) && Alike(Exec(db, xs[0]), xs[1..], ys[1..])
  {
    hide Exec;
    var d := Exec(db, xs[0]);
    if Alike(db, xs, ys) {
      assert xs[..1] == [xs[0]] && ys[..1] == [ys[0]];
      assert Run(db, [xs[0]]) == d && Run(db, [ys[0]]) == Exec(db, ys[0]);
      forall n | 0 <= n <= |xs| - 1 ensures Run(d, xs[1..][..n]) == Run(d, ys[1..][..n]) {
        assert Run(db, xs[..n + 1]) == Run(db, ys[..n + 1]);
        Fence.RunPrefix(db, xs, n + 1);
        Fence.RunPrefix(db, ys, n + 1);
      }
    }
    if d == Exec(db, ys[0]) && Alike(d, xs[1..], ys[1..]) {
      forall n | 0 <= n <= |xs| ensures Run(db, xs[..n]) == Run(db, ys[..n]) {
        if n > 0 {
          Fence.RunPrefix(db, xs, n);
          Fence.RunPrefix(db, ys, n);
          assert Run(d, xs[1..][..n - 1]) == Run(d, ys[1..][..n - 1]);
        }
      }
    }
  }

  /** The shortcut is invisible over a whole run exactly when every pair it leaves out is
      spent at that moment, whoever else writes and whichever answers are lost. */
  lemma {:induction false} ShortcutExactly(db: Db, ss: seq<Said>, id: JobId, token: Token, sent: Option<Sha>)
    ensures Alike(db, Thinned(ss, id, token, sent), Bare(ss)) <==> AllSpent(db, ss, id, token, sent)
    decreases |ss|
  {
    var thin, bare := Thinned(ss, id, token, sent), Bare(ss);
    SameLength(ss, id, token, sent);
    if ss != [] {
      hide Exec, Spent, Alike;
      var s := ss[0].s;
      AlikeStep(db, thin, bare);
      assert bare[1..] == Bare(ss[1..]);
      if Offer(s, id, token) {
        var sent' := SentAfter(s.w.best, ss[0].heard, sent);
        assert thin[1..] == Thinned(ss[1..], id, token, sent');
        ShortcutExactly(Exec(db, s), ss[1..], id, token, sent');
        if Thin(s.w.best, sent) != s.w.best { SkipExactly(db, id, token, s.w.take, s.w.last, s.w.best.value); }
      } else {
        assert thin[1..] == Thinned(ss[1..], id, token, sent);
        ShortcutExactly(Exec(db, s), ss[1..], id, token, sent);
      }
    } else {
      assert thin == bare;
    }
  }

  lemma {:induction false} SameLength(ss: seq<Said>, id: JobId, token: Token, sent: Option<Sha>)
    ensures |Thinned(ss, id, token, sent)| == |Bare(ss)| == |ss|
    decreases |ss|
  {
    if ss != [] {
      SameLength(ss[1..], id, token,
                 if Offer(ss[0].s, id, token) then SentAfter(ss[0].s.w.best, ss[0].heard, sent) else sent);
    }
  }

  /** Equal sha means equal pair, among everything one claim offers. */
  ghost predicate BytesName(ss: seq<Said>, id: JobId, token: Token) {
    forall i, k | 0 <= i < |ss| && 0 <= k < |ss| && Offer(ss[i].s, id, token) && Offer(ss[k].s, id, token) ::
      SamePair(ss[i].s.w.best, ss[k].s.w.best)
  }

  ghost predicate OneTake(ss: seq<Said>, id: JobId, token: Token, take: TakeId) {
    forall i | 0 <= i < |ss| && Offer(ss[i].s, id, token) :: ss[i].s.w.take == take
  }

  predicate SamePair(a: Option<Pair>, b: Option<Pair>) {
    a.Some? && b.Some? && a.value.sha == b.value.sha ==> a == b
  }

  /** The take's weights are not dropped while the claim could still write them. */
  predicate NoDropWhileMine(db: Db, ss: seq<Said>, id: JobId, token: Token, take: TakeId)
    decreases |ss|
  {
    ss != [] ==>
      && (ss[0].s == DropWeights(take) ==> !Mine(db, id, token))
      && NoDropWhileMine(Exec(db, ss[0].s), ss[1..], id, token, take)
  }

  /** A best pair once stored stays beaten or equalled until a drop. */
  lemma SpentStays(db: Db, s: Stmt, take: TakeId, p: Pair)
    requires Spent(Lookup(db.ckpts, take), p) && s != DropWeights(take)
    ensures Spent(Lookup(Exec(db, s).ckpts, take), p)
  {
    hide JobsAfter, ResultsAfter, EpochsAfter, LogAfter;
  }

  lemma OfferSpends(db: Db, id: JobId, token: Token, take: TakeId, last: Pair, p: Pair)
    requires Mine(db, id, token)
    ensures Spent(Lookup(Exec(db, Held(id, token, Put(take, last, Some(p)))).ckpts, take), p)
  {
  }

  /** With no drop while the claim holds, what was sent and heard, and was not refused, is
      spent ever after; what was refused will always be. */
  lemma {:induction false} SkipsAreSpent(db: Db, ss: seq<Said>, id: JobId, token: Token,
                                     take: TakeId, sent: Option<Pair>)
    requires token < db.nextToken && NoDropWhileMine(db, ss, id, token, take)
             && BytesName(ss, id, token) && OneTake(ss, id, token, take)
    requires sent.Some? && Mine(db, id, token) ==> Spent(Lookup(db.ckpts, take), sent.value)
    requires forall i | 0 <= i < |ss| && Offer(ss[i].s, id, token) :: SamePair(sent, ss[i].s.w.best)
    ensures AllSpent(db, ss, id, token, if sent.Some? then Some(sent.value.sha) else None)
    decreases |ss|
  {
    if ss != [] {
      var s, rest := ss[0].s, ss[1..];
      var best := if Offer(s, id, token) then s.w.best else None;
      var skipped := sent.Some? && best.Some? && sent.value.sha == best.value.sha;
      var sent' := if Offer(s, id, token) && ss[0].heard && best.Some? && !skipped then best else sent;
      assert forall i | 0 <= i < |rest| :: rest[i] == ss[i + 1];
      StillSpent(db, s, id, token, take, sent, best, sent');
      hide Exec, Mine, Spent;
      SkipsAreSpent(Exec(db, s), rest, id, token, take, sent');
    }
  }

  lemma StillSpent(db: Db, s: Stmt, id: JobId, token: Token, take: TakeId,
                   sent: Option<Pair>, best: Option<Pair>, sent': Option<Pair>)
    requires token < db.nextToken && (s == DropWeights(take) ==> !Mine(db, id, token))
    requires sent.Some? && Mine(db, id, token) ==> Spent(Lookup(db.ckpts, take), sent.value)
    requires sent' == sent || (sent' == best && Offer(s, id, token) && s.w.take == take && s.w.best == best)
    ensures token < Exec(db, s).nextToken
    ensures sent'.Some? && Mine(Exec(db, s), id, token) ==> Spent(Lookup(Exec(db, s).ckpts, take), sent'.value)
  {
    if sent'.Some? && Mine(Exec(db, s), id, token) {
      if !Mine(db, id, token) {
        assert Run(db, [s]) == Exec(db, s);
        Fence.LostForever(db, [s], id, token);
      }
      hide Exec, Spent;
      if sent' == sent {
        SpentStays(db, s, take, sent.value);
      } else {
        OfferSpends(db, id, token, take, s.w.last, best.value);
      }
    }
  }

  /** The saver's skip-if-just-sent stores the same library, at every moment, as offering
      the best pair every time: among any other statements, whichever answers are lost,
      whether or not the claim is lost on the way, as long as nobody drops the take's
      weights while the claim can still write them. */
  lemma ShortcutIsHarmless(db: Db, ss: seq<Said>, id: JobId, token: Token, take: TakeId)
    requires token < db.nextToken && BytesName(ss, id, token) && OneTake(ss, id, token, take)
             && NoDropWhileMine(db, ss, id, token, take)
    ensures Alike(db, Thinned(ss, id, token, None), Bare(ss))
    ensures Run(db, Thinned(ss, id, token, None)) == Run(db, Bare(ss))
  {
    hide Run;
    SkipsAreSpent(db, ss, id, token, take, None);
    ShortcutExactly(db, ss, id, token, None);
    SameLength(ss, id, token, None);
    var thin, bare := Thinned(ss, id, token, None), Bare(ss);
    assert thin[..|ss|] == thin && bare[..|ss|] == bare;
  }

  /** A drop in between defeats it: the pair was sent, heard and dropped, and is not sent
      again while it stays the best. */
  lemma DropDefeatsShortcut(db: Db, id: JobId, token: Token, take: TakeId, last: Pair, p: Pair)
    requires Mine(db, id, token) && p.esr.Some?
    ensures var look := Said(Held(id, token, Put(take, last, Some(p))), true);
            var ss := [look, Said(DropWeights(take), true), look];
            var always, thin := Run(db, Bare(ss)), Run(db, Thinned(ss, id, token, None));
            && take in always.ckpts && always.ckpts[take].bestEsr == p.esr
            && take in thin.ckpts && thin.ckpts[take].bestEsr.None? && thin.ckpts[take].bestNam.None?
  {
    var put, bare := Held(id, token, Put(take, last, Some(p))), Held(id, token, Put(take, last, None));
    var look := Said(put, true);
    var ss := [look, Said(DropWeights(take), true), look];
    hide JobsAfter, ResultsAfter, EpochsAfter, LogAfter, Run, Exec;
    ThreeSteps(ss, id, token, put, bare);
    PutDropPut(db, id, token, take, put, put);
    PutDropPut(db, id, token, take, put, bare);
  }

  lemma ThreeSteps(ss: seq<Said>, id: JobId, token: Token, put: Stmt, bare: Stmt)
    requires Offer(put, id, token) && put.w.best.Some? && bare == Held(id, token, Put(put.w.take, put.w.last, None))
    requires ss == [Said(put, true), Said(DropWeights(put.w.take), true), Said(put, true)]
    ensures Bare(ss) == [put, DropWeights(put.w.take), put]
    ensures Thinned(ss, id, token, None) == [put, DropWeights(put.w.take), bare]
  {
    var drop, again := Said(DropWeights(put.w.take), true), Said(put, true);
    var tag := Some(put.w.best.value.sha);
    assert ss[1..] == [drop, again] && [drop, again][1..] == [again] && [again][1..] == [];
    assert Bare([again]) == [put] && Bare([drop, again]) == [drop.s] + Bare([again]);
    assert Thinned([again], id, token, tag) == [bare];
    assert Thinned([drop, again], id, token, tag) == [drop.s] + Thinned([again], id, token, tag);
    assert SentAfter(put.w.best, true, None) == tag && Thinly(put, None) == put;
  }

  lemma PutDropPut(db: Db, id: JobId, token: Token, take: TakeId, a: Stmt, b: Stmt)
    requires Mine(db, id, token) && Offer(a, id, token) && Offer(b, id, token) && a.w.take == b.w.take == take
    ensures Lookup(Run(db, [a, DropWeights(take), b]).ckpts, take) == Some(Inserted(id, token, b.w.last, b.w.best))
  {
    hide ResultsAfter, EpochsAfter, LogAfter;
    var d1 := Exec(db, a);
    var d2 := Exec(d1, DropWeights(take));
    assert [a, DropWeights(take), b][1..] == [DropWeights(take), b] && [DropWeights(take), b][1..] == [b]
           && [b][1..] == [];
    assert Run(d2, [b]) == Exec(d2, b) && Run(d1, [DropWeights(take), b]) == Run(d2, [b]);
    assert Mine(d2, id, token) && take !in d2.ckpts;
  }
}
