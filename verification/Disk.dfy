/** Which pair a saver look picks off the scratch directory, whatever the trainer has left
    there: whole pairs, torn ones, and names that do not parse. */
module Disk {
  import opened Types

  datatype Prefix = BestPrefix | LastPrefix | OtherPrefix

  /** A directory entry as the walk visits it: its name with what the name parses to (a
      non-finite figure is no figure), and the pair it heads if both its files are whole. */
  datatype Entry = Entry(
    name: string, prefix: Prefix, isCkpt: bool, inCheckpoints: bool,
    epoch: Option<nat>, esr: Option<real>,
    whole: Option<(Blob, Blob)>)

  predicate BestCandidate(f: Entry) {
    f.prefix == BestPrefix && f.isCkpt && f.inCheckpoints && f.epoch.Some? && f.esr.Some?
  }

  /** What is looked at: only checkpoints, only where checkpoints belong, under a best name
      with a finite figure or a last name, and with an epoch. */
  lemma WhatIsLookedAt(f: Entry)
    ensures BestCandidate(f) ==> f.prefix == BestPrefix && f.esr != None
    ensures LastCandidate(f) ==> f.prefix == LastPrefix
    ensures BestCandidate(f) || LastCandidate(f) <==>
              && f.isCkpt && f.inCheckpoints && f.epoch != None
              && f.prefix != OtherPrefix && (f.prefix == BestPrefix ==> f.esr != None)
  {
  }

  predicate LastCandidate(f: Entry) {
    f.prefix == LastPrefix && f.isCkpt && f.inCheckpoints && f.epoch.Some?
  }

  /** First best wins: a lower figure, or an equal one at a lower epoch. */
  predicate Beats(a: Entry, b: Entry)
    requires BestCandidate(a) && BestCandidate(b)
  {
    a.esr.value < b.esr.value || (a.esr.value == b.esr.value && a.epoch.value < b.epoch.value)
  }

  method SelectBest(walk: seq<Entry>) returns (best: Option<Entry>)
    ensures best.Some? <==> exists f :: f in walk && BestCandidate(f)
    ensures best.Some? ==> best.value in walk && BestCandidate(best.value)
    ensures best.Some? ==> forall f | f in walk && BestCandidate(f) :: !Beats(f, best.value)
    ensures best.Some? ==>
              forall f | f in walk && BestCandidate(f) ::
                && best.value.esr.value <= f.esr.value
                && (best.value.esr == f.esr ==> best.value.epoch.value <= f.epoch.value)
  {
    best := None;
    for i := 0 to |walk|
      invariant best.Some? <==> exists f :: f in walk[..i] && BestCandidate(f)
      invariant best.Some? ==> best.value in walk[..i] && BestCandidate(best.value)
      invariant best.Some? ==> forall f | f in walk[..i] && BestCandidate(f) :: !Beats(f, best.value)
    {
      assert walk[..i + 1] == walk[..i] + [walk[i]];
      var f := walk[i];
      if BestCandidate(f) && (best.None? || Beats(f, best.value)) {
        best := Some(f);
      }
    }
    assert walk[..|walk|] == walk;
  }

  // ---- the newest-first list ----

  predicate NameBelow(a: string, b: string) {
    b != [] && (a == [] || a[0] < b[0] || (a[0] == b[0] && NameBelow(a[1..], b[1..])))
  }

  /** Names compare byte by byte: at their first difference, or the shorter first. */
  lemma {:induction false} NameBelowMeans(a: string, b: string)
    ensures NameBelow(a, b) <==>
              exists n: nat :: n <= |a| && n < |b| && a[..n] == b[..n] && (n == |a| || a[n] < b[n])
  {
    if a != [] && b != [] && a[0] == b[0] {
      NameBelowMeans(a[1..], b[1..]);
      forall n: nat | n <= |a[1..]| && n < |b[1..]| && a[1..][..n] == b[1..][..n]
                      && (n == |a[1..]| || a[1..][n] < b[1..][n])
        ensures n + 1 <= |a| && n + 1 < |b| && a[..n + 1] == b[..n + 1] && (n + 1 == |a| || a[n + 1] < b[n + 1])
      {
        assert a[..n + 1] == [a[0]] + a[1..][..n] && b[..n + 1] == [b[0]] + b[1..][..n];
      }
      forall n: nat | n <= |a| && n < |b| && a[..n] == b[..n] && (n == |a| || a[n] < b[n])
        ensures n > 0 && a[1..][..n - 1] == b[1..][..n - 1] && (n - 1 == |a[1..]| || a[1..][n - 1] < b[1..][n - 1])
      {
        assert a[1..][..n - 1] == a[..n][1..] && b[1..][..n - 1] == b[..n][1..];
      }
    } else if b != [] {
      assert a[..0] == b[..0];
      Heads(a);
      Heads(b);
    }
  }

  lemma Heads(s: string)
    ensures forall n | 0 < n <= |s| :: s[..n][0] == s[0]
  {
  }

  lemma {:induction false} NamesCompare(a: string, b: string)
    ensures a == b || NameBelow(a, b) || NameBelow(b, a)
  {
    if a != [] && b != [] && a[0] == b[0] {
      NamesCompare(a[1..], b[1..]);
      if a[1..] == b[1..] { assert a == [a[0]] + a[1..] && b == [b[0]] + b[1..]; }
    }
  }

  lemma {:induction false} NamesChain(a: string, b: string, c: string)
    requires a == b || NameBelow(a, b)
    requires b == c || NameBelow(b, c)
    ensures a == c || NameBelow(a, c)
  {
    if a != [] && b != [] && c != [] && a[0] == b[0] == c[0] {
      NamesChain(a[1..], b[1..], c[1..]);
      if a[1..] == c[1..] { assert a == [a[0]] + a[1..] && c == [c[0]] + c[1..]; }
    }
  }

  /** a may come before b: a newer epoch, or the same epoch and no lower name. */
  predicate NoOlder(a: Entry, b: Entry)
    requires LastCandidate(a) && LastCandidate(b)
  {
    a.epoch.value > b.epoch.value
    || (a.epoch.value == b.epoch.value && (a.name == b.name || NameBelow(b.name, a.name)))
  }

  lemma OrderTotal(a: Entry, b: Entry)
    requires LastCandidate(a) && LastCandidate(b)
    ensures NoOlder(a, b) || NoOlder(b, a)
  {
    NamesCompare(a.name, b.name);
  }

  lemma OrderChain(a: Entry, b: Entry, c: Entry)
    requires LastCandidate(a) && LastCandidate(b) && LastCandidate(c) && NoOlder(a, b) && NoOlder(b, c)
    ensures NoOlder(a, c)
  {
    if a.epoch == c.epoch { NamesChain(c.name, b.name, a.name); }
  }

  predicate AllLast(s: seq<Entry>) {
    forall i | 0 <= i < |s| :: LastCandidate(s[i])
  }

  ghost predicate NewestFirst(s: seq<Entry>)
    requires AllLast(s)
  {
    forall i, k | 0 <= i < k < |s| :: NoOlder(s[i], s[k])
  }

  lemma Spliced(s: seq<Entry>, at: nat, f: Entry)
    requires AllLast(s) && NewestFirst(s) && LastCandidate(f) && at <= |s|
    requires forall i | 0 <= i < at :: NoOlder(s[i], f)
    requires forall k | at <= k < |s| :: NoOlder(f, s[k])
    ensures var r := s[..at] + [f] + s[at..]; AllLast(r) && NewestFirst(r) && multiset(r) == multiset(s) + multiset{f}
  {
    hide NoOlder;
    var r := s[..at] + [f] + s[at..];
    assert s == s[..at] + s[at..];
    forall i | 0 <= i < |r| ensures r[i] == (if i < at then s[i] else if i == at then f else s[i - 1]) {}
  }

  /** Puts one more candidate where it belongs. */
  method Insert(s: seq<Entry>, f: Entry) returns (r: seq<Entry>)
    requires AllLast(s) && NewestFirst(s) && LastCandidate(f)
    ensures AllLast(r) && NewestFirst(r) && multiset(r) == multiset(s) + multiset{f}
  {
    var at := 0;
    while at < |s| && NoOlder(s[at], f)
      invariant at <= |s| && forall i | 0 <= i < at :: NoOlder(s[i], f)
    {
      at := at + 1;
    }
    r := s[..at] + [f] + s[at..];
    forall k | at <= k < |s| ensures NoOlder(f, s[k]) {
      OrderTotal(s[at], f);
      if at < k { OrderChain(f, s[at], s[k]); }
    }
    Spliced(s, at, f);
  }

  function LastOnes(walk: seq<Entry>): seq<Entry> {
    if walk == [] then []
    else LastOnes(walk[..|walk|-1]) + if LastCandidate(walk[|walk|-1]) then [walk[|walk|-1]] else []
  }

  lemma {:induction false} LastOnesHas(walk: seq<Entry>, f: Entry)
    ensures f in LastOnes(walk) <==> f in walk && LastCandidate(f)
  {
    if walk != [] {
      LastOnesHas(walk[..|walk|-1], f);
      assert walk == walk[..|walk|-1] + [walk[|walk|-1]];
    }
  }

  method SelectLast(walk: seq<Entry>) returns (out: seq<Entry>)
    ensures AllLast(out) && NewestFirst(out) && multiset(out) == multiset(LastOnes(walk))
    ensures forall i, k | 0 <= i < k < |out| ::
              && out[i].epoch.value >= out[k].epoch.value
              && (out[i].epoch == out[k].epoch ==> out[i].name == out[k].name || NameBelow(out[k].name, out[i].name))
  {
    out := [];
    for i := 0 to |walk|
      invariant AllLast(out) && NewestFirst(out) && multiset(out) == multiset(LastOnes(walk[..i]))
    {
      assert walk[..i + 1][..i] == walk[..i];
      if LastCandidate(walk[i]) {
        out := Insert(out, walk[i]);
      }
    }
    assert walk[..|walk|] == walk;
  }

  /** The newest choice whose files are both whole. */
  method ReadPair(choices: seq<Entry>) returns (p: Option<Entry>)
    ensures p.None? ==> forall i | 0 <= i < |choices| :: choices[i].whole.None?
    ensures p.Some? ==> exists i ::
              && 0 <= i < |choices| && choices[i] == p.value && p.value.whole.Some?
              && forall k | 0 <= k < i :: choices[k].whole.None?
  {
    for i := 0 to |choices|
      invariant forall k | 0 <= k < i :: choices[k].whole.None?
    {
      if choices[i].whole.Some? { return Some(choices[i]); }
    }
    return None;
  }

  /** What a look is going to store, if anything: the pair to continue from, and the best
      pair to offer beside it. */
  method NewestPair(walk: seq<Entry>) returns (last: Option<Entry>, best: Option<Entry>)
    // the best offered is the selected one, if it is whole; no runner-up stands in for it
    ensures best.Some? ==>
              && best.value in walk && BestCandidate(best.value) && best.value.whole.Some?
              && forall f | f in walk && BestCandidate(f) :: !Beats(f, best.value)
    ensures best.None? ==>
              || (forall f | f in walk :: !BestCandidate(f))
              || exists b :: b in walk && BestCandidate(b) && b.whole.None?
                             && forall f | f in walk && BestCandidate(f) :: !Beats(f, b)
    // the last is the whole one of the highest epoch, and only in its absence the best
    ensures (exists f :: f in walk && LastCandidate(f) && f.whole.Some?) ==>
              && last.Some? && last.value in walk && LastCandidate(last.value) && last.value.whole.Some?
              && forall f | f in walk && LastCandidate(f) && f.whole.Some? ::
                   NoOlder(last.value, f) && last.value.epoch.value >= f.epoch.value
    ensures (forall f | f in walk && LastCandidate(f) :: f.whole.None?) ==> last == best
  {
    best := None;
    var b := SelectBest(walk);
    if b.Some? && b.value.whole.Some? { best := b; }
    var choices := SelectLast(walk);
    assert forall f :: f in choices <==> f in multiset(choices);
    forall f ensures f in choices <==> f in walk && LastCandidate(f) {
      LastOnesHas(walk, f);
      assert f in choices <==> f in multiset(LastOnes(walk));
    }
    last := ReadPair(choices);
    if last.None? { last := best; }
  }
}
