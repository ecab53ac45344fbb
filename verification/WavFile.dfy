/** Files as lists of chunks, and what the scanner makes of them. */
module WavFile {
  import opened Types
  import opened Wav

  // ---- printing ----

  function Le16(n: nat): (b: Blob)
    ensures |b| == 2
  {
    [(n % 0x100) as Byte, (n / 0x100 % 0x100) as Byte]
  }

  /** The low four bytes, lowest first: the conversion to uint32 drops the rest. */
  function Le32(n: nat): (b: Blob)
    ensures |b| == 4
  {
    Le16(n) + Le16(n / 0x100 / 0x100)
  }

  lemma U32OfLe32(n: nat, b: Blob, at: nat)
    requires at + 4 <= |b| && b[at..at + 4] == Le32(n)
    ensures U32(b, at) == n % WORD
  {
    var l := Le32(n);
    assert l[0] == b[at] && l[1] == b[at + 1] && l[2] == b[at + 2] && l[3] == b[at + 3];
    var q := n / 0x100;
    var r := q / 0x100;
    var t := r / 0x100;
    assert t == 0x100 * (t / 0x100) + t % 0x100;
    assert r == 0x100 * t + r % 0x100 && q == 0x100 * r + q % 0x100 && n == 0x100 * q + n % 0x100;
    Remainder(n, t / 0x100, U32(b, at));
  }

  lemma U16OfLe16(n: nat, b: Blob, at: nat)
    requires at + 2 <= |b| && b[at..at + 2] == Le16(n) && n < 0x1_0000
    ensures U16(b, at) == n
  {
    assert b[at..at + 2][0] == b[at] && b[at..at + 2][1] == b[at + 1];
  }

  lemma Remainder(n: nat, q: nat, r: nat)
    requires n == WORD * q + r && r < WORD
    ensures n % WORD == r
  {
  }

  /** A chunk as the format defines it: an id, its size, its bytes, padded to a word. */
  datatype Chunk = Chunk(id: Blob, body: Blob, pad: Blob)

  predicate WellFormed(c: Chunk) {
    && |c.id| == 4 && |c.body| < WORD && |c.pad| == |c.body| % 2
    && (c.id == FMT ==> |c.body| >= 16)
  }

  predicate AllWellFormed(cs: seq<Chunk>) {
    forall i | 0 <= i < |cs| :: WellFormed(cs[i])
  }

  function Bytes(c: Chunk): Blob {
    c.id + Le32(|c.body|) + c.body + c.pad
  }

  function AllBytes(cs: seq<Chunk>): Blob {
    if cs == [] then [] else Bytes(cs[0]) + AllBytes(cs[1..])
  }

  /** A RIFF/WAVE file: its declared size, its chunks, and whatever follows them. */
  function File(declared: nat, cs: seq<Chunk>, tail: Blob): Blob {
    RIFF + Le32(declared) + WAVE + (AllBytes(cs) + tail)
  }

  // ---- the scan over chunks ----

  function Marked(c: Chunk, off: nat, s: Seen): Seen
    requires WellFormed(c)
  {
    if c.id == FMT then
      s.(haveFmt := true, channels := U16(c.body, 2), rate := U32(c.body, 4),
         byteRate := U32(c.body, 8), bits := U16(c.body, 14))
    else if c.id == DATA then s.(haveData := true, dataBytes := |c.body|, dataAt := off + 8)
    else s
  }

  predicate Complete(s: Seen) { s.haveFmt && s.haveData }

  /** Chunk by chunk, until both a fmt and a data chunk have been seen. */
  function Scanned(cs: seq<Chunk>, off: nat, s: Seen): Seen
    requires AllWellFormed(cs)
  {
    if cs == [] then s
    else
      var s' := Marked(cs[0], off, s);
      if Complete(s') then s' else Scanned(cs[1..], off + |Bytes(cs[0])|, s')
  }

  lemma Within(b: Blob, off: nat, w: Blob, i: nat, k: nat)
    requires off + |w| <= |b| && b[off..off + |w|] == w && i <= k <= |w|
    ensures b[off + i..off + k] == w[i..k]
  {
    forall m | 0 <= m < k - i ensures b[off + i..off + k][m] == w[i..k][m] {
      assert b[off..off + |w|][i + m] == w[i + m];
    }
  }

  lemma BytesAt(b: Blob, off: nat, c: Chunk)
    requires WellFormed(c) && off + |Bytes(c)| <= |b| && b[off..off + |Bytes(c)|] == Bytes(c)
    ensures off + 8 + Even(|c.body|) == off + |Bytes(c)|
    ensures b[off..off + 4] == c.id && b[off + 8..off + 8 + |c.body|] == c.body
    ensures U32(b, off + 4) == |c.body|
  {
    hide Le32, U32;
    var w := Bytes(c);
    assert w == c.id + (Le32(|c.body|) + (c.body + c.pad));
    assert w[0..4] == c.id && w[4..8] == Le32(|c.body|) && w[8..8 + |c.body|] == c.body;
    Within(b, off, w, 0, 4);
    Within(b, off, w, 4, 8);
    Within(b, off, w, 8, 8 + |c.body|);
    U32OfLe32(|c.body|, b, off + 4);
  }

  lemma FieldsAt(b: Blob, off: nat, body: Blob)
    requires off + |body| <= |b| && b[off..off + |body|] == body && |body| >= 16
    ensures U16(b, off + 2) == U16(body, 2) && U32(b, off + 4) == U32(body, 4)
    ensures U32(b, off + 8) == U32(body, 8) && U16(b, off + 14) == U16(body, 14)
  {
    forall k | 0 <= k < 16 ensures b[off + k] == body[k] {
      assert b[off..off + |body|][k] == body[k];
    }
  }

  lemma NotedChunk(b: Blob, off: nat, c: Chunk, s: Seen)
    requires WellFormed(c) && off + |Bytes(c)| <= |b| && b[off..off + |Bytes(c)|] == Bytes(c)
    ensures IdAt(b, off, FMT) ==> off + 24 <= |b|
    ensures Noted(b, off, s) == Marked(c, off, s)
    ensures U32(b, off + 4) == |c.body| && off + 8 + Even(|c.body|) == off + |Bytes(c)|
  {
    hide Bytes, U16, U32;
    BytesAt(b, off, c);
    assert FMT != DATA;
    if c.id == FMT { FieldsAt(b, off + 8, c.body); }
  }

  /** The scanner reads a printed list of chunks as the list: the same facts, the same
      stopping place. */
  lemma {:induction false} WalkIsScan(front: Blob, cs: seq<Chunk>, tail: Blob, s: Seen)
    requires AllWellFormed(cs) && !Complete(s)
    ensures var b := front + (AllBytes(cs) + tail);
            var s' := Scanned(cs, |front|, s);
            Walk(b, |front|, s) == if Complete(s') then Some(s') else Walk(b, |front| + |AllBytes(cs)|, s')
    decreases |cs|
  {
    hide Noted, Marked, Bytes, U32, Even, IdAt, AllBytes;
    if cs == [] {
      NoBytes();
    } else {
      var c := cs[0];
      var b := front + (AllBytes(cs) + tail);
      ChunkInPlace(front, cs, tail);
      NotedChunk(b, |front|, c, s);
      if !Complete(Marked(c, |front|, s)) {
        WalkIsScan(front + Bytes(c), cs[1..], tail, Marked(c, |front|, s));
      }
    }
  }

  lemma NoBytes()
    ensures AllBytes([]) == []
  {
  }

  lemma ChunkInPlace(front: Blob, cs: seq<Chunk>, tail: Blob)
    requires cs != []
    ensures var b := front + (AllBytes(cs) + tail);
            var n := |Bytes(cs[0])|;
            && |front| + n <= |b| && b[|front|..|front| + n] == Bytes(cs[0])
            && b == (front + Bytes(cs[0])) + (AllBytes(cs[1..]) + tail)
            && |AllBytes(cs)| == n + |AllBytes(cs[1..])|
  {
    Regrouped(front, Bytes(cs[0]), AllBytes(cs[1..]), tail);
  }

  lemma Regrouped(front: Blob, x: Blob, rest: Blob, tail: Blob)
    ensures var b := front + ((x + rest) + tail);
            b == (front + x) + (rest + tail) && |front| + |x| <= |b| && b[|front|..|front| + |x|] == x
  {
  }

  // ---- a list with fmt before data ----

  predicate NoData(cs: seq<Chunk>) {
    forall i | 0 <= i < |cs| :: cs[i].id != DATA
  }

  predicate HasFmt(cs: seq<Chunk>) {
    exists i :: 0 <= i < |cs| && cs[i].id == FMT
  }

  /** The last fmt chunk of a list. */
  function LastFmt(cs: seq<Chunk>): (c: Chunk)
    requires HasFmt(cs)
    ensures c in cs && c.id == FMT
  {
    var n := |cs| - 1;
    if cs[n].id == FMT then cs[n]
    else
      assert forall k | 0 <= k < n :: cs[..n][k] == cs[k];
      LastFmt(cs[..n])
  }

  lemma {:induction false} LastFmtIsLast(cs: seq<Chunk>) returns (i: nat)
    requires HasFmt(cs)
    ensures i < |cs| && cs[i] == LastFmt(cs) && cs[i].id == FMT
    ensures forall k | i < k < |cs| :: cs[k].id != FMT
  {
    i := |cs| - 1;
    if cs[i].id != FMT {
      var front := cs[..i];
      assert forall k | 0 <= k < i :: front[k] == cs[k];
      i := LastFmtIsLast(front);
    }
  }

  lemma {:induction false} ScannedAppend(a: seq<Chunk>, more: seq<Chunk>, off: nat, s: Seen)
    requires AllWellFormed(a + more) && AllWellFormed(a) && AllWellFormed(more) && NoData(a) && !s.haveData
    ensures !Scanned(a, off, s).haveData
    ensures Scanned(a + more, off, s) == Scanned(more, off + |AllBytes(a)|, Scanned(a, off, s))
    decreases |a|
  {
    hide Bytes, U16, U32;
    if a == [] {
      assert a + more == more;
    } else {
      assert (a + more)[1..] == a[1..] + more;
      ScannedAppend(a[1..], more, off + |Bytes(a[0])|, Marked(a[0], off, s));
    }
  }

  lemma {:induction false} ScannedFmt(a: seq<Chunk>, off: nat, s: Seen)
    requires AllWellFormed(a) && NoData(a) && !s.haveData
    ensures var r := Scanned(a, off, s);
            && !r.haveData
            && (HasFmt(a) ==> r == Marked(LastFmt(a), 0, s))
            && (!HasFmt(a) ==> r == s)
    decreases |a|
  {
    if a != [] {
      hide Marked, AllBytes, Scanned, LastFmt, HasFmt, Bytes;
      var n := |a| - 1;
      var front, last := a[..n], a[n];
      assert a == front + [last];
      ScannedFmt(front, off, s);
      OneChunkMore(front, last, off, s);
    }
  }

  lemma OneChunkMore(front: seq<Chunk>, last: Chunk, off: nat, s: Seen)
    requires AllWellFormed(front) && WellFormed(last) && AllWellFormed(front + [last])
    requires NoData(front) && last.id != DATA && !s.haveData
    requires Scanned(front, off, s) == if HasFmt(front) then Marked(LastFmt(front), 0, s) else s
    ensures var a := front + [last];
            var r := Scanned(a, off, s);
            && !r.haveData
            && (HasFmt(a) ==> r == Marked(LastFmt(a), 0, s))
            && (!HasFmt(a) ==> r == s)
  {
    hide Marked, AllBytes, Scanned, LastFmt, HasFmt, Bytes;
    ScannedAppend(front, [last], off, s);
    LastScanned(last, off + |AllBytes(front)|, Scanned(front, off, s));
    FmtSplits(front, last);
    MarkedAgain(last, off + |AllBytes(front)|, s, if HasFmt(front) then Some(LastFmt(front)) else None);
  }

  lemma FmtSplits(front: seq<Chunk>, last: Chunk)
    ensures var a := front + [last];
            && (HasFmt(a) <==> last.id == FMT || HasFmt(front))
            && (HasFmt(a) ==> LastFmt(a) == if last.id == FMT then last else LastFmt(front))
  {
    var a := front + [last];
    assert a[..|a|-1] == front && a[|a|-1] == last;
    if HasFmt(front) {
      var i :| 0 <= i < |front| && front[i].id == FMT;
      assert a[i].id == FMT;
    }
  }

  /** A later fmt chunk overwrites an earlier one; any other chunk but a data one is passed by. */
  lemma MarkedAgain(c: Chunk, off: nat, s: Seen, f: Option<Chunk>)
    requires WellFormed(c) && c.id != DATA
    requires f.Some? ==> WellFormed(f.value) && f.value.id == FMT
    ensures var before := if f.Some? then Marked(f.value, 0, s) else s;
            Marked(c, off, before) == if c.id == FMT then Marked(c, 0, s) else before
  {
    hide U16, U32;
  }

  lemma LastScanned(c: Chunk, off: nat, s: Seen)
    requires WellFormed(c) && c.id != DATA && !s.haveData
    ensures Scanned([c], off, s) == Marked(c, off, s) && !Marked(c, off, s).haveData
  {
    assert [c][1..] == [];
  }

  /** On any list of well-formed word-aligned chunks with a fmt before the first data, the
      verdict is on the last fmt before it and that data, whatever follows. */
  lemma ScannerReadsChunks(declared: nat, pre: seq<Chunk>, data: Chunk, post: seq<Chunk>, tail: Blob)
    requires AllWellFormed(pre) && NoData(pre) && HasFmt(pre)
    requires WellFormed(data) && data.id == DATA && AllWellFormed(post)
    requires |File(declared, pre + [data] + post, tail)| <= MAX_SIZE
    ensures var b := File(declared, pre + [data] + post, tail);
            var f := LastFmt(pre).body;
            Verdicted(b) == if |b| < 44 then Refused(TooShort) else
              Judged(Seen(true, true, U32(f, 4), U16(f, 2), U16(f, 14), U32(f, 8), |data.body|,
                     12 + |AllBytes(pre)| + 8), |b|)
  {
    hide Walk, AllBytes, Le32, U16, U32, Judged, Marked, LastFmt;
    var cs := pre + [data] + post;
    var front := RIFF + Le32(declared) + WAVE;
    var b := File(declared, cs, tail);
    assert cs == pre + ([data] + post);
    ScannedPre(pre, [data] + post);
    DataEnds(data, post, 12 + |AllBytes(pre)|, LastFmt(pre));
    WalkIsScan(front, cs, tail, NOTHING);
    HeaderInPlace(declared, cs, tail);
  }

  lemma ScannedPre(pre: seq<Chunk>, more: seq<Chunk>)
    requires AllWellFormed(pre) && AllWellFormed(more) && NoData(pre) && HasFmt(pre)
    ensures AllWellFormed(pre + more) && WellFormed(LastFmt(pre))
    ensures Scanned(pre + more, 12, NOTHING) == Scanned(more, 12 + |AllBytes(pre)|, Marked(LastFmt(pre), 0, NOTHING))
  {
    hide Marked, AllBytes, Scanned;
    assert LastFmt(pre) in pre;
    ScannedAppend(pre, more, 12, NOTHING);
    ScannedFmt(pre, 12, NOTHING);
  }

  lemma DataEnds(data: Chunk, post: seq<Chunk>, off: nat, f: Chunk)
    requires WellFormed(data) && data.id == DATA && AllWellFormed(post) && WellFormed(f) && f.id == FMT
    ensures AllWellFormed([data] + post)
    ensures Scanned([data] + post, off, Marked(f, 0, NOTHING))
         == Seen(true, true, U32(f.body, 4), U16(f.body, 2), U16(f.body, 14), U32(f.body, 8), |data.body|, off + 8)
  {
    hide U16, U32;
    assert FMT != DATA;
    assert ([data] + post)[0] == data;
  }

  lemma HeaderInPlace(declared: nat, cs: seq<Chunk>, tail: Blob)
    ensures var b := File(declared, cs, tail); |b| >= 12 && b[..4] == RIFF && b[8..12] == WAVE
  {
  }
}
