/** The reader of the trainer's output: lines ended by LF, CR or CRLF, each cut to a
    bound, from any byte stream. */
module Lines {
  import opened Types

  const LF: Byte := 10
  const CR: Byte := 13

  predicate Ends(b: Byte) { b == LF || b == CR }

  // ---- the specification split ----

  /** Where the first line of s ends: at its first terminator, or at the end of s. */
  function Upto(s: Blob): (n: nat)
    ensures n <= |s| && (n < |s| ==> Ends(s[n])) && forall i | 0 <= i < n :: !Ends(s[i])
  {
    if s == [] || Ends(s[0]) then 0 else 1 + Upto(s[1..])
  }

  /** What follows the first line and its terminator. */
  function Rest(s: Blob): (r: Blob)
    ensures s != [] ==> |r| < |s|
  {
    var n := Upto(s);
    if n == |s| then []
    else if s[n] == CR && n + 1 < |s| && s[n + 1] == LF then s[n + 2..]
    else s[n + 1..]
  }

  function Split(s: Blob): seq<Blob>
    decreases |s|
  {
    if s == [] then [] else [s[..Upto(s)]] + Split(Rest(s))
  }

  function Cut(line: Blob, max: nat): Blob {
    if |line| <= max then line else line[..max]
  }

  function CutAll(lines: seq<Blob>, max: nat): seq<Blob> {
    seq(|lines|, i requires 0 <= i < |lines| => Cut(lines[i], max))
  }

  lemma CutNothing(max: nat)
    ensures Cut([], max) == []
  {
  }

  lemma CutSomething(line: Blob, max: nat)
    requires max > 0
    ensures Cut(line, max) == [] <==> line == []
  {
  }

  lemma CutMore(line: Blob, b: Byte, max: nat)
    ensures var c := Cut(line, max); Cut(line + [b], max) == if |c| < max then c + [b] else c
  {
  }

  // ---- the reader ----

  /** Past the line that starts at `start` and whose text ends at `at` lies its Rest. */
  lemma EndsHere(input: Blob, start: nat, at: nat, next: nat)
    requires start <= at <= |input| && at - start == Upto(input[start..])
    requires next == if at == |input| then at
                     else if input[at] == CR && at + 1 < |input| && input[at + 1] == LF then at + 2
                     else at + 1
    ensures next <= |input| && input[next..] == Rest(input[start..])
  {
    hide Upto;
    var s := input[start..];
    if at < |input| {
      assert s[at - start] == input[at];
      assert input[next..] == s[next - start..];
    }
  }

  class LineReader {
    const input: Blob
    const max: nat
    var pos: nat
    var buf: Blob

    ghost predicate Valid()
      reads this
    {
      pos <= |input| && buf == [] && max > 0
    }

    constructor (input: Blob, max: nat)
      requires max > 0
      ensures Valid() && this.input == input && this.max == max && pos == 0
    {
      this.input, this.max, pos, buf := input, max, 0, [];
    }

    /** The next line, or None once the stream is drained. */
    method Next() returns (line: Option<Blob>)
      requires Valid()
      modifies this
      ensures Valid()
      ensures old(input[pos..]) == [] ==> line.None? && pos == old(pos)
      ensures old(input[pos..]) != [] ==>
                var s := old(input[pos..]);
                line == Some(Cut(s[..Upto(s)], max)) && input[pos..] == Rest(s)
    {
      hide Split, CutAll, Rest, Cut;
      CutNothing(max);
      ghost var s := input[pos..];
      ghost var start := pos;
      while true
        invariant start <= pos <= |input| && pos - start <= Upto(s)
        invariant buf == Cut(s[..pos - start], max) && max > 0
        decreases |input| - pos
      {
        assert pos < |input| ==> input[pos] == s[pos - start];
        if pos == |input| {
          assert s[..pos - start] == s;
          CutSomething(s, max);
          EndsHere(input, start, pos, pos);
          if |buf| > 0 {
            line := Some(buf);
            buf := [];
            return;
          }
          return None;
        }
        var b := input[pos];
        pos := pos + 1;
        if Ends(b) {
          assert Upto(s) == pos - 1 - start;
          if b == CR {
            // collapse the LF of a CRLF pair; any other byte is put back
            if pos < |input| {
              var nb := input[pos];
              pos := pos + 1;
              if nb != LF { pos := pos - 1; }
            }
          }
          EndsHere(input, start, start + Upto(s), pos);
          line := Some(buf);
          buf := [];
          return;
        }
        assert s[..pos - start] == s[..pos - 1 - start] + [b];
        CutMore(s[..pos - 1 - start], b, max);
        if |buf| < max { buf := buf + [b]; }
      }
    }
  }

  lemma NoLines(max: nat)
    ensures CutAll([], max) == [] && Split([]) == []
  {
  }

  lemma OneMore(whole: seq<Blob>, s: Blob, max: nat)
    requires s != []
    ensures whole + Split(s) == (whole + [s[..Upto(s)]]) + Split(Rest(s))
    ensures CutAll(whole + [s[..Upto(s)]], max) == CutAll(whole, max) + [Cut(s[..Upto(s)], max)]
  {
    var x, more := s[..Upto(s)], Split(Rest(s));
    assert Split(s) == [x] + more;
    assert whole + ([x] + more) == (whole + [x]) + more;
  }

  /** Read to the end, the reader yields exactly the specification split, each line cut. */
  method ReadAll(input: Blob, max: nat) returns (lines: seq<Blob>)
    requires max > 0
    ensures lines == CutAll(Split(input), max)
  {
    var lr := new LineReader(input, max);
    lines := [];
    ghost var whole := [];
    assert input[lr.pos..] == input;
    hide CutAll, Split, Rest, Upto, Cut;
    assert CutAll(whole, max) == [] && Split([]) == [] by { NoLines(max); }
    while true
      invariant lr.Valid() && lr.input == input && lr.max == max && fresh(lr)
      invariant Split(input) == whole + Split(input[lr.pos..])
      invariant lines == CutAll(whole, max)
      decreases |input| - lr.pos
    {
      ghost var s := input[lr.pos..];
      var line := lr.Next();
      if line.None? {
        assert whole + [] == whole;
        return;
      }
      OneMore(whole, s, max);
      whole := whole + [s[..Upto(s)]];
      lines := lines + [line.value];
    }
  }

  /** What a cut line is: all of it if it fits, else its first `max` bytes. */
  lemma CutKeeps(line: Blob, max: nat)
    ensures Cut(line, max) <= line && (|line| <= max ==> Cut(line, max) == line)
    ensures |line| > max ==> |Cut(line, max)| == max
  {
  }

  /** The output of a trainer: lines of at most a mebibyte. */
  method ReadOutput(input: Blob) returns (lines: seq<Blob>)
    ensures lines == CutAll(Split(input), 1_048_576)
  {
    lines := ReadAll(input, 1_048_576);
  }

  /** "a", CR LF, "b", CR, "c", LF, LF, "d". */
  lemma ForExample()
    ensures Split([97, 13, 10, 98, 13, 99, 10, 10, 100]) == [[97], [98], [99], [], [100]]
  {
    hide Split, After, Clean;
    Step97();
    Step98();
    Step99([10, 100]);
    Step0([100]);
    assert [99, 10] + [10, 100] == [99, 10, 10, 100] && [10] + [100] == [10, 100];
    assert Split([100]) == [[100]] by { assert Clean([100]) by { IsClean(100); } LastLine([100]); }
    assert [[97]] + ([[98]] + ([[99]] + ([[]] + [[100]]))) == [[97], [98], [99], [], [100]];
  }

  lemma IsClean(b: Byte)
    requires b != LF && b != CR
    ensures Clean([b]) && Clean([])
  {
  }

  lemma Step97()
    ensures Split([97, 13, 10, 98, 13, 99, 10, 10, 100]) == [[97]] + Split([98, 13, 99, 10, 10, 100])
  {
    hide Split;
    FirstLine([97], CrLfEnd, [98, 13, 99, 10, 10, 100]);
    assert [97] + Bytes(CrLfEnd) + [98, 13, 99, 10, 10, 100] == [97, 13, 10, 98, 13, 99, 10, 10, 100];
  }

  lemma Step98()
    ensures Split([98, 13, 99, 10, 10, 100]) == [[98]] + Split([99, 10, 10, 100])
  {
    hide Split;
    FirstLine([98], CrEnd, [99, 10, 10, 100]);
    assert [98] + Bytes(CrEnd) + [99, 10, 10, 100] == [98, 13, 99, 10, 10, 100];
  }

  lemma Step99(more: Blob)
    ensures Split([99, 10] + more) == [[99]] + Split(more)
  {
    hide Split;
    FirstLine([99], LfEnd, more);
    assert [99] + Bytes(LfEnd) + more == [99, 10] + more;
  }

  lemma Step0(more: Blob)
    ensures Split([10] + more) == [[]] + Split(more)
  {
    hide Split;
    FirstLine([], LfEnd, more);
    assert [] + Bytes(LfEnd) + more == [10] + more;
  }

  // ---- printing lines and reading them back ----

  datatype Terminator = LfEnd | CrEnd | CrLfEnd

  datatype Item = Item(line: Blob, end: Terminator)

  function Bytes(t: Terminator): Blob {
    match t case LfEnd => [LF] case CrEnd => [CR] case CrLfEnd => [CR, LF]
  }

  predicate Clean(line: Blob) {
    forall i | 0 <= i < |line| :: !Ends(line[i])
  }

  predicate AllClean(items: seq<Item>) {
    forall i | 0 <= i < |items| :: Clean(items[i].line)
  }

  function Join(items: seq<Item>): Blob {
    if items == [] then [] else items[0].line + Bytes(items[0].end) + Join(items[1..])
  }

  function LinesOf(items: seq<Item>): seq<Blob> {
    if items == [] then [] else [items[0].line] + LinesOf(items[1..])
  }

  /** A CR and, after no text at all, an LF: on the wire one terminator. */
  predicate Fuses(a: Item, b: Item) {
    a.end == CrEnd && b.line == [] && b.end == LfEnd
  }

  function Merged(items: seq<Item>): seq<Blob> {
    if items == [] then []
    else if |items| > 1 && Fuses(items[0], items[1]) then [items[0].line] + Merged(items[2..])
    else [items[0].line] + Merged(items[1..])
  }

  lemma {:induction false} UptoClean(line: Blob, more: Blob)
    requires Clean(line) && (more == [] || Ends(more[0]))
    ensures Upto(line + more) == |line|
  {
    if line == [] {
      assert line + more == more;
    } else {
      assert (line + more)[1..] == line[1..] + more;
      UptoClean(line[1..], more);
    }
  }

  lemma StartsWith(items: seq<Item>, tail: Blob)
    requires AllClean(items) && Clean(tail)
    ensures var s := Join(items) + tail;
            s != [] && s[0] == LF <==> items != [] && items[0].line == [] && items[0].end == LfEnd
  {
    if items != [] {
      var s := Join(items) + tail;
      if items[0].line != [] { assert s[0] == items[0].line[0]; }
    }
  }

  lemma LastLine(tail: Blob)
    requires Clean(tail)
    ensures Split(tail) == if tail == [] then [] else [tail]
  {
    UptoClean(tail, []);
    assert tail + [] == tail;
    assert tail[..|tail|] == tail;
  }

  lemma JoinStep(items: seq<Item>, tail: Blob)
    requires items != []
    ensures Join(items) + tail == items[0].line + Bytes(items[0].end) + (Join(items[1..]) + tail)
  {
  }

  lemma BareLf(items: seq<Item>, tail: Blob)
    requires items != [] && items[0].line == [] && items[0].end == LfEnd
    ensures (Join(items) + tail)[0] == LF && (Join(items) + tail)[1..] == Join(items[1..]) + tail
  {
    assert Join(items) + tail == [LF] + (Join(items[1..]) + tail);
  }

  /** What comes back is the merged list, whatever the terminators and whether or not the
      stream ends in one. */
  lemma {:induction false} SplitJoin(items: seq<Item>, tail: Blob)
    requires AllClean(items) && Clean(tail)
    ensures Split(Join(items) + tail) == Merged(items) + if tail == [] then [] else [tail]
    decreases |items|
  {
    hide Split, Bytes;
    if items == [] {
      assert Join(items) + tail == tail;
      LastLine(tail);
    } else {
      var a := items[0];
      var more := Join(items[1..]) + tail;
      var s := Join(items) + tail;
      JoinStep(items, tail);
      FirstLine(a.line, a.end, more);
      StartsWith(items[1..], tail);
      if |items| > 1 && Fuses(a, items[1]) {
        BareLf(items[1..], tail);
        assert items[1..][1..] == items[2..];
        SplitJoin(items[2..], tail);
      } else {
        SplitJoin(items[1..], tail);
      }
    }
  }

  /** What follows a line and its terminator, but for the LF a lone CR swallows. */
  function After(end: Terminator, more: Blob): Blob {
    if end == CrEnd && more != [] && more[0] == LF then more[1..] else more
  }

  lemma FirstLine(line: Blob, end: Terminator, more: Blob)
    requires Clean(line)
    ensures Split(line + Bytes(end) + more) == [line] + Split(After(end, more))
  {
    hide After, Bytes, Rest, Upto, Ends;
    var s := line + Bytes(end) + more;
    var t := Bytes(end) + more;
    BytesEnd(end);
    assert s == line + t && t[0] == Bytes(end)[0];
    UptoClean(line, t);
    assert s[..|line|] == line;
    RestOfLine(line, end, more);
  }

  lemma BytesEnd(end: Terminator)
    ensures Bytes(end) != [] && Ends(Bytes(end)[0])
  {
  }

  lemma RestOfLine(line: Blob, end: Terminator, more: Blob)
    requires Upto(line + Bytes(end) + more) == |line|
    ensures Rest(line + Bytes(end) + more) == After(end, more)
  {
    hide Upto, Rest, Ends, After;
    var t := Bytes(end) + more;
    Regrouped(line, Bytes(end), more);
    RestThrough(line, t);
    Behind(Bytes(end), more);
    match end {
      case LfEnd => AfterLf(more);
      case CrEnd => AfterCr(more);
      case CrLfEnd => AfterCrLf(more);
    }
  }

  lemma Regrouped(a: Blob, b: Blob, c: Blob)
    ensures a + b + c == a + (b + c)
  {
  }

  lemma Behind(x: Blob, more: Blob)
    ensures (x + more)[|x|..] == more
    ensures forall i | 0 <= i < |x| :: (x + more)[i] == x[i]
    ensures more != [] ==> (x + more)[|x|] == more[0] && (x + more)[|x| + 1..] == more[1..]
  {
  }

  lemma AfterLf(more: Blob)
    ensures After(LfEnd, more) == more && LF != CR
  {
  }

  lemma AfterCr(more: Blob)
    ensures After(CrEnd, more) == if more != [] && more[0] == LF then more[1..] else more
  {
  }

  lemma AfterCrLf(more: Blob)
    ensures After(CrLfEnd, more) == more
  {
  }

  lemma RestThrough(line: Blob, t: Blob)
    requires t != [] && Upto(line + t) == |line|
    ensures Rest(line + t) == if t[0] == CR && |t| > 1 && t[1] == LF then t[2..] else t[1..]
  {
    hide Upto;
    var s := line + t;
    assert s[|line|] == t[0] && (|t| > 1 ==> s[|line| + 1] == t[1]);
    assert s[|line| + 1..] == t[1..];
    if |t| > 1 { assert s[|line| + 2..] == t[2..]; }
  }

  lemma {:induction false} MergedShrinks(items: seq<Item>)
    ensures |Merged(items)| <= |LinesOf(items)| == |items|
    ensures (exists i :: 0 <= i < |items| - 1 && Fuses(items[i], items[i + 1])) ==> |Merged(items)| < |items|
    ensures (forall i | 0 <= i < |items| - 1 :: !Fuses(items[i], items[i + 1])) ==> Merged(items) == LinesOf(items)
    decreases |items|
  {
    if items != [] {
      MergedShrinks(items[1..]);
      if |items| > 1 && Fuses(items[0], items[1]) {
        MergedShrinks(items[2..]);
        assert items[1..][1..] == items[2..];
      } else {
        forall i | 0 <= i < |items| - 1 && Fuses(items[i], items[i + 1])
          ensures Fuses(items[1..][i - 1], items[1..][i])
        {
        }
      }
    }
  }

  /** The lines come back exactly when no line ended by CR is followed by an empty line
      ended by LF. */
  lemma RoundTrip(items: seq<Item>)
    requires AllClean(items)
    ensures Split(Join(items)) == LinesOf(items) <==> forall i | 0 <= i < |items| - 1 :: !Fuses(items[i], items[i + 1])
  {
    SplitJoin(items, []);
    assert Join(items) + [] == Join(items);
    assert Merged(items) + [] == Merged(items);
    MergedShrinks(items);
  }
}
