/** The capture generator and the scanner, one against the other. */
module WavGen {
  import opened Types
  import opened Wav
  import opened WavFile

  const PCM: nat := 1
  const CHANNELS: nat := 1
  const BITS: nat := 16

  function Truncated(x: real, y: real): nat
    requires x >= 0.0 && y >= 0.0
  {
    NotNegative(x, y);
    (x * y).Floor
  }

  lemma NotNegative(x: real, y: real)
    requires x >= 0.0 && y >= 0.0
    ensures (x * y).Floor >= 0
  {
  }

  /** How many bytes of silence: truncated, then padded to a word. */
  function DataLen(sampleRate: nat, seconds: real): nat
    requires seconds >= 0.0
  {
    Even(Truncated((2 * sampleRate) as real, seconds))
  }

  function FmtChunk(sampleRate: nat): Chunk {
    Chunk(FMT, Le16(PCM) + Le16(CHANNELS) + Le32(sampleRate) + Le32(2 * sampleRate) + Le16(2) + Le16(BITS), [])
  }

  function Silence(n: nat): (b: Blob)
    ensures |b| == n
  {
    seq(n, _ => 0)
  }

  function DataChunk(n: nat): Chunk {
    Chunk(DATA, Silence(n), [])
  }

  /** The file, field by field. */
  method Generate(sampleRate: nat, seconds: real) returns (buf: Blob)
    requires seconds >= 0.0
    ensures var n := DataLen(sampleRate, seconds);
            buf == File(36 + n, [FmtChunk(sampleRate), DataChunk(n)], [])
  {
    hide Le16, Le32, File, AllBytes, Bytes, FmtChunk, DataChunk, Truncated, Silence;
    var byteRate := sampleRate * CHANNELS * BITS / 8;
    assert byteRate == 2 * sampleRate;
    var dataLen := Truncated(byteRate as real, seconds);
    if dataLen % 2 == 1 { dataLen := dataLen + 1; }
    assert dataLen == DataLen(sampleRate, seconds);
    hide DataLen, Even;
    buf := [];
    buf := buf + RIFF;
    buf := buf + Le32(36 + dataLen);
    buf := buf + WAVE;
    buf := buf + FMT;
    buf := buf + Le32(16);
    buf := buf + Le16(PCM);
    buf := buf + Le16(CHANNELS);
    buf := buf + Le32(sampleRate);
    buf := buf + Le32(byteRate);
    buf := buf + Le16(CHANNELS * BITS / 8);
    buf := buf + Le16(BITS);
    buf := buf + DATA;
    buf := buf + Le32(dataLen);
    buf := buf + Silence(dataLen);
    Assembled(sampleRate, dataLen);
  }

  lemma Assembled(rate: nat, n: nat)
    ensures RIFF + Le32(36 + n) + WAVE + FMT + Le32(16) + Le16(PCM) + Le16(CHANNELS) + Le32(rate) + Le32(2 * rate)
            + Le16(2) + Le16(BITS) + DATA + Le32(n) + Silence(n)
         == File(36 + n, [FmtChunk(rate), DataChunk(n)], [])
  {
    hide Le16, Le32;
    var f, d := FmtChunk(rate), DataChunk(n);
    assert [f, d][1..] == [d] && [d][1..] == [];
    assert AllBytes([d]) == Bytes(d) + [];
    assert AllBytes([f, d]) == Bytes(f) + (Bytes(d) + []);
  }

  lemma FmtFields(rate: nat)
    ensures var f := FmtChunk(rate).body;
            |f| == 16 && U16(f, 2) == CHANNELS && U32(f, 4) == rate % WORD
            && U32(f, 8) == 2 * rate % WORD && U16(f, 14) == BITS
  {
    hide Le32, U32;
    var f := FmtChunk(rate).body;
    assert f[4..8] == Le32(rate) && f[8..12] == Le32(2 * rate);
    U32OfLe32(rate, f, 4);
    U32OfLe32(2 * rate, f, 8);
    assert f[2..4] == Le16(CHANNELS) && f[14..16] == Le16(BITS);
    U16OfLe16(CHANNELS, f, 2);
    U16OfLe16(BITS, f, 14);
  }

  /** What the scanner makes of a generated file that is not too large for it. */
  lemma GeneratedJudged(rate: nat, n: nat)
    requires n % 2 == 0 && 44 + n <= MAX_SIZE
    ensures Verdicted(File(36 + n, [FmtChunk(rate), DataChunk(n)], []))
         == Judged(Seen(true, true, rate % WORD, CHANNELS, BITS, 2 * rate % WORD, n, 44), 44 + n)
  {
    hide Le16, Le32, U16, U32, Verdicted, Judged;
    var f, d := FmtChunk(rate), DataChunk(n);
    FmtFields(rate);
    assert [f] + [d] + [] == [f, d];
    assert [f][..0] == [] && [f][0] == f;
    assert HasFmt([f]) && LastFmt([f]) == f;
    assert FMT != DATA;
    FileLength(rate, n);
    ScannerReadsChunks(36 + n, [f], d, [], []);
  }

  lemma FileLength(rate: nat, n: nat)
    ensures |AllBytes([FmtChunk(rate)])| == 24
    ensures |File(36 + n, [FmtChunk(rate), DataChunk(n)], [])| == 44 + n
  {
    var f, d := FmtChunk(rate), DataChunk(n);
    assert [f, d][1..] == [d] && [d][1..] == [] && [f][1..] == [];
    assert |AllBytes([d])| == 8 + n;
  }

  lemma TwiceWraps(rate: nat)
    requires rate % WORD == RATE
    ensures 2 * rate % WORD == 2 * RATE
  {
    var q := rate / WORD;
    assert rate == WORD * q + RATE;
    Remainder(2 * rate, 2 * q, 2 * RATE);
  }

  /** The scanner accepts what the generator writes exactly when the rate the header can
      hold is the required one and the bytes are 30 seconds to 20 minutes of it. */
  lemma GeneratedAccepted(rate: nat, seconds: real)
    requires seconds >= 0.0
    ensures var n := DataLen(rate, seconds);
            Verdicted(File(36 + n, [FmtChunk(rate), DataChunk(n)], [])).Accepted?
            <==> rate % WORD == RATE && MIN_SECONDS * 2 * RATE <= n <= MAX_SECONDS * 2 * RATE
  {
    hide Verdicted, FmtChunk, DataChunk, File, AllBytes;
    var n := DataLen(rate, seconds);
    FileLength(rate, n);
    if 44 + n > MAX_SIZE {
      TooLong(File(36 + n, [FmtChunk(rate), DataChunk(n)], []));
    } else {
      assert n % 2 == 0;
      GeneratedJudged(rate, n);
      if rate % WORD == RATE { TwiceWraps(rate); }
    }
  }

  lemma TooLong(b: Blob)
    requires |b| > MAX_SIZE
    ensures Verdicted(b) == Refused(TooLarge)
  {
  }

  /** The smallest capture the daemon accepts: 48 kHz, mono, 16 bits, exactly 30 seconds. */
  lemma ValidCapture()
    ensures DataLen(48_000, 30.0) == 2_880_000
    ensures Verdicted(File(2_880_036, [FmtChunk(48_000), DataChunk(2_880_000)], []))
         == Accepted(Info(48_000, 1, 16, 30.0, 2_880_000))
  {
    hide FmtChunk, DataChunk, File, AllBytes, Verdicted;
    Product();
    GeneratedJudged(48_000, 2_880_000);
  }

  lemma Product()
    ensures Truncated((2 * 48_000) as real, 30.0) == 2_880_000
  {
    assert (2 * 48_000) as real * 30.0 == 2_880_000.0;
  }

  /** Its bytes, as the format lays them out: names as letters, numbers lowest byte
      first, then silence. */
  lemma HeaderBytes()
    ensures File(2_880_036, [FmtChunk(48_000), DataChunk(2_880_000)], [])
         == [0x52, 0x49, 0x46, 0x46] + [0x24, 0xF2, 0x2B, 0x00] + [0x57, 0x41, 0x56, 0x45]
            + [0x66, 0x6D, 0x74, 0x20] + [0x10, 0x00, 0x00, 0x00] + [0x01, 0x00] + [0x01, 0x00]
            + [0x80, 0xBB, 0x00, 0x00] + [0x00, 0x77, 0x01, 0x00] + [0x02, 0x00] + [0x10, 0x00]
            + [0x64, 0x61, 0x74, 0x61] + [0x00, 0xF2, 0x2B, 0x00] + seq(2_880_000, _ => 0)
  {
    hide File, FmtChunk, DataChunk, AllBytes, Bytes;
    Assembled(48_000, 2_880_000);
    LittleEnds();
    hide Le16, Le32;
  }

  lemma LittleEnds()
    ensures Le32(2_880_036) == [0x24, 0xF2, 0x2B, 0x00] && Le32(16) == [0x10, 0x00, 0x00, 0x00]
    ensures Le32(48_000) == [0x80, 0xBB, 0x00, 0x00] && Le32(96_000) == [0x00, 0x77, 0x01, 0x00]
    ensures Le32(2_880_000) == [0x00, 0xF2, 0x2B, 0x00]
    ensures Le16(1) == [0x01, 0x00] && Le16(2) == [0x02, 0x00] && Le16(16) == [0x10, 0x00]
  {
  }

  /** At 48 kHz: from 30 seconds, less the half sample the padding makes up, to 20 minutes. */
  lemma GeneratedInSeconds(seconds: real)
    requires seconds >= 0.0
    ensures MIN_SECONDS * 2 * RATE <= DataLen(RATE, seconds) <= MAX_SECONDS * 2 * RATE
            <==> (MIN_SECONDS * 2 * RATE - 1) as real <= 96000.0 * seconds < (MAX_SECONDS * 2 * RATE + 1) as real
  {
    var x := (2 * RATE) as real * seconds;
    assert x == 96000.0 * seconds && Truncated((2 * RATE) as real, seconds) == x.Floor;
  }

  // ---- what acceptance means, byte by byte ----

  /** Some fmt chunk in the file says what was seen. */
  ghost predicate FmtIn(b: Blob, s: Seen) {
    exists f: nat :: FmtAt(b, s, f)
  }

  predicate FmtAt(b: Blob, s: Seen, f: nat) {
    && f + 24 <= |b| && IdAt(b, f, FMT)
    && s.channels == U16(b, f + 10) && s.rate == U32(b, f + 12) && s.byteRate == U32(b, f + 16)
    && s.bits == U16(b, f + 22)
  }

  /** Some data chunk in the file is where it was seen. */
  ghost predicate DataIn(b: Blob, s: Seen) {
    s.dataAt >= 8 && s.dataAt <= |b| && IdAt(b, s.dataAt - 8, DATA) && s.dataBytes == U32(b, s.dataAt - 4)
  }

  lemma {:induction false} WalkFinds(b: Blob, off: nat, s: Seen)
    requires (s.haveFmt ==> FmtIn(b, s)) && (s.haveData ==> DataIn(b, s))
    ensures Walk(b, off, s).Some? ==>
              var r := Walk(b, off, s).value; (r.haveFmt ==> FmtIn(b, r)) && (r.haveData ==> DataIn(b, r))
    decreases |b| - off
  {
    if off + 8 <= |b| && !(IdAt(b, off, FMT) && off + 24 > |b|) {
      NotedIn(b, off, s);
      hide Noted, FmtIn, DataIn, U32;
      var s' := Noted(b, off, s);
      var next := off + 8 + Even(U32(b, off + 4));
      if !(s'.haveFmt && s'.haveData) && next <= |b| { WalkFinds(b, next, s'); }
    }
  }

  lemma NotedIn(b: Blob, off: nat, s: Seen)
    requires off + 8 <= |b| && (IdAt(b, off, FMT) ==> off + 24 <= |b|)
    requires (s.haveFmt ==> FmtIn(b, s)) && (s.haveData ==> DataIn(b, s))
    ensures var s' := Noted(b, off, s); (s'.haveFmt ==> FmtIn(b, s')) && (s'.haveData ==> DataIn(b, s'))
  {
    hide U16, U32;
    var s' := Noted(b, off, s);
    if IdAt(b, off, FMT) {
      assert FMT != DATA;
      assert FmtAt(b, s', off);
    } else if s.haveFmt {
      var f: nat :| FmtAt(b, s, f);
      assert FmtAt(b, s', f);
    }
  }

  /** An accepted file is no larger than allowed, holds a 48 kHz fmt chunk and a data chunk
      all of whose declared bytes are there, and those bytes are 30 seconds to 20 minutes of
      that fmt's byte rate. */
  lemma AcceptedMeans(b: Blob) returns (f: nat, d: nat)
    requires Verdicted(b).Accepted?
    ensures 44 <= |b| <= 209_715_200 && b[..4] == RIFF && b[8..12] == WAVE
    ensures f + 24 <= |b| && IdAt(b, f, FMT) && U32(b, f + 12) == 48_000
    ensures d + 8 <= |b| && IdAt(b, d, DATA) && d + 8 + U32(b, d + 4) <= |b|
    ensures U32(b, f + 16) > 0 && 30 * U32(b, f + 16) <= U32(b, d + 4) <= 1200 * U32(b, f + 16)
    ensures Verdicted(b).info == Info(48_000, U16(b, f + 10), U16(b, f + 22),
                                      U32(b, d + 4) as real / U32(b, f + 16) as real, U32(b, d + 4))
  {
    hide Walk, U32, U16;
    WalkFinds(b, 12, NOTHING);
    var s := Walk(b, 12, NOTHING).value;
    f :| FmtAt(b, s, f);
    d := s.dataAt - 8;
  }

  /** Why a file is turned away: its size, its name, a fmt that does not fit, the chunks it
      lacks, data it only claims, and only then what the fmt says. */
  lemma WhyRefused(b: Blob)
    ensures var v := Verdicted(b);
            && (v == Refused(TooLarge) <==> |b| > 209_715_200)
            && (v == Refused(TooShort) <==> |b| < 44)
            && (v == Refused(NotRiff) <==>
                  44 <= |b| <= 209_715_200
                  && !(b[..4] == [0x52, 0x49, 0x46, 0x46] && b[8..12] == [0x57, 0x41, 0x56, 0x45]))
            && (v == Refused(TruncatedFmt) ==> Walk(b, 12, NOTHING).None?)
            && (v == Refused(MissingFmt) ==> !Walk(b, 12, NOTHING).value.haveFmt)
            && (v == Refused(MissingData) ==> !Walk(b, 12, NOTHING).value.haveData)
            && (v == Refused(TruncatedData) ==>
                  var s := Walk(b, 12, NOTHING).value; s.haveData && s.dataAt + s.dataBytes > |b|)
            && (v == Refused(WrongRate) ==>
                  var s := Walk(b, 12, NOTHING).value; s.dataAt + s.dataBytes <= |b| && s.rate != 48_000)
            && (v == Refused(ZeroByteRate) ==>
                  var s := Walk(b, 12, NOTHING).value;
                  s.dataAt + s.dataBytes <= |b| && s.rate == 48_000 && s.byteRate == 0)
            && (v == Refused(BadDuration) ==>
                  var s := Walk(b, 12, NOTHING).value;
                  && s.dataAt + s.dataBytes <= |b| && s.rate == 48_000 && s.byteRate > 0
                  && !(30 * s.byteRate <= s.dataBytes <= 1200 * s.byteRate))
  {
    hide Walk, U32, U16;
  }

  lemma {:induction false} AllBytesAppend(a: seq<Chunk>, c: seq<Chunk>)
    ensures |AllBytes(a + c)| == |AllBytes(a)| + |AllBytes(c)|
  {
    hide Bytes;
    if a == [] {
      assert a + c == c;
    } else {
      assert (a + c)[1..] == a[1..] + c;
      AllBytesAppend(a[1..], c);
    }
  }

  lemma FileHolds(declared: nat, pre: seq<Chunk>, data: Chunk, post: seq<Chunk>, tail: Blob)
    requires WellFormed(data)
    ensures 12 + |AllBytes(pre)| + 8 + |data.body| <= |File(declared, pre + [data] + post, tail)|
  {
    assert pre + [data] + post == pre + ([data] + post);
    AllBytesAppend(pre, [data] + post);
    AllBytesAppend([data], post);
    assert AllBytes([data]) == Bytes(data) + [];
    hide AllBytes, Le32;
  }

  /** Any list of well-formed chunks with a fmt before the first data is accepted if and
      only if its size fits, the last such fmt says 48 kHz, and the data is 30 to 1200 times the
      byte rate it says; and what is reported is what that fmt says. */
  lemma ChunksAccepted(declared: nat, pre: seq<Chunk>, data: Chunk, post: seq<Chunk>, tail: Blob)
    requires AllWellFormed(pre) && NoData(pre) && HasFmt(pre)
    requires WellFormed(data) && data.id == DATA && AllWellFormed(post)
    requires |File(declared, pre + [data] + post, tail)| <= MAX_SIZE
    ensures LastFmt(pre) in pre
    ensures var b := File(declared, pre + [data] + post, tail);
            var f := LastFmt(pre).body;
            && |f| >= 16
            && (Verdicted(b).Accepted? <==>
                  && 44 <= |b| && U32(f, 4) == 48_000 && U32(f, 8) > 0
                  && 30 * U32(f, 8) <= |data.body| <= 1200 * U32(f, 8))
            && (Verdicted(b).Accepted? ==>
                  Verdicted(b).info
                  == Info(48_000, U16(f, 2), U16(f, 14), |data.body| as real / U32(f, 8) as real, |data.body|))
  {
    hide File, AllBytes, Verdicted, U16, U32;
    assert WellFormed(LastFmt(pre)) by { ScannedPre(pre, [data] + post); }
    ScannerReadsChunks(declared, pre, data, post, tail);
    FileHolds(declared, pre, data, post, tail);
  }
}
