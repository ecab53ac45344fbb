/** The capture's header: a RIFF/WAVE chunk scanner with its constraints ("Multimedia
    Programming Interface and Data Specifications 1.0", chapters 2 and 3). */
module Wav {
  import opened Types

  const RATE: nat := 48000
  const MIN_SECONDS: nat := 30
  const MAX_SECONDS: nat := 1200
  const MAX_SIZE: nat := 200 * 1024 * 1024
  const WORD: nat := 0x1_0000_0000

  const RIFF: Blob := [0x52, 0x49, 0x46, 0x46]
  const WAVE: Blob := [0x57, 0x41, 0x56, 0x45]
  const FMT: Blob := [0x66, 0x6d, 0x74, 0x20]
  const DATA: Blob := [0x64, 0x61, 0x74, 0x61]

  datatype Info = Info(sampleRate: nat, channels: nat, bits: nat, duration: real, dataBytes: nat)

  datatype Refusal =
    | TooLarge | TooShort | NotRiff | TruncatedFmt | MissingFmt | MissingData
    | TruncatedData | WrongRate | ZeroByteRate | BadDuration

  datatype Verdict = Accepted(info: Info) | Refused(why: Refusal)

  function U16(b: Blob, at: nat): (n: nat)
    requires at + 2 <= |b|
    ensures n < 0x1_0000
  {
    b[at] as nat + 0x100 * b[at + 1] as nat
  }

  function U32(b: Blob, at: nat): (n: nat)
    requires at + 4 <= |b|
    ensures n < WORD
  {
    b[at] as nat + 0x100 * b[at + 1] as nat + 0x1_0000 * b[at + 2] as nat + 0x100_0000 * b[at + 3] as nat
  }

  // ---- the scan ----

  /** What the scan has seen: the last fmt chunk and the last data chunk so far. */
  datatype Seen = Seen(
    haveFmt: bool, haveData: bool,
    rate: nat, channels: nat, bits: nat, byteRate: nat,
    dataBytes: nat, dataAt: nat)

  const NOTHING := Seen(false, false, 0, 0, 0, 0, 0, 0)

  predicate IdAt(b: Blob, off: nat, id: Blob) {
    off + 4 <= |b| && b[off..off + 4] == id
  }

  function Even(n: nat): nat { n + n % 2 }

  /** One chunk header at off, noted. */
  function Noted(b: Blob, off: nat, s: Seen): Seen
    requires off + 8 <= |b|
    requires IdAt(b, off, FMT) ==> off + 24 <= |b|
  {
    if IdAt(b, off, FMT) then
      s.(haveFmt := true, channels := U16(b, off + 10), rate := U32(b, off + 12),
         byteRate := U32(b, off + 16), bits := U16(b, off + 22))
    else if IdAt(b, off, DATA) then s.(haveData := true, dataBytes := U32(b, off + 4), dataAt := off + 8)
    else s
  }

  /** The rest of the scan from off; None is a truncated fmt chunk. */
  function Walk(b: Blob, off: nat, s: Seen): Option<Seen>
    decreases |b| - off
  {
    if off + 8 > |b| then Some(s)
    else if IdAt(b, off, FMT) && off + 24 > |b| then None
    else
      var s' := Noted(b, off, s);
      var next := off + 8 + Even(U32(b, off + 4));
      if s'.haveFmt && s'.haveData then Some(s')
      else if next > |b| then Some(s')
      else Walk(b, next, s')
  }

  function Seconds(bytes: nat, byteRate: nat): real
    requires byteRate > 0
  {
    bytes as real / byteRate as real
  }

  /** What is decided about what was seen in a file of `size` bytes. */
  function Judged(s: Seen, size: nat): Verdict {
    if !s.haveFmt then Refused(MissingFmt)
    else if !s.haveData then Refused(MissingData)
    else if s.dataAt + s.dataBytes > size then Refused(TruncatedData)
    else if s.rate != RATE then Refused(WrongRate)
    else if s.byteRate == 0 then Refused(ZeroByteRate)
    else if s.dataBytes < MIN_SECONDS * s.byteRate || s.dataBytes > MAX_SECONDS * s.byteRate then Refused(BadDuration)
    else Accepted(Info(s.rate, s.channels, s.bits, Seconds(s.dataBytes, s.byteRate), s.dataBytes))
  }

  function Verdicted(b: Blob): Verdict {
    if |b| > MAX_SIZE then Refused(TooLarge)
    else if |b| < 44 then Refused(TooShort)
    else if b[..4] != RIFF || b[8..12] != WAVE then Refused(NotRiff)
    else
      var w := Walk(b, 12, NOTHING);
      if w.None? then Refused(TruncatedFmt) else Judged(w.value, |b|)
  }

  /** Reads every chunk header in turn, and never a byte outside the file. */
  method Validate(b: Blob) returns (v: Verdict)
    ensures v == Verdicted(b)
  {
    hide U16, U32, Seconds;
    if |b| > MAX_SIZE { return Refused(TooLarge); }
    if |b| < 44 { return Refused(TooShort); }
    if b[..4] != RIFF || b[8..12] != WAVE { return Refused(NotRiff); }
    var haveFmt, haveData := false, false;
    var rate: nat, channels: nat, bits: nat := 0, 0, 0;
    var byteRate: nat, dataBytes: nat, dataAt: nat := 0, 0, 0;
    var off := 12;
    while off + 8 <= |b|
      invariant Walk(b, 12, NOTHING)
                == Walk(b, off, Seen(haveFmt, haveData, rate, channels, bits, byteRate, dataBytes, dataAt))
      invariant !(haveFmt && haveData)
      decreases |b| - off
    {
      var id := b[off..off + 4];
      var size := U32(b, off + 4);
      var body := off + 8;
      if id == FMT {
        if body + 16 > |b| { return Refused(TruncatedFmt); }
        channels := U16(b, body + 2);
        rate := U32(b, body + 4);
        byteRate := U32(b, body + 8);
        bits := U16(b, body + 14);
        haveFmt := true;
      } else if id == DATA {
        dataBytes := size;
        dataAt := body;
        haveData := true;
      }
      if haveFmt && haveData { break; }
      var adv := size;
      if adv % 2 == 1 { adv := adv + 1; }
      var next := body + adv;
      if next <= off || next > |b| { break; }
      off := next;
    }
    if !haveFmt { return Refused(MissingFmt); }
    if !haveData { return Refused(MissingData); }
    if dataBytes > |b| - dataAt { return Refused(TruncatedData); }
    if rate != RATE { return Refused(WrongRate); }
    if byteRate == 0 { return Refused(ZeroByteRate); }
    if dataBytes < MIN_SECONDS * byteRate || dataBytes > MAX_SECONDS * byteRate { return Refused(BadDuration); }
    return Accepted(Info(rate, channels, bits, Seconds(dataBytes, byteRate), dataBytes));
  }
}
