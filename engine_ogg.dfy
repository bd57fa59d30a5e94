/** The Ogg/Opus duration estimate of the event bridge
    (bot/engine/engine_unified.go, `analyzeOggOpus`): it walks the Ogg pages,
    remembers the last non-zero granule position and turns it into whole
    seconds at 48 kHz, clamped to 1..300, with 30 s when no granule is found.

    Go lets a slice expression reach up to the capacity of the underlying
    array, not only its length; the capacity of the input is therefore a
    parameter, and a page slice beyond it is the `Overrun` outcome (a run-time
    panic in Go). */
module EngineOgg {
  import opened Text

  const OggMagic: seq<byte> := [0x4F, 0x67, 0x67, 0x53]
  const SampleRate: nat := 48000
  const HeaderLen: nat := 27

  /** `binary.LittleEndian` value of a byte string. */
  function LittleEndian(b: seq<byte>): nat {
    if |b| == 0 then 0 else b[0] as nat + 256 * LittleEndian(b[1..])
  }

  /** Sum of the segment table: the body size of a page. */
  function SegmentSum(s: seq<byte>): nat {
    if |s| == 0 then 0 else SegmentSum(s[..|s| - 1]) + s[|s| - 1] as nat
  }

  datatype ScanOutcome = Overrun | Scanned(lastGranule: nat)

  /** The page walk from offset `i` with the last non-zero granule `last`. */
  function ScanPages(data: seq<byte>, capacity: nat, i: nat, last: nat): ScanOutcome
    decreases |data| - i
  {
    if i + HeaderLen >= |data| then Scanned(last)
    else if data[i..i + 4] != OggMagic then ScanPages(data, capacity, i + 1, last)
    else
      var gran := LittleEndian(data[i + 6..i + 14]);
      var numSeg := data[i + 26] as nat;
      if i + HeaderLen + numSeg >= |data| then Scanned(last)
      else
        var pageSize := HeaderLen + numSeg + SegmentSum(data[i + HeaderLen..i + HeaderLen + numSeg]);
        if i + pageSize > capacity then Overrun
        else ScanPages(data, capacity, i + pageSize, if gran != 0 then gran else last)
  }

  function CeilDiv(a: nat, b: nat): nat
    requires b > 0
  {
    (a + b - 1) / b
  }

  /** Whole seconds of audio for a final granule position. */
  function DurationOf(granule: nat): (d: nat)
    ensures 1 <= d <= 300
    ensures granule == 0 ==> d == 30
    ensures granule > 0 ==> (d == 300 || d * SampleRate >= granule)
    ensures granule > 0 ==> (d == 1 || (d - 1) * SampleRate < granule)
  {
    if granule == 0 then 30
    else
      // the lower clamp to one second is implied: the ceiling of a positive
      // quotient is at least one
      var c := CeilDiv(granule, SampleRate);
      if c > 300 then 300 else c
  }

  datatype OggResult = NotOgg | PagePanic | Duration(seconds: nat)

  /** Reference semantics of `analyzeOggOpus` (the waveform is not modelled). */
  function OggAnalysis(data: seq<byte>, capacity: nat): OggResult {
    if |data| < 4 || data[..4] != OggMagic then NotOgg
    else match ScanPages(data, capacity, 0, 0)
      case Overrun => PagePanic
      case Scanned(g) => Duration(DurationOf(g))
  }

  /** The inner loop of `analyzeOggOpus`: the sum of the `n` lacing values
      of the segment table starting at `start`. */
  method SumSegments(data: seq<byte>, start: nat, n: nat) returns (sum: nat)
    requires start + n <= |data|
    ensures sum == SegmentSum(data[start..start + n])
  {
    sum := 0;
    var k := 0;
    while k < n
      invariant 0 <= k <= n
      invariant sum == SegmentSum(data[start..start + k])
    {
      assert data[start..start + k + 1][..k] == data[start..start + k];
      sum := sum + data[start + k] as nat;
      k := k + 1;
    }
  }

  /** `analyzeOggOpus`, loop for loop. */
  method AnalyzeOggOpus(data: seq<byte>, capacity: nat) returns (r: OggResult)
    requires capacity >= |data|
    ensures r == OggAnalysis(data, capacity)
  {
    if |data| < 4 || data[..4] != OggMagic {
      return NotOgg;
    }
    var lastGranule: nat := 0;
    var i: nat := 0;
    while i < |data|
      invariant ScanPages(data, capacity, i, lastGranule) == ScanPages(data, capacity, 0, 0)
      decreases |data| - i
    {
      if i + HeaderLen >= |data| {
        break;
      }
      if data[i..i + 4] != OggMagic {
        i := i + 1;
        continue;
      }
      var gran := LittleEndian(data[i + 6..i + 14]);
      var numSeg := data[i + 26] as nat;
      if i + HeaderLen + numSeg >= |data| {
        break;
      }
      var body := SumSegments(data, i + HeaderLen, numSeg);
      var pageSize := HeaderLen + numSeg + body;
      if i + pageSize > capacity {
        return PagePanic;
      }
      if gran != 0 {
        lastGranule := gran;
      }
      i := i + pageSize;
    }
    r := Duration(DurationOf(lastGranule));
  }

  /** Input that is too short or lacks the capture pattern is rejected. */
  lemma RejectsNonOgg(data: seq<byte>, capacity: nat)
    ensures OggAnalysis(data, capacity) == NotOgg <==> (|data| < 4 || data[..4] != OggMagic)
  {
  }

  /** Without any complete page the estimate is the 30 s default. */
  lemma DefaultDuration(data: seq<byte>, capacity: nat)
    requires |data| >= 4 && data[..4] == OggMagic && |data| <= HeaderLen
    ensures OggAnalysis(data, capacity) == Duration(30)
  {
  }

  /** A 29-byte stream whose only page announces one 255-byte segment. */
  function TruncatedPage(): seq<byte> {
    OggMagic + seq(22, _ => 0 as byte) + [1 as byte, 255 as byte, 0 as byte]
  }

  /** As written, a truncated last page is sliced past the end of a buffer
      whose capacity equals its length: `analyzeOggOpus` panics instead of
      returning an error or an estimate. */
  lemma TruncatedPageOverruns()
    ensures OggAnalysis(TruncatedPage(), |TruncatedPage()|) == PagePanic
  {
    var d := TruncatedPage();
    assert |d| == 29;
    assert d[..4] == OggMagic;
    assert d[0..4] == OggMagic;
    assert d[26] == 1;
    assert d[27..28] == [255 as byte];
    assert SegmentSum(d[27..28]) == 255 by {
      assert d[27..28][..0] == [];
    }
  }

  /** The evidently intended walk: a page that does not fit in the data ends
      the scan, like the other truncation checks. */
  function ScanPagesChecked(data: seq<byte>, i: nat, last: nat): nat
    decreases |data| - i
  {
    if i + HeaderLen >= |data| then last
    else if data[i..i + 4] != OggMagic then ScanPagesChecked(data, i + 1, last)
    else
      var gran := LittleEndian(data[i + 6..i + 14]);
      var numSeg := data[i + 26] as nat;
      if i + HeaderLen + numSeg >= |data| then last
      else
        var pageSize := HeaderLen + numSeg + SegmentSum(data[i + HeaderLen..i + HeaderLen + numSeg]);
        if i + pageSize > |data| then last
        else ScanPagesChecked(data, i + pageSize, if gran != 0 then gran else last)
  }

  function OggAnalysisChecked(data: seq<byte>): (r: OggResult)
    ensures r != PagePanic
  {
    if |data| < 4 || data[..4] != OggMagic then NotOgg
    else Duration(DurationOf(ScanPagesChecked(data, 0, 0)))
  }

  /** The checked walk agrees with the code as written on every input where
      the latter does not overrun, and it yields 1..300 seconds on every Ogg
      input. */
  lemma {:induction false} CheckedAgreesWhenNoOverrun(data: seq<byte>, capacity: nat, i: nat, last: nat)
    requires capacity == |data|
    requires ScanPages(data, capacity, i, last).Scanned?
    ensures ScanPages(data, capacity, i, last).lastGranule == ScanPagesChecked(data, i, last)
    decreases |data| - i
  {
    if i + HeaderLen >= |data| {
    } else if data[i..i + 4] != OggMagic {
      CheckedAgreesWhenNoOverrun(data, capacity, i + 1, last);
    } else {
      var gran := LittleEndian(data[i + 6..i + 14]);
      var numSeg := data[i + 26] as nat;
      if i + HeaderLen + numSeg < |data| {
        var pageSize := HeaderLen + numSeg + SegmentSum(data[i + HeaderLen..i + HeaderLen + numSeg]);
        CheckedAgreesWhenNoOverrun(data, capacity, i + pageSize, if gran != 0 then gran else last);
      }
    }
  }

  lemma CheckedIsOgg(data: seq<byte>)
    requires |data| >= 4 && data[..4] == OggMagic
    ensures OggAnalysisChecked(data).Duration?
    ensures 1 <= OggAnalysisChecked(data).seconds <= 300
  {
  }
}
