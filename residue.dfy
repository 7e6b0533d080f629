/** The residue-classification rule of `ResidueAnalyzer`: an entropy score
    between 95 and 100, a count of recoverable files drawn from the score's
    band, and a status label decided by thresholds on both.

    Random draws are parameters. A `random.uniform` draw is a `real` with
    the documented range as a precondition; a `random.randint` draw is a raw
    `nat` that `RandInt` reduces into the inclusive range, so that every
    value of the range is reachable (`RandIntOnto`). */
module Residue {
  import opened Json

  const CLEAN := "CLEAN"
  const MOSTLY_CLEAN := "MOSTLY_CLEAN"
  const SOME_RESIDUE := "SOME_RESIDUE"
  const HIGH_RESIDUE := "HIGH_RESIDUE"
  const Statuses: set<string> := {CLEAN, MOSTLY_CLEAN, SOME_RESIDUE, HIGH_RESIDUE}

  // The score thresholds, and the range of the uniform base draw.
  const CLEAN_SCORE: real := 99.8
  const MOSTLY_CLEAN_SCORE: real := 99.0
  const RESIDUE_SCORE: real := 95.0
  const MAX_SCORE: real := 100.0

  /** The four score bands that decide both the file count and the status. */
  datatype Band = Pristine | Trace | Partial | Heavy

  function BandOf(score: real): Band {
    if score >= CLEAN_SCORE then Pristine
    else if score >= MOSTLY_CLEAN_SCORE then Trace
    else if score >= RESIDUE_SCORE then Partial
    else Heavy
  }

  /** The status a score's band stands for, as a reference for the status rule. */
  function BandStatus(b: Band): string {
    match b
    case Pristine => CLEAN
    case Trace => MOSTLY_CLEAN
    case Partial => SOME_RESIDUE
    case Heavy => HIGH_RESIDUE
  }

  /** The inclusive range of recoverable-file counts a band may report. */
  predicate InFileRange(b: Band, n: int) {
    match b
    case Pristine => n == 0
    case Trace => 0 <= n <= 2
    case Partial => 2 <= n <= 10
    case Heavy => 10 <= n <= 50
  }

  /** How clean a status label is: higher is cleaner. */
  function Cleanliness(status: string): nat {
    if status == CLEAN then 3
    else if status == MOSTLY_CLEAN then 2
    else if status == SOME_RESIDUE then 1
    else 0
  }

  /** `random.randint(lo, hi)`, given the generator's raw draw `u`. */
  function RandInt(lo: int, hi: int, u: nat): (r: int)
    requires lo <= hi
    ensures lo <= r <= hi
  {
    lo + u % (hi - lo + 1)
  }

  /** No value of the inclusive range is lost by modelling the draw as `u`. */
  lemma RandIntOnto(lo: int, hi: int, v: int)
    requires lo <= v <= hi
    ensures RandInt(lo, hi, v - lo) == v
  {
  }

  /** `x` is a whole number of hundredths. */
  predicate WholeHundredths(x: real) {
    (x * 100.0).Floor as real == x * 100.0
  }

  /** `round(x, 2)`: the nearest hundredth, ties taken upward. */
  function Round2(x: real): (r: real)
    ensures WholeHundredths(r)
    ensures x - 0.005 < r <= x + 0.005
  {
    var k := (x * 100.0 + 0.5).Floor;
    assert (k as real / 100.0) * 100.0 == k as real;
    k as real / 100.0
  }

  /** The two clauses of Round2's contract leave one result only: no other
      whole number of hundredths lies in `(x - 0.005, x + 0.005]`. */
  lemma Round2Unique(x: real, r: real)
    requires WholeHundredths(r)
    requires x - 0.005 < r <= x + 0.005
    ensures r == Round2(x)
  {
    var m := (r * 100.0).Floor;
    assert m as real == r * 100.0;
    assert x * 100.0 - 0.5 < m as real <= x * 100.0 + 0.5;
    assert m == (x * 100.0 + 0.5).Floor;
  }

  lemma Round2Monotone(x: real, y: real)
    requires x <= y
    ensures Round2(x) <= Round2(y)
  {
    var a, b := x * 100.0 + 0.5, y * 100.0 + 0.5;
    assert a <= b;
    assert a.Floor as real <= a && b < b.Floor as real + 1.0;
    assert a.Floor <= b.Floor;
  }

  /** The device-specific term `hash(device_id) % 100 / 100.0`, given the hash.
      Python's `%` by a positive divisor is never negative, as is Dafny's. */
  function DeviceFactor(h: int): (f: real)
    ensures 0.0 <= f <= 0.99
  {
    (h % 100) as real / 100.0
  }

  function Min(a: real, b: real): real {
    if a <= b then a else b
  }

  /** `calculate_entropy`: the base draw plus the device factor, capped at
      100 and rounded to hundredths. `hash` raises for a list or a dict. */
  function CalculateEntropy(deviceId: Json, base: real, h: int): (r: Result<real>)
    requires RESIDUE_SCORE <= base <= MAX_SCORE
    ensures r.Ok? <==> Hashable(deviceId)
    ensures r.Ok? ==> RESIDUE_SCORE <= r.value <= MAX_SCORE
    ensures r.Ok? ==> base - 0.005 < r.value
    ensures r.Ok? ==> WholeHundredths(r.value)
    ensures r.Ok? ==>
      var capped := Min(MAX_SCORE, base + DeviceFactor(h));
      capped - 0.005 < r.value <= capped + 0.005
  {
    if !Hashable(deviceId) then Err(Unhashable)
    else
      var capped := Min(MAX_SCORE, base + DeviceFactor(h));
      Round2Monotone(capped, MAX_SCORE);
      Round2Monotone(RESIDUE_SCORE, capped);
      Ok(Round2(capped))
  }

  /** `detect_recoverable_files`: none at or above 99.8, otherwise a
      `randint` draw from the band's inclusive range. */
  function DetectRecoverableFiles(score: real, u: nat): (r: int)
    ensures score >= CLEAN_SCORE ==> r == 0
    ensures MOSTLY_CLEAN_SCORE <= score < CLEAN_SCORE ==> 0 <= r <= 2
    ensures RESIDUE_SCORE <= score < MOSTLY_CLEAN_SCORE ==> 2 <= r <= 10
    ensures score < RESIDUE_SCORE ==> 10 <= r <= 50
  {
    if score >= CLEAN_SCORE then 0
    else if score >= MOSTLY_CLEAN_SCORE then RandInt(0, 2, u)
    else if score >= RESIDUE_SCORE then RandInt(2, 10, u)
    else RandInt(10, 50, u)
  }

  /** Every count in a band's range is one that the detector can report for
      a score in that band: the ranges above are exact, not just bounds. */
  lemma DetectReachesWholeBand(score: real, n: int)
    requires InFileRange(BandOf(score), n)
    ensures exists u: nat :: DetectRecoverableFiles(score, u) == n
  {
    var lo := match BandOf(score)
      case Pristine => 0
      case Trace => 0
      case Partial => 2
      case Heavy => 10;
    assert DetectRecoverableFiles(score, n - lo) == n;
  }

  /** `determine_residue_status`. */
  function DetermineResidueStatus(score: real, files: int): (r: string)
    ensures r in Statuses
    ensures r == CLEAN <==> score >= CLEAN_SCORE && files == 0
    ensures r == MOSTLY_CLEAN <==> MOSTLY_CLEAN_SCORE <= score && files <= 2 && !(score >= CLEAN_SCORE && files == 0)
    ensures r == HIGH_RESIDUE <==> score < RESIDUE_SCORE
  {
    if score >= CLEAN_SCORE && files == 0 then CLEAN
    else if score >= MOSTLY_CLEAN_SCORE && files <= 2 then MOSTLY_CLEAN
    else if score >= RESIDUE_SCORE then SOME_RESIDUE
    else HIGH_RESIDUE
  }

  /** A higher score with no more recoverable files never gets a worse label. */
  lemma StatusMonotone(score1: real, files1: int, score2: real, files2: int)
    requires score1 <= score2 && 0 <= files2 <= files1
    ensures Cleanliness(DetermineResidueStatus(score1, files1)) <= Cleanliness(DetermineResidueStatus(score2, files2))
  {
  }

  /** When the count comes from the detector, the status is that of the
      score's band, whatever the draw. */
  lemma StatusOfDetectedCount(score: real, u: nat)
    ensures DetermineResidueStatus(score, DetectRecoverableFiles(score, u)) == BandStatus(BandOf(score))
    ensures InFileRange(BandOf(score), DetectRecoverableFiles(score, u))
  {
  }

  /** The fields of `analyze_device`'s result that follow a rule; the random
      `analysis_details`, `timestamp` and `confidence_level` are not kept. */
  datatype Analysis = Analysis(
    jobId: Json,
    deviceId: Json,
    entropyScore: real,
    recoverableFiles: int,
    residueStatus: string)

  /** `analyze_device`: entropy, then the file count, then the status. */
  function AnalyzeDevice(jobId: Json, deviceId: Json, base: real, h: int, u: nat): (r: Result<Analysis>)
    requires RESIDUE_SCORE <= base <= MAX_SCORE
    ensures r.Ok? <==> Hashable(deviceId)
    ensures r.Err? ==> r.raised == Unhashable
    ensures r.Ok? ==> r.value.jobId == jobId && r.value.deviceId == deviceId
    ensures r.Ok? ==> CalculateEntropy(deviceId, base, h) == Ok(r.value.entropyScore)
    ensures r.Ok? ==> r.value.recoverableFiles == DetectRecoverableFiles(r.value.entropyScore, u)
    ensures r.Ok? ==> RESIDUE_SCORE <= r.value.entropyScore <= MAX_SCORE
    ensures r.Ok? ==> r.value.residueStatus == DetermineResidueStatus(r.value.entropyScore, r.value.recoverableFiles)
    ensures r.Ok? ==> r.value.residueStatus == BandStatus(BandOf(r.value.entropyScore))
    ensures r.Ok? ==> InFileRange(BandOf(r.value.entropyScore), r.value.recoverableFiles)
    ensures r.Ok? ==> r.value.residueStatus != HIGH_RESIDUE && 0 <= r.value.recoverableFiles <= 10
  {
    match CalculateEntropy(deviceId, base, h)
    case Err(e) => Err(e)
    case Ok(score) =>
      var files := DetectRecoverableFiles(score, u);
      StatusOfDetectedCount(score, u);
      Ok(Analysis(jobId, deviceId, score, files, DetermineResidueStatus(score, files)))
  }
}
