/** The HTTP handlers built on the analyzer: `/analyze`, `/quick-scan` and
    `/simulation/patterns`. A request body is `Some(json)` when
    `request.get_json()` decodes it and `None` when that call raises; the
    random draws of each handler are parameters, as in module Residue. */
module Service {
  import opened Json
  import opened Residue

  /** A handler's answer: the HTTP status code and the JSON body. */
  datatype Reply<B> = Reply(code: int, body: B)

  const MISSING_PARAMETERS := "Missing required parameters: job_id and device_id"
  const ERROR_STATUS := "ERROR"
  const ERROR_SCORE: real := 0.0
  const ERROR_FILES := 999

  /** The bodies `/analyze` answers with. `AnalysisFailed` keeps the kind of
      exception in place of its message text. */
  datatype AnalyzeBody =
    | Report(analysis: Analysis)
    | MissingParameters(error: string)
    | AnalysisFailed(raised: Raised, entropyScore: real, recoverableFiles: int, residueStatus: string)

  /** The fixed payload of the `except` clause of `/analyze`. */
  function AnalyzeFallback(e: Raised): Reply<AnalyzeBody> {
    Reply(500, AnalysisFailed(e, ERROR_SCORE, ERROR_FILES, ERROR_STATUS))
  }

  /** `/analyze` rejects a body that lacks a truthy `job_id` or `device_id`. */
  predicate MissesParameters(fields: map<string, Json>) {
    !Truthy(Get(fields, "job_id", JNull)) || !Truthy(Get(fields, "device_id", JNull))
  }

  /** `analyze_residue`: check both parameters, then analyze the device. */
  function Analyze(request: Option<Json>, base: real, h: int, u: nat): (r: Reply<AnalyzeBody>)
    requires RESIDUE_SCORE <= base <= MAX_SCORE
    ensures r.code in {200, 400, 500}
    ensures r.code == 200 <==> r.body.Report?
    ensures r.code == 400 <==> r.body.MissingParameters?
    ensures r.code == 400 <==> request.Some? && request.value.JObj? && MissesParameters(request.value.fields)
    ensures r.code == 400 ==> r.body.error == MISSING_PARAMETERS
    ensures r.code == 500 ==> r == AnalyzeFallback(r.body.raised)
    ensures r.code == 500 <==>
      request.None? || !request.value.JObj? ||
      (!MissesParameters(request.value.fields) && !Hashable(request.value.fields["device_id"]))
    ensures r.code == 200 ==>
      AnalyzeDevice(request.value.fields["job_id"], request.value.fields["device_id"], base, h, u) == Ok(r.body.analysis)
    ensures r.code == 200 ==>
      r.body.analysis.jobId == request.value.fields["job_id"] &&
      r.body.analysis.deviceId == request.value.fields["device_id"] &&
      r.body.analysis.residueStatus == BandStatus(BandOf(r.body.analysis.entropyScore)) &&
      r.body.analysis.residueStatus != HIGH_RESIDUE
  {
    match request
    case None => AnalyzeFallback(NotJson)
    case Some(data) =>
      if !data.JObj? then AnalyzeFallback(NoGetMethod)
      else
        var jobId := Get(data.fields, "job_id", JNull);
        var deviceId := Get(data.fields, "device_id", JNull);
        if !Truthy(jobId) || !Truthy(deviceId) then
          Reply(400, MissingParameters(MISSING_PARAMETERS))
        else
          match AnalyzeDevice(jobId, deviceId, base, h, u)
          case Err(e) => AnalyzeFallback(e)
          case Ok(a) => Reply(200, Report(a))
  }

  /** A request without both parameters is answered before any draw is
      used: the reply is the same whatever the draws. */
  lemma AnalyzeRejectsBeforeDrawing(request: Option<Json>, base1: real, h1: int, u1: nat, base2: real, h2: int, u2: nat)
    requires RESIDUE_SCORE <= base1 <= MAX_SCORE && RESIDUE_SCORE <= base2 <= MAX_SCORE
    requires Analyze(request, base1, h1, u1).code == 400
    ensures Analyze(request, base2, h2, u2) == Analyze(request, base1, h1, u1)
  {
  }

  /** The bodies `/quick-scan` answers with. */
  datatype ScanBody =
    | Scan(entropyScore: real, recoverableFiles: int, residueStatus: string, scanProgress: int, estimatedTime: int)
    | ScanFailed(raised: Raised)

  /** The device id `/quick-scan` analyzes: `data.get('device_id', 'unknown')`. */
  function ScanDeviceId(fields: map<string, Json>): Json {
    Get(fields, "device_id", JStr("unknown"))
  }

  /** `quick_scan`: entropy, file count and status, with no parameter check. */
  function QuickScan(request: Option<Json>, base: real, h: int, u: nat): (r: Reply<ScanBody>)
    requires RESIDUE_SCORE <= base <= MAX_SCORE
    ensures r.code in {200, 500}
    ensures r.code == 200 <==> r.body.Scan?
    ensures r.code == 200 <==> request.Some? && request.value.JObj? && Hashable(ScanDeviceId(request.value.fields))
    ensures r.code == 200 ==>
      CalculateEntropy(ScanDeviceId(request.value.fields), base, h) == Ok(r.body.entropyScore) &&
      r.body.recoverableFiles == DetectRecoverableFiles(r.body.entropyScore, u)
    ensures r.code == 200 ==>
      r.body.scanProgress == 100 && r.body.estimatedTime == 0 &&
      RESIDUE_SCORE <= r.body.entropyScore <= MAX_SCORE &&
      r.body.residueStatus == BandStatus(BandOf(r.body.entropyScore)) &&
      r.body.residueStatus in {CLEAN, MOSTLY_CLEAN, SOME_RESIDUE} &&
      0 <= r.body.recoverableFiles <= 10
  {
    match request
    case None => Reply(500, ScanFailed(NotJson))
    case Some(data) =>
      if !data.JObj? then Reply(500, ScanFailed(NoGetMethod))
      else
        var deviceId := ScanDeviceId(data.fields);
        match CalculateEntropy(deviceId, base, h)
        case Err(e) => Reply(500, ScanFailed(e))
        case Ok(entropy) =>
          var recoverable := DetectRecoverableFiles(entropy, u);
          StatusOfDetectedCount(entropy, u);
          Reply(200, Scan(entropy, recoverable, DetermineResidueStatus(entropy, recoverable), 100, 0))
  }

  /** Given the same draws, `/quick-scan` reports for a device what
      `/analyze` reports for it: both endpoints apply one rule. */
  lemma QuickScanAgreesWithAnalyze(jobId: Json, deviceId: Json, base: real, h: int, u: nat)
    requires RESIDUE_SCORE <= base <= MAX_SCORE
    requires Truthy(jobId) && Truthy(deviceId) && Hashable(deviceId)
    ensures
      var a := Analyze(Some(JObj(map["job_id" := jobId, "device_id" := deviceId])), base, h, u);
      var q := QuickScan(Some(JObj(map["device_id" := deviceId])), base, h, u);
      a.code == 200 && q.code == 200 &&
      a.body.analysis.entropyScore == q.body.entropyScore &&
      a.body.analysis.recoverableFiles == q.body.recoverableFiles &&
      a.body.analysis.residueStatus == q.body.residueStatus
  {
  }

  const PATTERN_TYPES: seq<string> := ["deleted_file", "metadata", "free_space", "encrypted"]
  const PATTERN_POINTS := 360
  const SCAN_RADIUS: real := 1.0

  datatype PatternPoint = PatternPoint(angle: int, distance: real, intensity: real, patternType: string)

  datatype PatternsBody = PatternsBody(patterns: seq<PatternPoint>, scanRadius: real, totalPoints: int)

  /** The point drawn for angle `i`: `random.choice` picks the type with `pick`. */
  function PointAt(i: int, distance: real, intensity: real, pick: nat): PatternPoint {
    PatternPoint(i, distance, intensity, PATTERN_TYPES[pick % |PATTERN_TYPES|])
  }

  /** `get_data_patterns`: one point per degree, appended in order. The
      draws of `random.uniform(0.1, 1.0)`, `random.uniform(0, 100)` and
      `random.choice` for degree `i` are `distances[i]`, `intensities[i]`
      and `picks[i]`. */
  method DataPatterns(distances: seq<real>, intensities: seq<real>, picks: seq<nat>) returns (r: PatternsBody)
    requires |distances| == |intensities| == |picks| == PATTERN_POINTS
    requires forall i :: 0 <= i < |distances| ==> 0.1 <= distances[i] <= 1.0
    requires forall i :: 0 <= i < |intensities| ==> 0.0 <= intensities[i] <= 100.0
    ensures |r.patterns| == PATTERN_POINTS && r.totalPoints == |r.patterns|
    ensures r.scanRadius == SCAN_RADIUS
    ensures forall i :: 0 <= i < |r.patterns| ==> r.patterns[i] == PointAt(i, distances[i], intensities[i], picks[i])
    ensures forall p :: p in r.patterns ==>
      0 <= p.angle < PATTERN_POINTS && p.patternType in PATTERN_TYPES &&
      0.1 <= p.distance <= 1.0 && 0.0 <= p.intensity <= 100.0
  {
    var patterns: seq<PatternPoint> := [];
    for i := 0 to PATTERN_POINTS
      invariant |patterns| == i
      invariant forall k :: 0 <= k < i ==> patterns[k] == PointAt(k, distances[k], intensities[k], picks[k])
    {
      patterns := patterns + [PointAt(i, distances[i], intensities[i], picks[i])];
    }
    r := PatternsBody(patterns, SCAN_RADIUS, |patterns|);
  }
}
