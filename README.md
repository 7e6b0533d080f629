# WipeSure AI residue analyzer — verified model

This project models the residue analyzer service of WipeSure (`ai_service.py`).
The class `ResidueAnalyzer` turns an entropy score into a count of recoverable
files and a residue status label. The HTTP handlers `/analyze`, `/quick-scan`
and `/simulation/patterns` sit on top of it.

- `json.dfy`, module `Json`: the decoded request body as a JSON value, and the
  Python behaviours the handlers rely on. These are truthiness (`not job_id`),
  hashability (`hash(device_id)`), `dict.get`, and the exceptions that reach a
  handler's `except` clause.
- `residue.dfy`, module `Residue`: `calculate_entropy`, `detect_recoverable_files`,
  `determine_residue_status` and `analyze_device`, as pure functions. It also
  holds a reference definition of the four score bands (`BandOf`, `BandStatus`,
  `InFileRange`) that the lemmas relate the functions to.
- `service.dfy`, module `Service`: the `/analyze` and `/quick-scan` handlers as
  functions from the request body to a status code and a body. The
  `/simulation/patterns` handler is a method with a loop that appends one point
  per degree.

Randomness is passed in as parameters:

- A `random.uniform(a, b)` draw is a `real` parameter. A precondition gives its
  documented range `[a, b]`.
- A `random.randint(lo, hi)` draw and a `random.choice` draw are a raw `nat`.
  The model reduces it into range (`RandInt`, and `pick % 4`).
  `RandIntOnto` and `DetectReachesWholeBand` show that every value of the
  inclusive range can still occur.
- Python's `hash(device_id)` is a parameter `h` of any integer value, because
  Python salts it per process. `hash` raises `TypeError` for a list or a dict.
  The model keeps that error path.
- Python's `%` by a positive divisor never gives a negative result, and neither
  does Dafny's `%`. So `hash(device_id) % 100` is modelled as written.

Scores are `real`, because the rules only compare them against thresholds.

## Model

| member | source | states |
|---|---|---|
| `Residue.RandInt` | ai_service.py:31-35 | a `randint(lo, hi)` draw lies in the inclusive range `[lo, hi]` |
| `Residue.RandIntOnto` | ai_service.py:31-35 | every value of `[lo, hi]` is the result of some draw |
| `Residue.Round2` | ai_service.py:24 | `round(x, 2)` is a whole number of hundredths within half a hundredth of `x`: the nearest hundredth |
| `Residue.Round2Unique` | ai_service.py:24 | those two properties determine the rounded value: no other whole number of hundredths lies in `(x - 0.005, x + 0.005]` |
| `Residue.Round2Monotone` | ai_service.py:24 | rounding to hundredths preserves order |
| `Residue.DeviceFactor` | ai_service.py:21 | `hash(device_id) % 100 / 100.0` lies in `[0, 0.99]` for any hash value, negative ones included |
| `Residue.CalculateEntropy` | ai_service.py:15-24 | it fails exactly when the device id is unhashable; otherwise, for a base draw in `[95, 100]`, the score lies in `[95, 100]` and is never more than half a hundredth below the base draw. The score is the whole number of hundredths nearest to `min(100, base + hash % 100 / 100)`, so it depends on the device factor, the cap and the rounding |
| `Residue.DetectRecoverableFiles` | ai_service.py:26-35 | the count is exactly 0 at a score of 99.8 or above; it lies in `[0,2]` on `[99.0, 99.8)`, in `[2,10]` on `[95.0, 99.0)` and in `[10,50]` below 95.0 |
| `Residue.DetectReachesWholeBand` | ai_service.py:26-35 | each of those ranges is exact: every count in the band's range can be reported |
| `Residue.DetermineResidueStatus` | ai_service.py:37-46 | the label is one of the four statuses; it is CLEAN exactly when the score is at least 99.8 and no file is recoverable; it is MOSTLY_CLEAN exactly when the score is at least 99.0, at most 2 files are recoverable and it is not CLEAN; it is HIGH_RESIDUE exactly when the score is below 95.0 |
| `Residue.StatusMonotone` | ai_service.py:37-46 | a higher score with no more recoverable files never gets a less clean label |
| `Residue.StatusOfDetectedCount` | ai_service.py:26-46 | when the count comes from the detector, the status is decided by the score's band alone, for every draw |
| `Residue.AnalyzeDevice` | ai_service.py:48-76 | the result echoes `job_id` and `device_id`; its score is `calculate_entropy` of the device id and its count is the detector's count for that score; its status agrees with its own score and count and with the score's band; the score lies in `[95, 100]`, so the status is never HIGH_RESIDUE and at most 10 files are recoverable; it fails only for an unhashable device id |
| `Service.Analyze` | ai_service.py:89-113 | the code is 200, 400 or 500. It is 400, with the fixed message, exactly when the body is an object whose `job_id` or `device_id` is missing or falsy. It is 500 exactly when the body is not JSON, is not an object, or has a truthy `job_id` and a truthy but unhashable `device_id`. A 500 always carries the fixed payload: entropy 0.0, 999 files, status ERROR. A 200 carries exactly `analyze_device`'s result for the request's two ids and draws: it echoes both ids and carries a status consistent with its score and never HIGH_RESIDUE |
| `Service.AnalyzeRejectsBeforeDrawing` | ai_service.py:97-100 | a 400 reply is the same whatever the random draws, so no analysis takes place |
| `Service.QuickScan` | ai_service.py:115-138 | the code is 200 exactly when the body is an object whose `device_id` (default `"unknown"`) is hashable, and 500 otherwise. A 200 reports `calculate_entropy` of that device id and the detector's count for that score, progress 100 and time 0, a score in `[95, 100]`, the score's band status and at most 10 files. So it never reports HIGH_RESIDUE |
| `Service.QuickScanAgreesWithAnalyze` | ai_service.py:120-125 | given the same draws, `/quick-scan` reports the same score, count and status for a device as `/analyze` does |
| `Service.DataPatterns` | ai_service.py:140-162 | the list has exactly 360 points and `total_points` equals its length. Point `i` has angle `i` and its own distance, intensity and type draws. Every type is one of the four pattern types. Distances lie in `[0.1, 1.0]` and intensities in `[0, 100]` |

## Left out

- Flask plumbing: app setup, CORS, routing, `jsonify` and server start-up (ai_service.py:1-9, 164-167) are framework I/O. `request.get_json()` is reduced to "decodes to a JSON value, or raises".
- `time.sleep` and `time.time` (ai_service.py:51, 74) are wall-clock effects. The `timestamp` field is not modelled.
- The random decorative fields are not modelled: `analysis_details` and `confidence_level` (ai_service.py:59-65, 75). They follow no rule beyond their draw ranges.
- The text of the exception message (`str(e)` in ai_service.py:109, 137) is left out. The model records which exception was raised instead.
- Residue.Round2: ties are rounded upward on exact reals, which is what makes the lower bound `x - 0.005 < r` strict. Python's `round` works on binary doubles and rounds ties to even, where exact reals would give only `x - 0.005 <= r`. A value halfway between two hundredths is an odd multiple of 1/200. It is a binary double only when its numerator is a multiple of 25, that is, when it ends in .125, .375, .625 or .875. At .375 and .875 ties to even also rounds upward. At .125 and .625 Python gives 0.01 less than the model: `round(95.125, 2)` is 95.12 where `Round2` gives 95.13, and there only `x - 0.005 <= r` holds. The same goes for CalculateEntropy's lower bound `base - 0.005 < r`. No such tie lies next to 95.0, 99.0, 99.8 or 100.0, so no band, count range or status differs.
- Floating point is not modelled: scores are exact reals, and the literal 99.8 is taken as exactly 99.8.
- `entropy_threshold` (ai_service.py:13) is assigned and never read. It is not modelled, and so `ResidueAnalyzer` is not modelled as a class either.
- `/health` (ai_service.py:80-87) returns a constant body.
- Python's `hash` itself is not modelled. Its value for the device id is a parameter.
- The wipe engine, job tracking and certificates that the product advertises are not part of this model.
