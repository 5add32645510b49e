# Inflammation trial model

A Dafny model of the in-memory core of the `inflammation` package: a trial
holds a patients-by-days matrix of inflammation readings, reduces it per day
(mean, maximum, minimum over all patients), hands out single patients as
`Patient` values, and normalises every patient's readings by that patient's
own peak reading into a new matrix.

Layout, one module per source file plus the numpy reductions they share:

- `stats.dfy`, module `Stats`: the one-dimensional reductions numpy supplies
  (`Sum`, `Mean`, `Max`, `Min`) with their defining properties.
- `patient.dfy`, module `Patients`: `Patient` (`inflammation/patient.py`), a
  datatype, because the object is never updated after construction; its
  constructor `Patient(id, data)` stores both fields unchanged.
- `trial.dfy`, module `Trials`: the class `Trial` (`inflammation/trail.py`)
  with its mutable `data` field, which callers may reassign; the pure
  specification `Normalise` of `patient_normalise` and the method
  `Trial.PatientNormalise`, which fills a freshly allocated `array2<real>`
  and is proved equal to it.

Modelling decisions:

- Readings are `real`, not IEEE floats. The matrix is a `seq<seq<real>>`;
  numpy arrays are always rectangular, so the reductions and `GetPatient`
  take `Rectangular(data)` as a precondition, while `patient_normalise`'s own
  "must be 2-dimensional" check becomes the `NotTwoDimensional` error for a
  ragged sequence.
- The per-day reductions require at least one patient, and the Patient
  reductions at least one reading: `np.max`/`np.min` over an empty axis
  raise and `np.mean` yields NaN.
- `patient_normalise` checks, in the code's order: 2-D, then no negative
  reading, then (new in the model, from numpy's behaviour) that a matrix
  with patients has at least one day, because `np.nanmax(..., axis=1)` over
  rows of length 0 is a reduction over nothing and raises. A matrix with no
  patients is accepted and normalises to the empty matrix (numpy shape
  `(0, n)` with `n > 0`).
- The division step `data / max_data[:, np.newaxis]` followed by the two
  masked assignments is modelled entry by entry: `Divide` yields 0 where the
  row maximum is 0 (there 0/0 is NaN, which the NaN mask sets to 0, and a
  negative reading over 0 is -inf, which the negative mask sets to 0), and
  `ClampNegative` is the `< 0 -> 0` mask. `NormaliseRowSpec` proves that the
  mask never changes anything once negative readings are excluded.
- `get_patient` uses its argument both as the row index and as the new
  patient's id; the source comments about "the first row" and "id 0" do not
  describe the code, and the model follows the code.
- Normalisation only clamps negatives to 0 and never clips above 1, so the
  upper bound 1 is proved, not enforced. The reductions on a matrix without
  patients are preconditions, because numpy raises there (or, for the mean,
  yields NaN).

## Model

| member | source | states |
|---|---|---|
| `Stats.Max` | inflammation/patient.py:12-14 | no reading exceeds the maximum of a non-empty sequence |
| `Stats.Min` | inflammation/patient.py:16-18 | no reading is below the minimum of a non-empty sequence |
| `Stats.MaxIsReading` | inflammation/patient.py:12-14 | the maximum is one of the readings |
| `Stats.MinIsReading` | inflammation/patient.py:16-18 | the minimum is one of the readings |
| `Stats.MaxCharacterised` | inflammation/patient.py:12-14 | a reading that no reading exceeds is the maximum, so the maximum is determined by its two properties |
| `Stats.Mean` | inflammation/patient.py:8-10 | the mean times the number of readings is their sum, and it lies between minimum and maximum |
| `Stats.SumAtMost` | inflammation/patient.py:8-10 | a bound above every reading bounds the sum by the count times that bound |
| `Stats.SumAtLeast` | inflammation/patient.py:8-10 | a bound below every reading bounds the sum from below by the count times that bound |
| `Stats.MeanBounds` | inflammation/patient.py:8-18 | minimum <= sum / count <= maximum for every non-empty sequence |
| `Stats.SumOfZeros` | tests/test_trail.py:13-22 | readings that are all zero sum to zero |
| `Patients.Patient.DailyMean` | inflammation/patient.py:8-10 | the patient's mean times the number of days is the sum of the readings, and daily_min <= daily_mean <= daily_max |
| `Patients.Patient.DailyMax` | inflammation/patient.py:12-14 | the patient's maximum is one of its readings and no reading exceeds it |
| `Patients.Patient.DailyMin` | inflammation/patient.py:16-18 | the patient's minimum is one of its readings and no reading is below it |
| `Patients.OneTwoThree` | tests/test_patient.py:7-19 | Patient(1, [1, 2, 3]) has id 1, mean 2, max 3 and min 1 |
| `Trials.Trial.constructor` | inflammation/trail.py:6-8 | the new trial stores the given readings and id unchanged |
| `Trials.Trial.GetPatient` | inflammation/trail.py:19-21 | for a valid row index k the patient has id k, the readings of row k, and one reading per day |
| `Trials.Trial.DailyMean` | inflammation/trail.py:23-25 | one entry per day; entry j times the number of patients is the sum of day j's readings, and it lies between the day's minimum and maximum |
| `Trials.Trial.DailyMax` | inflammation/trail.py:28-30 | one entry per day; entry j is at least every patient's reading on day j and equals some patient's reading |
| `Trials.Trial.DailyMin` | inflammation/trail.py:32-34 | one entry per day; entry j is at most every patient's reading on day j and equals some patient's reading |
| `Trials.ColumnExtrema` | inflammation/trail.py:28-34 | each day's maximum and minimum bound that day's readings and are among them |
| `Trials.Divide` | inflammation/trail.py:46-48 | the division by the row's peak: for a non-zero peak the quotient times the peak gives the reading back; for a zero peak (every reading at most 0) the entry is 0, which the code reaches through the NaN mask for 0/0 and the negative mask for -inf |
| `Trials.ClampNegative` | inflammation/trail.py:48 | the final mask: a negative value becomes exactly 0 and a non-negative value passes through unchanged |
| `Trials.NormaliseRow` | inflammation/trail.py:44-48 | one patient's row, each reading divided by the row's `Max` and masked by `Divide` and `ClampNegative`: same length, no negative entry |
| `Trials.Normalise` | inflammation/trail.py:36-49 | the checks in the code's order (not 2-D, then a negative reading, then patients without days), then every row passed through `NormaliseRow`; a success comes only from a 2-D matrix without negative readings and has the input's shape |
| `Trials.Trial.PatientNormalise` | inflammation/trail.py:36-49 | fails exactly when `Normalise` fails, with the same error; otherwise returns a fresh array of the matrix's shape holding `Normalise`'s entries, leaving the stored readings unchanged |
| `Trials.NormaliseFailures` | inflammation/trail.py:39-44 | normalisation succeeds iff the matrix is 2-D, has no negative reading and gives patients at least one day; non-2-D input, then negative readings, then patients without days give their own errors, in that order |
| `Trials.NormaliseEntry` | inflammation/trail.py:46-48 | for 0 <= x <= peak the clamp leaves the quotient alone, the quotient is in [0, 1], is x / peak for a positive peak, 1 at the peak, and 0 for a zero peak |
| `Trials.NormaliseRowSpec` | inflammation/trail.py:44-48 | a non-negative row keeps its length, every entry is in [0, 1], a positive peak gives reading / peak with the peak position(s) at exactly 1, a zero peak gives all zeros |
| `Trials.NormaliseRowIdempotent` | inflammation/trail.py:44-48 | normalising a normalised row changes nothing |
| `Trials.NormaliseShapeAndRange` | inflammation/trail.py:44-49 | a successful result has the input's shape and every entry in [0, 1] |
| `Trials.NormaliseDividesByPeak` | inflammation/trail.py:44-46 | in a row with positive peak every entry is reading / peak and the peak position(s) are exactly 1 |
| `Trials.NormaliseZeroRow` | inflammation/trail.py:46-47 | an all-zero patient row stays all zero: the undefined 0/0 entries become exactly 0 |
| `Trials.NormaliseIdempotent` | inflammation/trail.py:44-49 | normalising the normalised matrix gives the same matrix again |
| `Trials.NonNegativeRow` | inflammation/trail.py:39-42 | every row of a matrix that normalises is non-empty and non-negative |
| `Trials.PatientWithinDailyRange` | inflammation/trail.py:19-34 | each patient's reading on each day lies between that day's minimum and maximum |
| `Trials.DailyStatisticsExample` | tests/test_trail.py:25-35 | [[1,2],[3,4],[5,6]] has daily mean [3,4], daily max [5,6], daily min [1,2] |
| `Trials.DailyMeanOfZeros` | tests/test_trail.py:13-22 | an all-zero matrix has an all-zero daily mean |
| `Trials.DailyMaxExamples` | tests/test_trail.py:38-48 | the three daily_max cases: all zeros, [[4,2,5],[1,6,2],[4,1,9]] -> [4,6,9], and mixed sign -> [4,-1,9] |
| `Trials.NormaliseExample` | inflammation/trail.py:36-49 | [[2,4],[0,0]] normalises to [[0.5,1],[0,0]] |

## Left out

- `inflammation/db.py` (`connect_to_database`, `query_database`): a wrapper
  around sqlite connection and cursor I/O; inflammation/db.py is not part of
  this model, and neither are its mock-based tests.
- `Trial.load_csv` / `Trial.from_csv`: file reading delegated to
  `np.loadtxt`, which is not visible here.
- IEEE floating point: NaN propagation, `np.nanmax` skipping NaN entries,
  infinities and `np.errstate`. Over reals the NaN replacement becomes the
  explicit "row maximum is 0 gives 0" case.
- The `isinstance(self.data, np.ndarray)` check (`TypeError`): the Dafny type
  of `data` already rules out anything that is not a matrix of readings.
- numpy's negative indices in `get_patient`: `GetPatient` takes
  `0 <= k < rows`.
- Integer arrays: numpy divides integer matrices into floats; readings are
  reals throughout.
- Update in place of the result buffer: the code divides into a new array and
  then overwrites masked entries; `PatientNormalise` writes each entry once,
  already masked, so the intermediate NaN matrix is not represented.
- Trial and patient identifiers are integers; the source accepts any value.
- Patients.Patient.DailyMean, Patients.Patient.DailyMax, Patients.Patient.DailyMin:
  require at least one reading; on an empty sequence `np.max`/`np.min` raise
  ValueError and `np.mean` returns NaN, and neither error path is modelled.
  `Trial.GetPatient` on a trial with no days yields such an empty patient.
- Trials.Trial.DailyMean, Trials.Trial.DailyMax, Trials.Trial.DailyMin:
  require at least one patient; `np.max`/`np.min` over an empty axis 0 raise
  and `np.mean` returns NaN columns, and neither path is modelled.
- Trials.Normalise on a matrix with no patients: a `seq` of no rows cannot
  tell numpy's shape `(0, 0)` from `(0, n)`. The model returns `Ok([])`, as
  `(0, n)` with `n > 0` does; for `(0, 0)` `np.nanmax(..., axis=1)` reduces
  over an empty axis and raises, which the model does not capture.
- Trials.Trial.GetPatient: the patient holds a copy of row k, whereas
  numpy's `self.data[patient_id, :]` is a view that aliases the trial's
  array, so later in-place writes to the trial's readings are not seen by
  the model's patient.
