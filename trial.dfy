/** An inflammation trial: a patients-by-days matrix of readings with a trial
    identifier. The per-day statistics reduce over the patients (numpy's
    axis 0); normalisation scales every patient's row by that patient's own
    peak reading and returns a new matrix. */
module Trials {
  import opened Stats
  import opened Patients

  datatype Result<T, E> = Ok(value: T) | Err(error: E)

  /** The three ways normalisation fails: the readings do not form a 2-D
      matrix, a reading is negative, or a patient has no days, so that the
      per-row maximum is a reduction over nothing. */
  datatype NormaliseError = NotTwoDimensional | NegativeValue | ZeroSizeReduction

  type Matrix = seq<seq<real>>

  /** Every patient has as many days as the first one: the matrix is 2-D. */
  predicate Rectangular(m: Matrix)
  {
    forall i :: 0 <= i < |m| ==> |m[i]| == |m[0]|
  }

  /** Number of days (columns); a matrix with no patients is taken to have
      no days. */
  function Days(m: Matrix): (days: nat)
  {
    if |m| == 0 then 0 else |m[0]|
  }

  /** The readings of day j, one per patient. */
  function Column(m: Matrix, j: nat): (column: seq<real>)
    requires Rectangular(m) && j < Days(m)
  {
    seq(|m|, i requires 0 <= i < |m| => m[i][j])
  }

  /** Some reading anywhere in the matrix is below zero. */
  predicate HasNegative(m: Matrix)
  {
    exists i, j :: 0 <= i < |m| && 0 <= j < |m[i]| && m[i][j] < 0.0
  }

  /** Element-wise division by the row maximum, with the zero-peak case
      already masked. A zero peak means every reading of the row is at most 0:
      0/0 is NaN, which the NaN mask sets to 0, and a negative reading over 0
      is -inf, which the negative mask sets to 0; either way the entry is 0. */
  function Divide(x: real, peak: real): (q: real)
    ensures peak != 0.0 ==> q * peak == x
    ensures peak == 0.0 ==> q == 0.0
  {
    if peak == 0.0 then 0.0 else x / peak
  }

  /** The final mask: a negative quotient becomes 0. */
  function ClampNegative(x: real): (y: real)
    ensures 0.0 <= y
    ensures 0.0 <= x ==> y == x
    ensures x < 0.0 ==> y == 0.0
  {
    if x < 0.0 then 0.0 else x
  }

  /** One patient's readings scaled by that patient's peak reading. */
  function NormaliseRow(row: seq<real>): (normalised: seq<real>)
    requires |row| > 0
    ensures |normalised| == |row|
    ensures forall j :: 0 <= j < |row| ==> 0.0 <= normalised[j]
  {
    var peak := Max(row);
    seq(|row|, j requires 0 <= j < |row| => ClampNegative(Divide(row[j], peak)))
  }

  /** Per-patient normalisation of a whole matrix, with the checks in the
      order the implementation makes them. */
  function Normalise(m: Matrix): (r: Result<Matrix, NormaliseError>)
    ensures r.Ok? ==> Rectangular(m) && !HasNegative(m)
    ensures r.Ok? ==> |r.value| == |m| && forall i :: 0 <= i < |m| ==> |r.value[i]| == |m[i]|
  {
    if !Rectangular(m) then Err(NotTwoDimensional)
    else if HasNegative(m) then Err(NegativeValue)
    else if |m| > 0 && Days(m) == 0 then Err(ZeroSizeReduction)
    else Ok(seq(|m|, i requires 0 <= i < |m| => NormaliseRow(m[i])))
  }

  class Trial {
    var data: Matrix
    var id: int

    constructor (data: Matrix, id: int)
      ensures this.data == data && this.id == id
    {
      this.data := data;
      this.id := id;
    }

    /** Row patientId as a Patient whose id is that same index. */
    function GetPatient(patientId: int): (p: Patient)
      reads this
      requires Rectangular(data)
      requires 0 <= patientId < |data|
      ensures p.id == patientId
      ensures p.data == data[patientId]
      ensures |p.data| == Days(data)
    {
      Patient(patientId, data[patientId])
    }

    /** Per day, the mean over all patients. */
    function DailyMean(): (r: seq<real>)
      reads this
      requires Rectangular(data) && |data| > 0
      ensures |r| == Days(data)
      ensures forall j :: 0 <= j < |r| ==> r[j] * |data| as real == Sum(Column(data, j))
      ensures forall j :: 0 <= j < |r| ==> DailyMin()[j] <= r[j] <= DailyMax()[j]
    {
      var m := data;  // a value copy, so the lambda below reads no heap
      seq(Days(m), j requires 0 <= j < Days(m) => Mean(Column(m, j)))
    }

    /** Per day, the highest reading of any patient: no patient's reading that
        day exceeds it, and some patient's reading equals it. */
    function DailyMax(): (r: seq<real>)
      reads this
      requires Rectangular(data) && |data| > 0
      ensures |r| == Days(data)
      ensures forall j, i :: 0 <= j < |r| && 0 <= i < |data| ==> data[i][j] <= r[j]
      ensures forall j :: 0 <= j < |r| ==> exists i :: 0 <= i < |data| && data[i][j] == r[j]
    {
      var m := data;
      ColumnExtrema(m);
      seq(Days(m), j requires 0 <= j < Days(m) => Max(Column(m, j)))
    }

    /** Per day, the lowest reading of any patient: no patient's reading that
        day is below it, and some patient's reading equals it. */
    function DailyMin(): (r: seq<real>)
      reads this
      requires Rectangular(data) && |data| > 0
      ensures |r| == Days(data)
      ensures forall j, i :: 0 <= j < |r| && 0 <= i < |data| ==> r[j] <= data[i][j]
      ensures forall j :: 0 <= j < |r| ==> exists i :: 0 <= i < |data| && data[i][j] == r[j]
    {
      var m := data;
      ColumnExtrema(m);
      seq(Days(m), j requires 0 <= j < Days(m) => Min(Column(m, j)))
    }

    /** Normalises the trial's readings into a freshly allocated array; the
        stored readings are left as they are. */
    method PatientNormalise() returns (r: Result<array2<real>, NormaliseError>)
      ensures r.Err? <==> Normalise(data).Err?
      ensures r.Err? ==> r.error == Normalise(data).error
      ensures r.Ok? ==> fresh(r.value)
      ensures r.Ok? ==> r.value.Length0 == |data| && r.value.Length1 == Days(data)
      ensures r.Ok? ==> forall i, j :: 0 <= i < r.value.Length0 && 0 <= j < r.value.Length1 ==>
                          r.value[i, j] == Normalise(data).value[i][j]
    {
      var m := data;
      if !Rectangular(m) {
        return Err(NotTwoDimensional);
      }
      if HasNegative(m) {
        return Err(NegativeValue);
      }
      var rows, days := |m|, Days(m);
      if rows > 0 && days == 0 {
        return Err(ZeroSizeReduction);
      }
      // the per-patient maxima (one reduction per row)
      var peaks := seq(rows, i requires 0 <= i < rows => Max(m[i]));
      var normalised := new real[rows, days];
      var i := 0;
      while i < rows
        invariant 0 <= i <= rows
        invariant forall a, b :: 0 <= a < i && 0 <= b < days ==> normalised[a, b] == NormaliseRow(m[a])[b]
      {
        var j := 0;
        while j < days
          invariant 0 <= j <= days
          invariant forall a, b :: 0 <= a < i && 0 <= b < days ==> normalised[a, b] == NormaliseRow(m[a])[b]
          invariant forall b :: 0 <= b < j ==> normalised[i, b] == NormaliseRow(m[i])[b]
        {
          normalised[i, j] := ClampNegative(Divide(m[i][j], peaks[i]));
          j := j + 1;
        }
        i := i + 1;
      }
      return Ok(normalised);
    }
  }

  /** Every day's maximum and minimum over the patients bound that day's
      readings and are among them. */
  lemma ColumnExtrema(m: Matrix)
    requires Rectangular(m) && |m| > 0
    ensures forall j, i :: 0 <= j < Days(m) && 0 <= i < |m| ==>
              Min(Column(m, j)) <= m[i][j] <= Max(Column(m, j))
    ensures forall j :: 0 <= j < Days(m) ==> Max(Column(m, j)) in Column(m, j)
    ensures forall j :: 0 <= j < Days(m) ==> Min(Column(m, j)) in Column(m, j)
  {
    forall j | 0 <= j < Days(m)
      ensures forall i :: 0 <= i < |m| ==> Min(Column(m, j)) <= m[i][j] <= Max(Column(m, j))
      ensures Max(Column(m, j)) in Column(m, j) && Min(Column(m, j)) in Column(m, j)
    {
      var c := Column(m, j);
      assert forall i :: 0 <= i < |m| ==> c[i] == m[i][j];
      MaxIsReading(c);
      MinIsReading(c);
    }
  }

  /** A reading between 0 and a positive peak divides to a quotient in
      [0, 1]. */
  lemma UnitQuotient(x: real, peak: real)
    requires 0.0 <= x <= peak && peak > 0.0
    ensures 0.0 <= x / peak <= 1.0
  {
  }

  /** One normalised entry: the reading x of a row whose peak is p, with
      0 <= x <= p. */
  lemma NormaliseEntry(x: real, p: real)
    requires 0.0 <= x <= p
    ensures ClampNegative(Divide(x, p)) == Divide(x, p)
    ensures 0.0 <= Divide(x, p) <= 1.0
    ensures p > 0.0 ==> Divide(x, p) == x / p
    ensures p > 0.0 && x == p ==> Divide(x, p) == 1.0
    ensures p == 0.0 ==> Divide(x, p) == 0.0
  {
    if p > 0.0 {
      UnitQuotient(x, p);
    }
  }

  /** Normalising one row of non-negative readings whose peak is Max(row):
      the negative clamp never fires, every entry lies in [0, 1]; a positive peak turns each reading
      into reading / peak and the peak itself into exactly 1; a zero peak
      gives an all-zero row. */
  lemma NormaliseRowSpec(row: seq<real>)
    requires |row| > 0 && forall j :: 0 <= j < |row| ==> 0.0 <= row[j]
    ensures |NormaliseRow(row)| == |row|
    ensures forall j :: 0 <= j < |row| ==> NormaliseRow(row)[j] == Divide(row[j], Max(row))
    ensures forall j :: 0 <= j < |row| ==> 0.0 <= NormaliseRow(row)[j] <= 1.0
    ensures Max(row) > 0.0 ==> forall j :: 0 <= j < |row| ==> NormaliseRow(row)[j] == row[j] / Max(row)
    ensures Max(row) > 0.0 ==> forall j :: 0 <= j < |row| && row[j] == Max(row) ==> NormaliseRow(row)[j] == 1.0
    ensures Max(row) == 0.0 ==> forall j :: 0 <= j < |row| ==> NormaliseRow(row)[j] == 0.0
  {
    var peak, n := Max(row), NormaliseRow(row);
    forall j | 0 <= j < |row|
      ensures n[j] == Divide(row[j], peak)
      ensures 0.0 <= n[j] <= 1.0
      ensures peak > 0.0 ==> n[j] == row[j] / peak
      ensures peak > 0.0 && row[j] == peak ==> n[j] == 1.0
      ensures peak == 0.0 ==> n[j] == 0.0
    {
      NormaliseEntry(row[j], peak);
      assert n[j] == Divide(row[j], peak);
    }
  }

  /** Normalising an already normalised row changes nothing: its peak is 1
      (or it is all zeros). */
  lemma NormaliseRowIdempotent(row: seq<real>)
    requires |row| > 0 && forall j :: 0 <= j < |row| ==> 0.0 <= row[j]
    ensures NormaliseRow(NormaliseRow(row)) == NormaliseRow(row)
  {
    var n := NormaliseRow(row);
    NormaliseRowSpec(row);
    MaxIsReading(row);
    var k :| 0 <= k < |row| && row[k] == Max(row);
    if Max(row) > 0.0 {
      assert n[k] == 1.0;
      MaxCharacterised(n, 1.0);
    } else {
      assert n[0] == 0.0;
      MaxCharacterised(n, 0.0);
    }
    NormaliseRowSpec(n);
  }

  /** Normalisation fails exactly when the readings are not 2-D, contain a
      negative reading, or give a patient no days; the first failing check
      names the error. */
  lemma NormaliseFailures(m: Matrix)
    ensures Normalise(m).Ok? <==> Rectangular(m) && !HasNegative(m) && (|m| == 0 || Days(m) > 0)
    ensures !Rectangular(m) ==> Normalise(m) == Err(NotTwoDimensional)
    ensures Rectangular(m) && HasNegative(m) ==> Normalise(m) == Err(NegativeValue)
    ensures Rectangular(m) && !HasNegative(m) && |m| > 0 && Days(m) == 0 ==>
              Normalise(m) == Err(ZeroSizeReduction)
  {
  }

  /** A successful normalisation keeps the shape of the matrix and puts every
      entry in [0, 1]. */
  lemma NormaliseShapeAndRange(m: Matrix)
    requires Normalise(m).Ok?
    ensures |Normalise(m).value| == |m|
    ensures Rectangular(Normalise(m).value) && Days(Normalise(m).value) == Days(m)
    ensures forall i, j :: 0 <= i < |m| && 0 <= j < Days(m) ==> 0.0 <= Normalise(m).value[i][j] <= 1.0
  {
    var r := Normalise(m).value;
    forall i | 0 <= i < |m|
      ensures |r[i]| == Days(m)
      ensures forall j :: 0 <= j < Days(m) ==> 0.0 <= r[i][j] <= 1.0
    {
      NonNegativeRow(m, i);
      NormaliseRowSpec(m[i]);
    }
  }

  /** Row i of a successful normalisation is row i divided by its peak, and
      the peak position(s) become exactly 1. */
  lemma NormaliseDividesByPeak(m: Matrix, i: nat)
    requires Normalise(m).Ok? && i < |m|
    ensures Max(m[i]) > 0.0 ==>
              forall j :: 0 <= j < |m[i]| ==> Normalise(m).value[i][j] == m[i][j] / Max(m[i])
    ensures Max(m[i]) > 0.0 ==>
              forall j :: 0 <= j < |m[i]| && m[i][j] == Max(m[i]) ==> Normalise(m).value[i][j] == 1.0
  {
    NonNegativeRow(m, i);
    NormaliseRowSpec(m[i]);
  }

  /** A patient whose readings are all zero stays all zero: the undefined
      0/0 quotients come out as exactly 0. */
  lemma NormaliseZeroRow(m: Matrix, i: nat)
    requires Normalise(m).Ok? && i < |m|
    requires forall j :: 0 <= j < |m[i]| ==> m[i][j] == 0.0
    ensures Normalise(m).value[i] == m[i]
  {
    NonNegativeRow(m, i);
    assert m[i][0] == 0.0;
    MaxCharacterised(m[i], 0.0);
    NormaliseRowSpec(m[i]);
  }

  /** Normalising a normalised matrix gives it back unchanged. */
  lemma NormaliseIdempotent(m: Matrix)
    requires Normalise(m).Ok?
    ensures Normalise(Normalise(m).value) == Normalise(m)
  {
    var r := Normalise(m).value;
    NormaliseShapeAndRange(m);
    assert !HasNegative(r);
    forall i | 0 <= i < |r|
      ensures NormaliseRow(r[i]) == r[i]
    {
      NonNegativeRow(m, i);
      NormaliseRowIdempotent(m[i]);
    }
    assert Normalise(r).value == r;
  }

  /** Every row of a matrix that normalises successfully is non-empty and
      non-negative. */
  lemma NonNegativeRow(m: Matrix, i: nat)
    requires Normalise(m).Ok? && i < |m|
    ensures |m[i]| > 0
    ensures forall j :: 0 <= j < |m[i]| ==> 0.0 <= m[i][j]
  {
  }

  /** Each patient's reading on day j lies between that day's minimum and
      maximum over the trial. */
  lemma PatientWithinDailyRange(t: Trial, k: nat)
    requires Rectangular(t.data) && k < |t.data|
    ensures forall j :: 0 <= j < Days(t.data) ==>
              t.DailyMin()[j] <= t.GetPatient(k).data[j] <= t.DailyMax()[j]
  {
  }

  /** The trial of the per-day mean tests: [[1, 2], [3, 4], [5, 6]]. */
  lemma DailyStatisticsExample(t: Trial)
    requires t.data == [[1.0, 2.0], [3.0, 4.0], [5.0, 6.0]]
    ensures t.DailyMean() == [3.0, 4.0]
    ensures t.DailyMax() == [5.0, 6.0]
    ensures t.DailyMin() == [1.0, 2.0]
  {
    var m := t.data;
    var c0, c1 := Column(m, 0), Column(m, 1);
    assert c0 == [1.0, 3.0, 5.0] && c1 == [2.0, 4.0, 6.0];
    assert c0[1..] == [3.0, 5.0] && c0[1..][1..] == [5.0];
    assert c1[1..] == [4.0, 6.0] && c1[1..][1..] == [6.0];
    assert Sum(c0[1..][1..]) == 5.0 && Sum(c1[1..][1..]) == 6.0;
    assert Sum(c0[1..]) == 8.0 && Sum(c1[1..]) == 10.0;
    assert Sum(c0) == 9.0 && Sum(c1) == 12.0;
  }

  /** A trial whose readings are all zero has an all-zero daily mean. */
  lemma DailyMeanOfZeros(t: Trial)
    requires Rectangular(t.data) && |t.data| > 0
    requires forall i, j :: 0 <= i < |t.data| && 0 <= j < |t.data[i]| ==> t.data[i][j] == 0.0
    ensures forall j :: 0 <= j < Days(t.data) ==> t.DailyMean()[j] == 0.0
  {
    forall j | 0 <= j < Days(t.data)
      ensures t.DailyMean()[j] == 0.0
    {
      SumOfZeros(Column(t.data, j));
    }
  }

  /** The three per-day maximum cases: all zeros, positive readings, and
      readings of mixed sign. */
  lemma DailyMaxExamples(t: Trial)
    ensures t.data == [[0.0, 0.0, 0.0], [0.0, 0.0, 0.0], [0.0, 0.0, 0.0]] ==>
              t.DailyMax() == [0.0, 0.0, 0.0]
    ensures t.data == [[4.0, 2.0, 5.0], [1.0, 6.0, 2.0], [4.0, 1.0, 9.0]] ==>
              t.DailyMax() == [4.0, 6.0, 9.0]
    ensures t.data == [[4.0, -2.0, 5.0], [1.0, -6.0, 2.0], [-4.0, -1.0, 9.0]] ==>
              t.DailyMax() == [4.0, -1.0, 9.0]
  {
    var m := t.data;
    if |m| == 3 && Rectangular(m) && Days(m) == 3 {
      forall j | 0 <= j < 3
        ensures Column(m, j)[1..][1..] == [m[2][j]]
        ensures Column(m, j)[1..] == [m[1][j], m[2][j]]
      {
      }
    }
  }

  /** A patient with readings 2 and 4 and a patient with no inflammation. */
  lemma NormaliseExample()
    ensures Normalise([[2.0, 4.0], [0.0, 0.0]]) == Ok([[0.5, 1.0], [0.0, 0.0]])
  {
    var m := [[2.0, 4.0], [0.0, 0.0]];
    assert m[0][1..] == [4.0] && m[1][1..] == [0.0];
    assert Max(m[0]) == 4.0 && Max(m[1]) == 0.0;
    assert NormaliseRow(m[0]) == [0.5, 1.0];
    assert NormaliseRow(m[1]) == [0.0, 0.0];
    assert Rectangular(m) && Days(m) == 2;
    assert !HasNegative(m);
    assert Normalise(m).value == [NormaliseRow(m[0]), NormaliseRow(m[1])];
  }
}
