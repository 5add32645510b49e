/** One patient of an inflammation trial: an identifier and that patient's
    readings, one per day. The object is never updated after construction,
    so it is a value; the datatype constructor Patient(id, data) stores both
    fields unchanged. */
module Patients {
  import opened Stats

  datatype Patient = Patient(id: int, data: seq<real>)
  {
    /** The mean reading over all days: the days' total shared out over the
        days, so it lies between the lowest and the highest reading. */
    function DailyMean(): (r: real)
      requires |data| > 0
      ensures r * |data| as real == Sum(data)
      ensures DailyMin() <= r <= DailyMax()
    {
      Mean(data)
    }

    /** The highest reading over all days: one of the readings, and no
        reading exceeds it. */
    function DailyMax(): (r: real)
      requires |data| > 0
      ensures r in data
      ensures forall d :: 0 <= d < |data| ==> data[d] <= r
    {
      MaxIsReading(data);
      Max(data)
    }

    /** The lowest reading over all days: one of the readings, and no reading
        is below it. */
    function DailyMin(): (r: real)
      requires |data| > 0
      ensures r in data
      ensures forall d :: 0 <= d < |data| ==> r <= data[d]
    {
      MinIsReading(data);
      Min(data)
    }
  }

  /** The statistics of Patient(id=1, data=[1, 2, 3]). */
  lemma OneTwoThree()
    ensures Patient(1, [1.0, 2.0, 3.0]).id == 1
    ensures Patient(1, [1.0, 2.0, 3.0]).DailyMean() == 2.0
    ensures Patient(1, [1.0, 2.0, 3.0]).DailyMax() == 3.0
    ensures Patient(1, [1.0, 2.0, 3.0]).DailyMin() == 1.0
  {
    var s := [1.0, 2.0, 3.0];
    assert s[1..] == [2.0, 3.0] && s[1..][1..] == [3.0];
    assert Sum(s) == 6.0;
  }
}
