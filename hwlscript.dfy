/**
 * The converter script's output side: normalising a series into [0, 1]
 * and writing an HWL file from the four per-pulse series. `pack` stands
 * for `struct.pack('<f', x)`, the four little-endian bytes of a float.
 */
module HwlScript {
  import opened Wrappers
  import opened Numeric
  import Hwl

  const DIFFERENT_LENGTHS: string := "All output arrays must be the same length."
  const NO_DATA: string := "Output arrays must contain data."

  /** `normalise_array` on one value: clipped to [minVal, maxVal], then placed on [0, 1]. */
  function Normalise(value: real, minVal: real, maxVal: real): (r: real)
    requires minVal < maxVal
    ensures 0.0 <= r <= 1.0
    ensures value <= minVal ==> r == 0.0
    ensures value >= maxVal ==> r == 1.0
    ensures minVal <= value <= maxVal ==> r * (maxVal - minVal) == value - minVal
  {
    var clamped := Clamp(value, minVal, maxVal);
    DivUnit(clamped - minVal, maxVal - minVal);
    (clamped - minVal) / (maxVal - minVal)
  }

  /** Normalising keeps the order of the values. */
  lemma NormaliseMonotone(x: real, y: real, minVal: real, maxVal: real)
    requires minVal < maxVal && x <= y
    ensures Normalise(x, minVal, maxVal) <= Normalise(y, minVal, maxVal)
  {
    DivMonotone(Clamp(x, minVal, maxVal) - minVal, Clamp(y, minVal, maxVal) - minVal, maxVal - minVal);
  }

  /** `normalise_array`: every value normalised, in the same order. */
  function NormaliseArray(values: seq<real>, minVal: real, maxVal: real): (r: seq<real>)
    requires minVal < maxVal
    ensures |r| == |values|
    ensures forall i | 0 <= i < |r| :: 0.0 <= r[i] <= 1.0
    ensures forall i | 0 <= i < |r| && values[i] <= minVal :: r[i] == 0.0
    ensures forall i | 0 <= i < |r| && values[i] >= maxVal :: r[i] == 1.0
    ensures forall i, j | 0 <= i < |r| && 0 <= j < |r| && values[i] <= values[j] :: r[i] <= r[j]
  {
    var r := seq(|values|, i requires 0 <= i < |values| => Normalise(values[i], minVal, maxVal));
    forall i, j | 0 <= i < |r| && 0 <= j < |r| && values[i] <= values[j]
      ensures r[i] <= r[j]
    {
      NormaliseMonotone(values[i], values[j], minVal, maxVal);
    }
    r
  }

  /** The records the script writes: pulse `i` takes its four floats from position `i` of each series, left before right. */
  function PackedRecords(leftAmplitudes: seq<real>, rightAmplitudes: seq<real>,
                         leftFrequencies: seq<real>, rightFrequencies: seq<real>,
                         pack: real -> Hwl.FloatBytes): (r: seq<Hwl.Record>)
    requires |rightAmplitudes| == |leftFrequencies| == |rightFrequencies| == |leftAmplitudes|
    ensures |r| == |leftAmplitudes|
    ensures forall i | 0 <= i < |r| ::
              r[i].ampA == pack(leftAmplitudes[i]) && r[i].ampB == pack(rightAmplitudes[i]) &&
              r[i].freqA == pack(leftFrequencies[i]) && r[i].freqB == pack(rightFrequencies[i])
  {
    seq(|leftAmplitudes|, i requires 0 <= i < |leftAmplitudes| =>
      Hwl.Record(pack(leftAmplitudes[i]), pack(rightAmplitudes[i]), pack(leftFrequencies[i]), pack(rightFrequencies[i])))
  }

  /**
   * `write_output_file`: refuses series of different lengths or no data;
   * otherwise the file is the header followed by one record per position.
   */
  method WriteOutputFile(leftAmplitudes: seq<real>, rightAmplitudes: seq<real>,
                         leftFrequencies: seq<real>, rightFrequencies: seq<real>,
                         pack: real -> Hwl.FloatBytes) returns (r: Result<seq<Byte>, string>)
    ensures !(|rightAmplitudes| == |leftFrequencies| == |rightFrequencies| == |leftAmplitudes|) ==>
              r == Failure(DIFFERENT_LENGTHS)
    ensures |rightAmplitudes| == |leftFrequencies| == |rightFrequencies| == |leftAmplitudes| == 0 ==>
              r == Failure(NO_DATA)
    ensures r.Success? ==>
              |rightAmplitudes| == |leftFrequencies| == |rightFrequencies| == |leftAmplitudes| > 0 &&
              r.value == Hwl.HEADER + Hwl.Serialise(PackedRecords(leftAmplitudes, rightAmplitudes,
                                                                  leftFrequencies, rightFrequencies, pack))
    ensures |rightAmplitudes| == |leftFrequencies| == |rightFrequencies| == |leftAmplitudes| > 0 ==> r.Success?
  {
    var n := |leftAmplitudes|;
    if |rightAmplitudes| != n || |leftFrequencies| != n || |rightFrequencies| != n {
      return Failure(DIFFERENT_LENGTHS);
    }
    if n == 0 {
      return Failure(NO_DATA);
    }
    ghost var records := PackedRecords(leftAmplitudes, rightAmplitudes, leftFrequencies, rightFrequencies, pack);
    var file := Hwl.HEADER;
    var i := 0;
    while i < n
      invariant i <= n
      invariant file == Hwl.HEADER + Hwl.Serialise(records[..i])
    {
      assert records[..i + 1][..i] == records[..i];
      file := file + (pack(leftAmplitudes[i]) + pack(rightAmplitudes[i]) + pack(leftFrequencies[i]) + pack(rightFrequencies[i]));
      i := i + 1;
    }
    assert records[..n] == records;
    r := Success(file);
  }

  /**
   * What the script writes, the player reads: the file passes the header
   * and record checks and holds one record per pulse, the left series on
   * channel A and the right on channel B.
   */
  lemma {:induction false} WrittenFileReadsBack(leftAmplitudes: seq<real>, rightAmplitudes: seq<real>,
                                                leftFrequencies: seq<real>, rightFrequencies: seq<real>,
                                                pack: real -> Hwl.FloatBytes)
    requires |rightAmplitudes| == |leftFrequencies| == |rightFrequencies| == |leftAmplitudes| > 0
    ensures var records := PackedRecords(leftAmplitudes, rightAmplitudes, leftFrequencies, rightFrequencies, pack);
            var parsed := Hwl.Parse(Hwl.HEADER + Hwl.Serialise(records));
            parsed == Success(records) && |parsed.value| == |leftAmplitudes|
  {
    var records := PackedRecords(leftAmplitudes, rightAmplitudes, leftFrequencies, rightFrequencies, pack);
    var file := Hwl.HEADER + Hwl.Serialise(records);
    assert file[..Hwl.HEADER_SIZE] == Hwl.HEADER;
    assert file[Hwl.HEADER_SIZE..] == Hwl.Serialise(records);
    Hwl.RecordsOfSerialise(records);
  }
}
