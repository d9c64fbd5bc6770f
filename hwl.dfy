/**
 * The HWL container and its player: an eight-byte header `YEAHBOI!`
 * followed by sixteen-byte records, one per 1/40 s, each holding the
 * little-endian floats ampA, ampB, freqA, freqB. The floats are kept as
 * their raw four-byte groups; `decode` turns one into a number.
 */
module Hwl {
  import opened Wrappers
  import opened Numeric
  import opened Pulses

  /** `YEAHBOI!` in ASCII. */
  const HEADER: seq<Byte> := [0x59, 0x45, 0x41, 0x48, 0x42, 0x4F, 0x49, 0x21]
  const HEADER_SIZE: nat := 8
  const RECORD_SIZE: nat := 16
  /** Seconds each record plays for (`DGCoyote.PULSE_TIME`). */
  const PULSE_TIME: real := 0.025

  const BAD_HEADER: string := "Invalid HWL file: expected header not found."
  const INCOMPLETE_RECORD: string := "Invalid HWL file: incomplete Pulse data."

  /** The four bytes of a single-precision float. */
  type FloatBytes = s: seq<Byte> | |s| == 4 witness [0, 0, 0, 0]

  /** One record: four little-endian single-precision floats, as bytes. */
  datatype Record = Record(ampA: FloatBytes, ampB: FloatBytes, freqA: FloatBytes, freqB: FloatBytes)

  /** A record as it appears in the file. */
  function RecordBytes(r: Record): seq<Byte>
  {
    r.ampA + r.ampB + r.freqA + r.freqB
  }

  /** The four floats read from sixteen bytes, in order. */
  function RecordAt(bytes: seq<Byte>): (r: Record)
    requires |bytes| == RECORD_SIZE
    ensures RecordBytes(r) == bytes
  {
    var r := Record(bytes[0..4], bytes[4..8], bytes[8..12], bytes[12..16]);
    assert RecordBytes(r) == bytes;
    r
  }

  lemma RecordOfBytes(r: Record)
    ensures RecordAt(RecordBytes(r)) == r
  {
    var b := RecordBytes(r);
    assert b[0..4] == r.ampA && b[4..8] == r.ampB && b[8..12] == r.freqA && b[12..16] == r.freqB;
  }

  /** The whole records at the front of `body`; a trailing part shorter than a record is not one. */
  function Records(body: seq<Byte>): (r: seq<Record>)
    ensures |r| == |body| / RECORD_SIZE
    decreases |body|
  {
    if |body| < RECORD_SIZE then [] else [RecordAt(body[..16])] + Records(body[16..])
  }

  /** Records are read one after the other: a whole record more of input is one record more. */
  lemma {:induction false} RecordsExtend(body: seq<Byte>, m: nat)
    requires m % RECORD_SIZE == 0 && m + RECORD_SIZE <= |body|
    ensures Records(body[..m + 16]) == Records(body[..m]) + [RecordAt(body[m..m + 16])]
  {
    if m > 0 {
      assert m >= 16 && (m - 16) % 16 == 0;
      RecordsExtend(body[16..], m - 16);
      assert Records(body[..m + 16]) == [RecordAt(body[..m + 16][..16])] + Records(body[..m + 16][16..]);
      assert Records(body[..m]) == [RecordAt(body[..m][..16])] + Records(body[..m][16..]);
      assert body[..m + 16][16..] == body[16..][..m];
      assert body[..m][16..] == body[16..][..m - 16];
      assert body[16..][m - 16..m] == body[m..m + 16];
      assert body[..m + 16][..16] == body[..m][..16];
      var first := RecordAt(body[..m][..16]);
      var middle := Records(body[16..][..m - 16]);
      var last := RecordAt(body[m..m + 16]);
      assert Records(body[..m + 16]) == [first] + (middle + [last]);
      assert Records(body[..m]) == [first] + middle;
      assert [first] + (middle + [last]) == ([first] + middle) + [last];
    } else {
      assert body[..16][..16] == body[0..16];
      assert Records(body[..16][16..]) == [];
    }
  }

  /** Bytes after the last whole record do not change which records are read. */
  lemma {:induction false} RecordsIgnoreTail(body: seq<Byte>, m: nat)
    requires m % RECORD_SIZE == 0 && m <= |body| < m + RECORD_SIZE
    ensures Records(body) == Records(body[..m])
  {
    if m > 0 {
      assert m >= 16 && (m - 16) % 16 == 0;
      RecordsIgnoreTail(body[16..], m - 16);
      assert body[..m][16..] == body[16..][..m - 16];
      assert body[..m][..16] == body[..16];
    }
  }

  /** The bytes of a list of records, one after the other. */
  function Serialise(records: seq<Record>): (r: seq<Byte>)
    ensures |r| == RECORD_SIZE * |records|
  {
    if |records| == 0 then [] else Serialise(records[..|records| - 1]) + RecordBytes(records[|records| - 1])
  }

  /** Reading back the bytes of well-formed records gives the same records. */
  lemma {:induction false} RecordsOfSerialise(records: seq<Record>)
    ensures Records(Serialise(records)) == records
  {
    if |records| > 0 {
      var n := |records| - 1;
      var front := records[..n];
      var body := Serialise(records);
      var m := |Serialise(front)|;
      assert body == Serialise(front) + RecordBytes(records[n]);
      assert m == 16 * n;
      RecordsExtend(body, m);
      assert body[..m + 16] == body;
      assert body[..m] == Serialise(front);
      assert body[m..m + 16] == RecordBytes(records[n]);
      RecordsOfSerialise(front);
      RecordOfBytes(records[n]);
      assert records == front + [records[n]];
    }
  }

  /** Writing out the records read from a whole number of records gives the bytes back. */
  lemma {:induction false} SerialiseOfRecords(body: seq<Byte>)
    requires |body| % RECORD_SIZE == 0
    ensures Serialise(Records(body)) == body
  {
    if |body| > 0 {
      var m := |body| - 16;
      RecordsExtend(body, m);
      assert body[..m + 16] == body;
      var front := Records(body[..m]);
      var records := front + [RecordAt(body[m..m + 16])];
      assert records[..|records| - 1] == front;
      SerialiseOfRecords(body[..m]);
      assert body == body[..m] + body[m..m + 16];
    }
  }

  /** The first eight bytes are the header. */
  predicate HeaderOk(file: seq<Byte>)
  {
    |file| >= HEADER_SIZE && file[..HEADER_SIZE] == HEADER
  }

  /** What a successful `open` reads from a file, or why it fails. */
  function Parse(file: seq<Byte>): (r: Result<seq<Record>, string>)
    ensures !HeaderOk(file) ==> r == Failure(BAD_HEADER)
    ensures HeaderOk(file) && (|file| - HEADER_SIZE) % RECORD_SIZE != 0 ==> r == Failure(INCOMPLETE_RECORD)
    ensures r.Success? ==> HeaderOk(file) && (|file| - HEADER_SIZE) % RECORD_SIZE == 0
    ensures r.Success? ==> |r.value| == (|file| - HEADER_SIZE) / RECORD_SIZE &&
                           Serialise(r.value) == file[HEADER_SIZE..]
  {
    if !HeaderOk(file) then Failure(BAD_HEADER)
    else if (|file| - HEADER_SIZE) % RECORD_SIZE != 0 then Failure(INCOMPLETE_RECORD)
    else
      var records := Records(file[HEADER_SIZE..]);
      SerialiseOfRecords(file[HEADER_SIZE..]);
      Success(records)
  }

  /**
   * The record index a time plays: `trunc(time / 0.025)`, held to the
   * first record before the start and to the last after the end.
   */
  function PulseIndex(time: real, count: nat): (r: nat)
    requires count > 0
    ensures r < count
    ensures 0.0 <= time && time < count as real * PULSE_TIME ==> r as real * PULSE_TIME <= time < (r + 1) as real * PULSE_TIME
    ensures time < 0.0 ==> r == 0
    ensures time >= count as real * PULSE_TIME ==> r == count - 1
  {
    var index := Trunc(time / PULSE_TIME);
    if index < 0 then 0
    else if index >= count then count - 1
    else index
  }

  /** A record's pulse, its floats read by `decode`. */
  function Decoded(r: Record, decode: FloatBytes -> real): (p: Pulse)
    ensures p == Pulse(decode(r.ampA), decode(r.ampB), decode(r.freqA), decode(r.freqB))
  {
    Pulse(decode(r.ampA), decode(r.ampB), decode(r.freqA), decode(r.freqB))
  }

  /** `HWLPulseSource`: the records read so far and whether a file is ready to play. */
  class HwlPulseSource {
    var pulseData: seq<Record>
    var duration: Option<real>
    var readyToPlay: bool

    constructor ()
      ensures pulseData == [] && duration == None && !readyToPlay
    {
      pulseData := [];
      duration := None;
      readyToPlay := false;
    }

    /**
     * `getPulseAtTime`: the pulse of the record playing at `time`, the first
     * or last record outside the data, and all zeros when there are none.
     */
    function GetPulseAtTime(time: real, decode: FloatBytes -> real): (p: Pulse)
      reads this
      ensures |pulseData| == 0 ==> p == ZeroPulse
      ensures |pulseData| > 0 ==> p == Decoded(pulseData[PulseIndex(time, |pulseData|)], decode)
    {
      if |pulseData| == 0 then ZeroPulse
      else Decoded(pulseData[PulseIndex(time, |pulseData|)], decode)
    }

    /**
     * `open`: checks the header, then appends one record per sixteen bytes
     * to what is already held. A trailing partial record fails the file
     * after the whole records before it have been appended; only a file that
     * parses sets the duration and becomes ready to play.
     */
    method Open(file: seq<Byte>) returns (r: Result<real, string>)
      modifies this
      ensures r.Failure? <==> Parse(file).Failure?
      ensures r.Failure? ==> r.error == Parse(file).error && !readyToPlay && duration == old(duration)
      ensures !HeaderOk(file) ==> pulseData == old(pulseData)
      ensures HeaderOk(file) ==> pulseData == old(pulseData) + Records(file[HEADER_SIZE..])
      ensures r.Success? ==> pulseData == old(pulseData) + Parse(file).value &&
                             readyToPlay && duration == Some(|pulseData| as real * PULSE_TIME) &&
                             r.value == |pulseData| as real * PULSE_TIME
    {
      readyToPlay := false;
      if !HeaderOk(file) {
        return Failure(BAD_HEADER);
      }
      var body := file[HEADER_SIZE..];
      var pos := 0;
      while pos < |body|
        invariant pos <= |body| && pos % RECORD_SIZE == 0
        invariant pulseData == old(pulseData) + Records(body[..pos])
        invariant !readyToPlay && duration == old(duration)
        decreases |body| - pos
      {
        if |body| - pos < RECORD_SIZE {
          RecordsIgnoreTail(body, pos);
          return Failure(INCOMPLETE_RECORD);
        }
        RecordsExtend(body, pos);
        pulseData := pulseData + [RecordAt(body[pos..pos + 16])];
        pos := pos + RECORD_SIZE;
      }
      assert body[..pos] == body;
      duration := Some(|pulseData| as real * PULSE_TIME);
      readyToPlay := true;
      r := Success(|pulseData| as real * PULSE_TIME);
    }
  }
}
