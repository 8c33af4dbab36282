/** The transcriber's glue: each recognised segment becomes a transcript record carrying a
    `[MM:SS]` label; any failure becomes one error and no partial transcript. */
module Transcription {
  import opened Wrappers
  import opened Text
  import opened Records

  /** A segment as the speech recogniser yields it. */
  datatype Segment = Segment(start: real, end: real, text: string)

  /** What the recogniser did for one audio file: the segments it yielded, in order, and the
      message of the exception it raised after them, if any (model loading, decoding, or
      while the lazy segment stream was being consumed). */
  datatype Recognition = Recognition(segments: seq<Segment>, failure: Option<string>)

  /** Python's `f"{n:02d}"`: at least two characters, zero-padded after the sign. */
  function Pad02(n: int): string {
    if n < 0 then "-" + NatToString(-n)
    else if n < 10 then "0" + NatToString(n)
    else NatToString(n)
  }

  /** `int(x // 60)` for a float `x`: floor division. */
  function FloorDiv60(x: real): int {
    (x / 60.0).Floor
  }

  /** `x % 60` for a float `x`: the remainder takes the divisor's sign. */
  function Mod60(x: real): real {
    x - 60.0 * (FloorDiv60(x) as real)
  }

  /** The record's "timestamp" field. */
  function TimestampLabel(start: real): string {
    "[" + Pad02(FloorDiv60(start)) + ":" + Pad02(Trunc(Mod60(start))) + "]"
  }

  /** The dict appended for one segment. */
  function RecordOf(s: Segment): Chunk {
    Chunk(Some(s.start), Some(s.end), Some(s.text), Some(TimestampLabel(s.start)))
  }

  /** The transcript that `transcribe_audio` returns, or the message of the exception it raises. */
  function Transcribed(r: Recognition): Result<seq<Chunk>, string> {
    if r.failure.Some? then Failure("Transcription error: " + r.failure.value)
    else Success(seq(|r.segments|, i requires 0 <= i < |r.segments| => RecordOf(r.segments[i])))
  }

  /** `transcribe_audio`: append one record per segment; a failure discards what was built. */
  method TranscribeAudio(r: Recognition) returns (result: Result<seq<Chunk>, string>)
    ensures result == Transcribed(r)
    ensures result.Failure? <==> r.failure.Some?
    ensures result.Success? ==>
      |result.value| == |r.segments| &&
      forall i :: 0 <= i < |r.segments| ==>
        result.value[i].start == Some(r.segments[i].start) &&
        result.value[i].end == Some(r.segments[i].end) &&
        result.value[i].text == Some(r.segments[i].text) &&
        result.value[i].timestamp == Some(TimestampLabel(r.segments[i].start))
  {
    var transcript: seq<Chunk> := [];
    var i := 0;
    while i < |r.segments|
      invariant 0 <= i <= |r.segments|
      invariant |transcript| == i
      invariant forall k :: 0 <= k < i ==> transcript[k] == RecordOf(r.segments[k])
    {
      var segment := r.segments[i];
      transcript := transcript + [Chunk(Some(segment.start), Some(segment.end), Some(segment.text),
                                        Some(TimestampLabel(segment.start)))];
      i := i + 1;
    }
    if r.failure.Some? {
      return Failure("Transcription error: " + r.failure.value);
    }
    assert transcript == seq(|r.segments|, k requires 0 <= k < |r.segments| => RecordOf(r.segments[k]));
    return Success(transcript);
  }

  /** Python's float `//` and `%` by 60 agree with integer floor division and remainder of
      the whole seconds: minutes are ⌊start⌋ div 60 and seconds ⌊start⌋ mod 60, for every start. */
  lemma FloorDivMod(x: real)
    ensures FloorDiv60(x) == x.Floor / 60
    ensures Trunc(Mod60(x)) == x.Floor % 60
  {
    var f := x.Floor;
    var q := f / 60;
    assert 60 * q <= f < 60 * q + 60;
    assert (q as real) * 60.0 <= x < (q as real) * 60.0 + 60.0;
    assert q as real <= x / 60.0 < q as real + 1.0;
    assert FloorDiv60(x) == q;
    var m := Mod60(x);
    assert m == x - 60.0 * (q as real);
    assert (f - 60 * q) as real <= m < (f - 60 * q) as real + 1.0;
    assert m.Floor == f - 60 * q;
  }

  /** The label in whole seconds: minutes ⌊start⌋ div 60 and seconds ⌊start⌋ mod 60, each
      padded to two digits. */
  lemma LabelParts(start: real)
    ensures TimestampLabel(start) == "[" + Pad02(start.Floor / 60) + ":" + Pad02(start.Floor % 60) + "]"
  {
    FloorDivMod(start);
  }

  /** For a non-negative value the padded field is all digits, reads back as the value, has at
      least two characters, and exactly two below 100. */
  lemma Pad02Digits(n: int)
    requires n >= 0
    ensures AllDigits(Pad02(n)) && ParseNat(Pad02(n)) == n
    ensures |Pad02(n)| >= 2
    ensures |Pad02(n)| == 2 <==> n < 100
  {
    NatToStringLength(n);
    ParseNatToString(n);
    if n < 10 {
      var s := Pad02(n);
      assert s == ['0', DigitChar(n)];
      assert s[..1] == "0";
    }
  }

  /** Reads a label "[MM:SS]" back into (minutes, seconds). */
  function ParseLabel(stamp: string): Option<(int, int)> {
    if |stamp| >= 7 && stamp[0] == '[' && stamp[|stamp| - 1] == ']' && stamp[|stamp| - 4] == ':'
       && AllDigits(stamp[1..|stamp| - 4]) && AllDigits(stamp[|stamp| - 3..|stamp| - 1])
    then Some((ParseNat(stamp[1..|stamp| - 4]), ParseNat(stamp[|stamp| - 3..|stamp| - 1])))
    else None
  }

  /** A label assembled from a digit field of at least two characters and one of exactly two
      is read back field by field. */
  lemma ParseAssembled(m: string, sec: string)
    requires AllDigits(m) && |m| >= 2 && AllDigits(sec) && |sec| == 2
    ensures ParseLabel("[" + m + ":" + sec + "]") == Some((ParseNat(m), ParseNat(sec)))
  {
    var stamp := "[" + m + ":" + sec + "]";
    var n := |stamp|;
    assert n == |m| + 5;
    assert stamp[0] == '[' && stamp[n - 1] == ']' && stamp[n - 4] == ':';
    assert stamp[1..n - 4] == m;
    assert stamp[n - 3..n - 1] == sec;
    assert AllDigits(stamp[1..n - 4]) && AllDigits(stamp[n - 3..n - 1]);
    assert ParseNat(stamp[1..n - 4]) == ParseNat(m);
    assert ParseNat(stamp[n - 3..n - 1]) == ParseNat(sec);
  }

  /** For start >= 0 the label reads back as (⌊start⌋ div 60, ⌊start⌋ mod 60); the seconds
      field is always two digits in 00..59, and the minutes field is two digits below 100
      minutes and longer from then on (`:02d` pads but never truncates). */
  lemma LabelRoundTrip(start: real)
    requires start >= 0.0
    ensures ParseLabel(TimestampLabel(start)) == Some((start.Floor / 60, start.Floor % 60))
    ensures 0 <= start.Floor % 60 < 60
    ensures |TimestampLabel(start)| == 7 <==> start < 6000.0
  {
    LabelParts(start);
    var mm, ss := start.Floor / 60, start.Floor % 60;
    Pad02Digits(mm);
    Pad02Digits(ss);
    ParseAssembled(Pad02(mm), Pad02(ss));
    assert mm < 100 <==> start.Floor < 6000;
  }

  predicate LexLeq(a: (int, int), b: (int, int)) {
    a.0 < b.0 || (a.0 == b.0 && a.1 <= b.1)
  }

  /** Labels never go backwards: a later start reads back as a later or equal (MM, SS). */
  lemma LabelMonotone(s1: real, s2: real)
    requires 0.0 <= s1 <= s2
    ensures ParseLabel(TimestampLabel(s1)).Some? && ParseLabel(TimestampLabel(s2)).Some?
    ensures LexLeq(ParseLabel(TimestampLabel(s1)).value, ParseLabel(TimestampLabel(s2)).value)
  {
    LabelRoundTrip(s1);
    LabelRoundTrip(s2);
    var f1, f2 := s1.Floor, s2.Floor;
    assert f1 <= f2;
    assert f1 == 60 * (f1 / 60) + f1 % 60;
    assert f2 == 60 * (f2 / 60) + f2 % 60;
  }

  /** 125.4 seconds is two minutes and five seconds. */
  lemma LabelExampleMinutes()
    ensures TimestampLabel(125.4) == "[02:05]"
  {
    LabelParts(125.4);
    assert (125.4).Floor == 125;
    assert Pad02(2) == "02" && Pad02(5) == "05";
  }

  /** The start of the recording. */
  lemma LabelExampleStart()
    ensures TimestampLabel(0.0) == "[00:00]"
  {
    LabelParts(0.0);
    assert Pad02(0) == "00";
  }

}
