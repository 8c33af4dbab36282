/** Speaker attribution: diarization turns are folded into one profile per speaker label, in
    the order the labels first appear; any failure gives one fixed fallback profile. */
module SpeakerDetection {
  import opened Text
  import opened Records

  /** One diarization turn: who spoke, from when to when (seconds). */
  datatype Turn = Turn(speaker: string, start: real, end: real)

  /** What diarization did: the turns it produced, or an exception (loading the pretrained
      pipeline, moving it to the GPU, or running it). */
  datatype Diarization = Diarized(turns: seq<Turn>) | DiarizationFailed

  /** A profile's "duration" and "segments": a number, or the string "Unknown" of the fallback. */
  datatype Stat = Known(value: int) | Unknown

  /** The dict {"name", "duration", "segments", "sample_text"}. */
  datatype Profile = Profile(name: string, duration: Stat, segments: Stat, sampleText: string)

  /** The distinct labels of `turns`, each once, in the order of first appearance. */
  function Labels(turns: seq<Turn>): seq<string> {
    if turns == [] then []
    else
      var earlier := Labels(turns[..|turns| - 1]);
      var last := turns[|turns| - 1].speaker;
      if last in earlier then earlier else earlier + [last]
  }

  /** The number of turns carrying `speaker`. */
  function Segments(turns: seq<Turn>, speaker: string): nat {
    if turns == [] then 0
    else Segments(turns[..|turns| - 1], speaker) + (if turns[|turns| - 1].speaker == speaker then 1 else 0)
  }

  /** `int(turn.end - turn.start)`: whole seconds, truncated. */
  function TurnSeconds(t: Turn): int {
    Trunc(t.end - t.start)
  }

  /** The sum of the truncated lengths of the turns carrying `speaker`. */
  function Duration(turns: seq<Turn>, speaker: string): int {
    if turns == [] then 0
    else Duration(turns[..|turns| - 1], speaker) + (if turns[|turns| - 1].speaker == speaker then TurnSeconds(turns[|turns| - 1]) else 0)
  }

  /** The position of the first turn carrying `speaker`, or |turns| when there is none. */
  function FirstIndex(turns: seq<Turn>, speaker: string): (i: nat)
    ensures i <= |turns|
    ensures i < |turns| ==> turns[i].speaker == speaker
    ensures forall j :: 0 <= j < i ==> turns[j].speaker != speaker
  {
    if turns == [] then 0
    else
      var earlier := FirstIndex(turns[..|turns| - 1], speaker);
      if earlier < |turns| - 1 then earlier
      else if turns[|turns| - 1].speaker == speaker then |turns| - 1
      else |turns|
  }

  /** f"Speaker {k}" */
  function SpeakerName(k: nat): string {
    "Speaker " + NatToString(k)
  }

  /** The text of the first chunk whose text is non-empty, or "" when there is none. */
  function FirstNonEmpty(chunks: seq<Chunk>): string {
    if chunks == [] then ""
    else if TextOf(chunks[0]) != "" then TextOf(chunks[0])
    else FirstNonEmpty(chunks[1..])
  }

  /** The sample every profile receives: the first non-empty text among `transcript[:3]`. */
  function SampleText(transcript: seq<Chunk>): string {
    FirstNonEmpty(transcript[..if |transcript| < 3 then |transcript| else 3])
  }

  /** The profiles of a successful diarization: the k-th distinct speaker (from 1) is
      "Speaker k", with the duration and turn count of that speaker and the shared sample. */
  function Aggregated(turns: seq<Turn>, transcript: seq<Chunk>): seq<Profile> {
    var labels := Labels(turns);
    seq(|labels|, k requires 0 <= k < |labels| =>
      Profile(SpeakerName(k + 1), Known(Duration(turns, labels[k])), Known(Segments(turns, labels[k])),
              SampleText(transcript)))
  }

  /** The single profile returned when anything raises. */
  function Fallback(transcript: seq<Chunk>): Profile {
    Profile("Speaker 1", Unknown, Unknown, if transcript == [] then "" else TextOf(transcript[0]))
  }

  /** What `detect_speakers` returns; it never raises. */
  function Detected(d: Diarization, transcript: seq<Chunk>): seq<Profile> {
    match d
    case DiarizationFailed => [Fallback(transcript)]
    case Diarized(turns) => Aggregated(turns, transcript)
  }

  /** `detect_speakers`: the dict `speakers` is a map with its insertion order kept beside it;
      the turns are tallied into it, each entry gets its sample, and the values are returned in
      insertion order. */
  method DetectSpeakers(d: Diarization, transcript: seq<Chunk>) returns (profiles: seq<Profile>)
    ensures profiles == Detected(d, transcript)
  {
    if d.DiarizationFailed? {
      return [Fallback(transcript)];
    }
    var order, speakers := TallyTurns(d.turns);
    LabelsDistinct(d.turns);
    speakers := FillSamples(order, speakers, transcript);
    profiles := seq(|order|, j requires 0 <= j < |order| => speakers[order[j]]);
    forall j | 0 <= j < |order|
      ensures profiles[j] == Aggregated(d.turns, transcript)[j]
    {
    }
  }

  /** The first loop of `detect_speakers`: a new speaker gets the entry "Speaker <len+1>" with
      zero duration and count, then every turn adds its truncated length and one turn to its
      speaker's entry. `order` is the dict's insertion order. */
  method TallyTurns(turns: seq<Turn>) returns (order: seq<string>, speakers: map<string, Profile>)
    ensures order == Labels(turns)
    ensures forall l :: l in speakers <==> l in order
    ensures forall k :: 0 <= k < |order| ==>
      speakers[order[k]] == Profile(SpeakerName(k + 1), Known(Duration(turns, order[k])),
                                    Known(Segments(turns, order[k])), "")
  {
    speakers := map[];
    order := [];
    var i := 0;
    while i < |turns|
      invariant 0 <= i <= |turns|
      invariant Tallied(turns[..i], order, speakers)
    {
      var turn := turns[i];
      order, speakers := Enrol(turns[..i], turn, order, speakers);
      ghost var enrolled := speakers;
      speakers := speakers[turn.speaker := Counted(speakers[turn.speaker], turn)];
      Grow(turns, i, order, enrolled, speakers);
      i := i + 1;
    }
    TalliedWhole(turns, order, speakers);
  }

  /** `if speaker not in speakers`: a new speaker gets the entry "Speaker <len+1>" with zero
      duration and count, appended to the insertion order. */
  method Enrol(before: seq<Turn>, t: Turn, order: seq<string>, speakers: map<string, Profile>)
    returns (order': seq<string>, speakers': map<string, Profile>)
    requires Tallied(before, order, speakers)
    ensures order' == Labels(before + [t]) && Entries(before, order', speakers')
    ensures t.speaker in speakers' && speakers'[t.speaker].duration.Known? && speakers'[t.speaker].segments.Known?
  {
    order', speakers' := order, speakers;
    if t.speaker !in speakers {
      speakers' := speakers[t.speaker := Profile(SpeakerName(|speakers| + 1), Known(0), Known(0), "")];
      order' := order + [t.speaker];
      Insert(before, t, order, speakers, order', speakers');
    } else {
      Admit(before, t, order, speakers);
    }
  }

  /** The tally over all turns is the fold over them. */
  lemma TalliedWhole(turns: seq<Turn>, order: seq<string>, speakers: map<string, Profile>)
    requires Tallied(turns[..|turns|], order, speakers)
    ensures order == Labels(turns)
    ensures forall l :: l in speakers <==> l in order
    ensures forall k :: 0 <= k < |order| ==>
      speakers[order[k]] == Profile(SpeakerName(k + 1), Known(Duration(turns, order[k])),
                                    Known(Segments(turns, order[k])), "")
  {
    assert turns[..|turns|] == turns;
  }

  /** `speakers` (with insertion order `order`) holds, for the k-th listed speaker, the name
      "Speaker k+1" and the duration and count of its turns in `counted`. */
  ghost predicate Entries(counted: seq<Turn>, order: seq<string>, speakers: map<string, Profile>) {
    && |speakers| == |order|
    && (forall l :: l in speakers <==> l in order)
    && forall k :: 0 <= k < |order| ==>
         speakers[order[k]] == Profile(SpeakerName(k + 1), Known(Duration(counted, order[k])),
                                       Known(Segments(counted, order[k])), "")
  }

  /** The tally after `turns`: one entry per distinct label, in first-appearance order. */
  ghost predicate Tallied(turns: seq<Turn>, order: seq<string>, speakers: map<string, Profile>) {
    order == Labels(turns) && Entries(turns, order, speakers)
  }

  /** One more turn: its label is listed at the end if it is new. */
  lemma SnocTurn(turns: seq<Turn>, t: Turn)
    ensures Labels(turns + [t]) == if t.speaker in Labels(turns) then Labels(turns) else Labels(turns) + [t.speaker]
  {
    assert (turns + [t])[..|turns|] == turns;
  }

  /** One more turn: only its own speaker's duration and count grow. */
  lemma SnocCounts(turns: seq<Turn>, t: Turn, l: string)
    ensures Duration(turns + [t], l) == Duration(turns, l) + (if t.speaker == l then TurnSeconds(t) else 0)
    ensures Segments(turns + [t], l) == Segments(turns, l) + (if t.speaker == l then 1 else 0)
  {
    assert (turns + [t])[..|turns|] == turns;
  }

  /** `speakers[speaker]["duration"] += int(turn.end - turn.start)` and
      `speakers[speaker]["segments"] += 1` on one entry. */
  function Counted(e: Profile, t: Turn): Profile
    requires e.duration.Known? && e.segments.Known?
  {
    e.(duration := Known(e.duration.value + TurnSeconds(t)), segments := Known(e.segments.value + 1))
  }

  /** The entry of the k-th listed label after one more turn: grown by that turn when it is
      the turn's speaker, untouched otherwise. */
  lemma EntryStep(before: seq<Turn>, t: Turn, l: string, k: nat, e: Profile, e': Profile)
    requires e == Profile(SpeakerName(k + 1), Known(Duration(before, l)), Known(Segments(before, l)), "")
    requires e' == if l == t.speaker then Counted(e, t) else e
    ensures e' == Profile(SpeakerName(k + 1), Known(Duration(before + [t], l)), Known(Segments(before + [t], l)), "")
  {
    SnocCounts(before, t, l);
  }

  /** A turn of an already listed speaker needs no new entry: the labels already include it,
      and its entry holds numbers. */
  lemma Admit(before: seq<Turn>, t: Turn, order: seq<string>, speakers: map<string, Profile>)
    requires Tallied(before, order, speakers) && t.speaker in speakers
    ensures order == Labels(before + [t]) && Entries(before, order, speakers)
    ensures speakers[t.speaker].duration.Known? && speakers[t.speaker].segments.Known?
  {
    SnocTurn(before, t);
    var k :| 0 <= k < |order| && order[k] == t.speaker;
  }

  /** A turn of a new speaker appends an entry named after the next position with zero
      duration and count, which are that speaker's counts so far. */
  lemma Insert(before: seq<Turn>, t: Turn, order: seq<string>, speakers: map<string, Profile>,
               order': seq<string>, speakers': map<string, Profile>)
    requires Tallied(before, order, speakers) && t.speaker !in speakers
    requires order' == order + [t.speaker]
    requires speakers' == speakers[t.speaker := Profile(SpeakerName(|speakers| + 1), Known(0), Known(0), "")]
    ensures order' == Labels(before + [t]) && Entries(before, order', speakers')
    ensures speakers'[t.speaker].duration.Known? && speakers'[t.speaker].segments.Known?
  {
    SnocTurn(before, t);
    LabelsFresh(before, t.speaker);
    forall k | 0 <= k < |order'|
      ensures speakers'[order'[k]] == Profile(SpeakerName(k + 1), Known(Duration(before, order'[k])),
                                              Known(Segments(before, order'[k])), "")
    {
      if k < |order| {
        assert order'[k] == order[k] && order[k] != t.speaker;
      }
    }
  }

  /** Adding the turn's seconds and one segment to its speaker's entry counts that turn. */
  lemma Grow(turns: seq<Turn>, i: nat, order: seq<string>, speakers: map<string, Profile>,
             speakers': map<string, Profile>)
    requires i < |turns|
    requires order == Labels(turns[..i] + [turns[i]])
    requires Entries(turns[..i], order, speakers)
    requires turns[i].speaker in speakers
    requires speakers[turns[i].speaker].duration.Known? && speakers[turns[i].speaker].segments.Known?
    requires speakers' == speakers[turns[i].speaker := Counted(speakers[turns[i].speaker], turns[i])]
    ensures Tallied(turns[..i + 1], order, speakers')
  {
    var before, t := turns[..i], turns[i];
    assert turns[..i + 1] == before + [t];
    assert |speakers'| == |order| && forall l :: l in speakers' <==> l in order;
    forall k | 0 <= k < |order|
      ensures speakers'[order[k]] == Profile(SpeakerName(k + 1), Known(Duration(before + [t], order[k])),
                                             Known(Segments(before + [t], order[k])), "")
    {
      EntryStep(before, t, order[k], k, speakers[order[k]], speakers'[order[k]]);
    }
  }

  /** The second loop of `detect_speakers`: for every entry, in insertion order, each of the
      first three chunks overwrites the sample while it is still "". Nothing marks a chunk as
      taken, so every entry that starts empty ends with the same sample. */
  method FillSamples(order: seq<string>, speakers: map<string, Profile>, transcript: seq<Chunk>)
    returns (filled: map<string, Profile>)
    requires forall l :: l in speakers <==> l in order
    requires forall j, k :: 0 <= j < k < |order| ==> order[j] != order[k]
    ensures forall l :: l in filled <==> l in speakers
    ensures forall l :: l in speakers ==>
      filled[l] == speakers[l].(sampleText := if speakers[l].sampleText != "" then speakers[l].sampleText
                                              else SampleText(transcript))
  {
    var head := transcript[..if |transcript| < 3 then |transcript| else 3];
    filled := speakers;
    var k := 0;
    while k < |order|
      invariant 0 <= k <= |order|
      invariant forall l :: l in filled <==> l in speakers
      invariant forall j :: 0 <= j < |order| ==>
        filled[order[j]] == if j < k then Sampled(speakers[order[j]], head) else speakers[order[j]]
    {
      var c := 0;
      while c < |head|
        invariant 0 <= c <= |head|
        invariant forall l :: l in filled <==> l in speakers
        invariant filled[order[k]] == Sampled(speakers[order[k]], head[..c])
        invariant forall j :: 0 <= j < |order| && j != k ==>
          filled[order[j]] == if j < k then Sampled(speakers[order[j]], head) else speakers[order[j]]
      {
        FirstNonEmptySnoc(head[..c], head[c]);
        assert head[..c + 1] == head[..c] + [head[c]];
        if filled[order[k]].sampleText == "" {
          filled := filled[order[k] := filled[order[k]].(sampleText := TextOf(head[c]))];
        }
        c := c + 1;
      }
      assert head[..c] == head;
      k := k + 1;
    }
    forall l | l in speakers
      ensures filled[l] == Sampled(speakers[l], head)
    {
      var j :| 0 <= j < |order| && order[j] == l;
    }
  }

  /** An entry after the sample loop has run over `chunks`. */
  function Sampled(p: Profile, chunks: seq<Chunk>): Profile {
    p.(sampleText := if p.sampleText != "" then p.sampleText else FirstNonEmpty(chunks))
  }

  /** A speaker not yet seen has no turns and no duration. */
  lemma {:induction false} LabelsFresh(turns: seq<Turn>, speaker: string)
    requires speaker !in Labels(turns)
    ensures Segments(turns, speaker) == 0 && Duration(turns, speaker) == 0
  {
    if turns != [] {
      LabelsFresh(turns[..|turns| - 1], speaker);
    }
  }

  /** Each speaker is listed once. */
  lemma {:induction false} LabelsDistinct(turns: seq<Turn>)
    ensures forall j, k :: 0 <= j < k < |Labels(turns)| ==> Labels(turns)[j] != Labels(turns)[k]
  {
    if turns != [] {
      LabelsDistinct(turns[..|turns| - 1]);
    }
  }

  /** Appending one chunk changes the first non-empty text only when there was none yet. */
  lemma {:induction false} FirstNonEmptySnoc(chunks: seq<Chunk>, c: Chunk)
    ensures FirstNonEmpty(chunks + [c]) == if FirstNonEmpty(chunks) != "" then FirstNonEmpty(chunks) else TextOf(c)
  {
    if chunks != [] {
      assert (chunks + [c])[1..] == chunks[1..] + [c];
      FirstNonEmptySnoc(chunks[1..], c);
    }
  }

  /** A speaker is listed exactly when some turn carries it. */
  lemma {:induction false} FirstIndexListed(turns: seq<Turn>, speaker: string)
    ensures FirstIndex(turns, speaker) < |turns| <==> speaker in Labels(turns)
  {
    if turns != [] {
      FirstIndexListed(turns[..|turns| - 1], speaker);
    }
  }

  /** Every turn's speaker is listed, and every listed speaker has at least one turn: one profile
      per distinct speaker. */
  lemma LabelsCover(turns: seq<Turn>)
    ensures forall i :: 0 <= i < |turns| ==> turns[i].speaker in Labels(turns)
    ensures forall l :: l in Labels(turns) ==> Segments(turns, l) > 0
  {
    forall i | 0 <= i < |turns|
      ensures turns[i].speaker in Labels(turns)
    {
      FirstIndexListed(turns, turns[i].speaker);
    }
    forall l | l in Labels(turns)
      ensures Segments(turns, l) > 0
    {
      FirstIndexListed(turns, l);
      SegmentsAtFirst(turns, l, FirstIndex(turns, l));
    }
  }

  /** A speaker carried by some turn has a positive count. */
  lemma {:induction false} SegmentsAtFirst(turns: seq<Turn>, speaker: string, i: nat)
    requires i < |turns| && turns[i].speaker == speaker
    ensures Segments(turns, speaker) > 0
  {
    if i < |turns| - 1 {
      SegmentsAtFirst(turns[..|turns| - 1], speaker, i);
    }
  }

  /** Labels are listed in the order of their first turns. */
  lemma {:induction false} LabelsInFirstAppearanceOrder(turns: seq<Turn>)
    ensures forall j, k :: 0 <= j < k < |Labels(turns)| ==>
      FirstIndex(turns, Labels(turns)[j]) < FirstIndex(turns, Labels(turns)[k])
  {
    if turns != [] {
      var earlier := turns[..|turns| - 1];
      var last := turns[|turns| - 1];
      LabelsInFirstAppearanceOrder(earlier);
      var le := Labels(earlier);
      forall l | l in le
        ensures FirstIndex(turns, l) == FirstIndex(earlier, l) < |earlier|
      {
        FirstIndexListed(earlier, l);
      }
      if last.speaker !in le {
        FirstIndexListed(earlier, last.speaker);
        assert FirstIndex(turns, last.speaker) == |earlier|;
        assert Labels(turns) == le + [last.speaker];
      }
    }
  }

  /** The turn counts summed over a list of labels. */
  function SumSegments(turns: seq<Turn>, labels: seq<string>): nat {
    if labels == [] then 0
    else SumSegments(turns, labels[..|labels| - 1]) + Segments(turns, labels[|labels| - 1])
  }

  /** One more turn adds one to the sum exactly when its speaker is among the (distinct) labels. */
  lemma {:induction false} SumSegmentsSnoc(turns: seq<Turn>, t: Turn, labels: seq<string>)
    requires forall j, k :: 0 <= j < k < |labels| ==> labels[j] != labels[k]
    ensures SumSegments(turns + [t], labels) == SumSegments(turns, labels) + (if t.speaker in labels then 1 else 0)
  {
    assert (turns + [t])[..|turns|] == turns;
    if labels != [] {
      var init := labels[..|labels| - 1];
      SumSegmentsSnoc(turns, t, init);
      assert labels == init + [labels[|labels| - 1]];
      assert t.speaker in labels <==> t.speaker in init || t.speaker == labels[|labels| - 1];
    }
  }

  /** The turn counts of all profiles add up to the number of turns. */
  lemma {:induction false} SegmentsAddUp(turns: seq<Turn>)
    ensures SumSegments(turns, Labels(turns)) == |turns|
  {
    if turns != [] {
      var earlier := turns[..|turns| - 1];
      var last := turns[|turns| - 1];
      assert turns == earlier + [last];
      SegmentsAddUp(earlier);
      LabelsDistinct(earlier);
      SumSegmentsSnoc(earlier, last, Labels(earlier));
      if last.speaker !in Labels(earlier) {
        LabelsFresh(earlier, last.speaker);
        assert Labels(turns) == Labels(earlier) + [last.speaker];
        assert Labels(turns)[..|Labels(turns)| - 1] == Labels(earlier);
      }
    }
  }

  /** When no turn runs backwards, every duration is a non-negative whole number of seconds. */
  lemma {:induction false} DurationNonNegative(turns: seq<Turn>, speaker: string)
    requires forall i :: 0 <= i < |turns| ==> turns[i].start <= turns[i].end
    ensures Duration(turns, speaker) >= 0
  {
    if turns != [] {
      DurationNonNegative(turns[..|turns| - 1], speaker);
    }
  }

  /** Profile names "Speaker 1", "Speaker 2", ... never repeat. */
  lemma SpeakerNamesDistinct(j: nat, k: nat)
    ensures SpeakerName(j) == SpeakerName(k) <==> j == k
  {
    if SpeakerName(j) == SpeakerName(k) {
      assert NatToString(j) == SpeakerName(j)[8..];
      NatToStringInjective(j, k);
    }
  }

  /** The sample is "" exactly when the first three chunks have no text, and otherwise the text
      of the earliest of them that has some. */
  lemma {:induction false} FirstNonEmptyIsEarliest(chunks: seq<Chunk>)
    ensures FirstNonEmpty(chunks) == "" <==> forall i :: 0 <= i < |chunks| ==> TextOf(chunks[i]) == ""
    ensures FirstNonEmpty(chunks) != "" ==>
      exists i :: 0 <= i < |chunks| && TextOf(chunks[i]) == FirstNonEmpty(chunks) &&
        forall j :: 0 <= j < i ==> TextOf(chunks[j]) == ""
  {
    if chunks != [] {
      FirstNonEmptyIsEarliest(chunks[1..]);
      if TextOf(chunks[0]) == "" {
        if FirstNonEmpty(chunks) != "" {
          var i :| 0 <= i < |chunks| - 1 && TextOf(chunks[1..][i]) == FirstNonEmpty(chunks[1..]) &&
            forall j :: 0 <= j < i ==> TextOf(chunks[1..][j]) == "";
          assert TextOf(chunks[i + 1]) == FirstNonEmpty(chunks);
        }
      } else {
        assert TextOf(chunks[0]) == FirstNonEmpty(chunks);
      }
    }
  }

  /** What `detect_speakers` returns, in outline: on any exception one "Speaker 1" profile with
      both counts "Unknown" and the first chunk's text (even an empty one) or ""; otherwise one
      profile per distinct label, the k-th named "Speaker k", all with the same sample, and no
      profile at all when there were no turns. */
  lemma DetectedShape(d: Diarization, transcript: seq<Chunk>)
    ensures d.DiarizationFailed? ==>
      var r := Detected(d, transcript);
      |r| == 1 && r[0].name == "Speaker 1" && r[0].duration == Unknown && r[0].segments == Unknown &&
      r[0].sampleText == (if transcript == [] then "" else TextOf(transcript[0]))
    ensures d.Diarized? ==>
      var r := Detected(d, transcript);
      |r| == |Labels(d.turns)| &&
      (forall k :: 0 <= k < |r| ==>
        r[k].name == SpeakerName(k + 1) && r[k].sampleText == SampleText(transcript) &&
        r[k].segments == Known(Segments(d.turns, Labels(d.turns)[k])) && r[k].segments.value > 0) &&
      (d.turns == [] <==> r == [])
  {
    if d.Diarized? {
      LabelsCover(d.turns);
      if d.turns != [] {
        assert d.turns[0].speaker in Labels(d.turns);
      }
    }
  }
}
