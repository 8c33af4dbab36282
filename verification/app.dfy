/** The Streamlit app's logic: the processing run that chains the five stages and commits the
    meeting record only when all of them return, the cleanup of its temporary files, the choice
    of summariser, and what the summary, search and speaker tabs show. */
module App {
  import opened Wrappers
  import opened Text
  import opened Records
  import opened Transcription
  import opened SpeakerDetection
  import opened VectorSearch
  import opened VideoProcessor

  /** `st.session_state.meeting_data` once a run has completed. */
  datatype MeetingRecord = MeetingRecord(filename: string, transcript: seq<Chunk>, summary: string,
                                         speakers: seq<Profile>)

  datatype Backend = Groq | Gemini

  /** `"Groq" in llm_choice` picks Groq, anything else Gemini. */
  function SelectBackend(llmChoice: string): Backend {
    if Contains(llmChoice, "Groq") then Groq else Gemini
  }

  /** Groq is used exactly when "Groq" occurs somewhere in the choice. */
  lemma SelectBackendSpec(llmChoice: string)
    ensures SelectBackend(llmChoice) == Groq <==> exists i :: OccursAt(llmChoice, "Groq", i)
    ensures SelectBackend(llmChoice) == Gemini <==> forall i :: !OccursAt(llmChoice, "Groq", i)
  {
    ContainsAt(llmChoice, "Groq");
  }

  /** The two radio options select the two backends. */
  lemma RadioOptionGroq()
    ensures SelectBackend("Groq (Fast & Free)") == Groq
  {
    assert "Groq" <= "Groq (Fast & Free)";
  }

  lemma RadioOptionGemini()
    ensures SelectBackend("Gemini (Google)") == Gemini
  {
    var g := "Gemini (Google)";
    forall k | 0 <= k < |g| - 1
      ensures !(g[k] == 'G' && g[k + 1] == 'r')
    {
      if k == 0 {
        assert g[1] == 'e';
      } else if k == 8 {
        assert g[9] == 'o';
      } else {
        assert g[k] != 'G';
      }
    }
    NotContainsPair(g, "Groq");
  }

  /** What a summariser is given: the transcript list, or a prompt string. */
  datatype Prompt = TranscriptPrompt(chunks: seq<Chunk>) | TextPrompt(text: string)

  /** The outside world of one run: the working directory, the ffmpeg process, the speech and
      speaker models applied to the audio file, the summarisers (which return their text or
      their own error text and never raise), Python's rendering of a float, the vector store's
      verdict on a collection name (`None` when accepted, or the error it raises), and whether
      embedding or adding a chunk raises. */
  datatype Services = Services(
    cwd: string,
    runFfmpeg: seq<string> -> RunOutcome,
    recognise: string -> Recognition,
    diarize: string -> Diarization,
    summarize: (Backend, Prompt) -> string,
    render: real -> string,
    rejectsName: string -> Option<string>,
    storeFault: StoreFault)

  /** The temporary upload: a fresh name in the temporary directory carrying the upload's
      suffix. */
  function TempPath(tmpBase: string, uploadName: string): string {
    tmpBase + Suffix(uploadName)
  }

  /** Stage 2's result, when stage 1 returned `audioPath`. */
  function TranscriptOf(audioPath: Result<string, string>, sv: Services): Result<seq<Chunk>, string> {
    match audioPath
    case Failure(e) => Failure(e)
    case Success(a) => Transcribed(sv.recognise(a))
  }

  /** The five stages in order; the first exception ends the run with its message. Speaker
      detection and summarising never raise. */
  function Pipeline(uploadName: string, tmpPath: string, llmChoice: string, sv: Services): Result<MeetingRecord, string> {
    var audioPath := ExtractAudio(tmpPath, sv.cwd, sv.runFfmpeg);
    match TranscriptOf(audioPath, sv)
    case Failure(e) => Failure(e)
    case Success(transcript) =>
      var speakers := Detected(sv.diarize(audioPath.value), transcript);
      var summary := sv.summarize(SelectBackend(llmChoice), TranscriptPrompt(transcript));
      match StoreResult(transcript, sv.rejectsName(CollectionName(uploadName)), sv.storeFault)
      case Failure(e) => Failure(e)
      case Success(_) => Success(MeetingRecord(uploadName, transcript, summary, speakers))
  }

  /** A run produces a record exactly when extraction, transcription and storing all return
      (storing includes the store accepting the collection name);
      the record holds the upload's own name, one chunk per recognised segment, the profiles
      of the diarization of the extracted audio, and the summary of the chosen backend. */
  lemma PipelineSuccess(uploadName: string, tmpPath: string, llmChoice: string, sv: Services)
    ensures var audio := ExtractAudio(tmpPath, sv.cwd, sv.runFfmpeg);
      var r := Pipeline(uploadName, tmpPath, llmChoice, sv);
      (r.Success? <==>
        audio.Success? && sv.recognise(audio.value).failure.None? &&
        sv.rejectsName(CollectionName(uploadName)).None? &&
        StopIndex(Transcribed(sv.recognise(audio.value)).value, sv.storeFault) ==
          |sv.recognise(audio.value).segments|) &&
      (r.Success? ==>
        audio.value == OutputPath(tmpPath) &&
        r.value.filename == uploadName &&
        |r.value.transcript| == |sv.recognise(audio.value).segments| &&
        r.value.speakers == Detected(sv.diarize(audio.value), r.value.transcript) &&
        r.value.summary == sv.summarize(SelectBackend(llmChoice), TranscriptPrompt(r.value.transcript)))
  {
    var audio := ExtractAudio(tmpPath, sv.cwd, sv.runFfmpeg);
    ExtractAudioOutcome(tmpPath, sv.cwd, sv.runFfmpeg);
  }

  /** A failed run reports the message of the stage that raised: extraction's message, the
      transcription error, the store's refusal of the collection name (whatever the transcript
      holds), or the exception of embedding or adding a chunk. */
  lemma PipelineFailure(uploadName: string, tmpPath: string, llmChoice: string, sv: Services)
    ensures var audio := ExtractAudio(tmpPath, sv.cwd, sv.runFfmpeg);
      var r := Pipeline(uploadName, tmpPath, llmChoice, sv);
      r.Failure? ==>
        (audio.Failure? && r.error == audio.error && ClassifyError(r.error).Some?) ||
        (audio.Success? && sv.recognise(audio.value).failure.Some? &&
         r.error == "Transcription error: " + sv.recognise(audio.value).failure.value) ||
        (audio.Success? && sv.recognise(audio.value).failure.None? &&
         sv.rejectsName(CollectionName(uploadName)).Some? &&
         r.error == sv.rejectsName(CollectionName(uploadName)).value) ||
        (audio.Success? && sv.recognise(audio.value).failure.None? &&
         sv.rejectsName(CollectionName(uploadName)).None? && sv.storeFault.FailsAt? &&
         r.error == sv.storeFault.cause)
  {
    ExtractAudioOutcome(tmpPath, sv.cwd, sv.runFfmpeg);
  }

  /** With zero turns the record has no profiles; when diarization fails it has the single
      fallback profile. */
  lemma PipelineSpeakers(uploadName: string, tmpPath: string, llmChoice: string, sv: Services)
    ensures var r := Pipeline(uploadName, tmpPath, llmChoice, sv);
      r.Success? ==>
        (sv.diarize(OutputPath(tmpPath)) == Diarized([]) ==> r.value.speakers == []) &&
        (sv.diarize(OutputPath(tmpPath)) == DiarizationFailed ==>
          |r.value.speakers| == 1 && r.value.speakers[0].name == "Speaker 1" &&
          r.value.speakers[0].duration == Unknown)
  {
    ExtractAudioOutcome(tmpPath, sv.cwd, sv.runFfmpeg);
  }

  /** How a processing run ended on screen. */
  datatype RunEnd = Processed | ErrorShown(message: string)

  /** The files on disk that the app creates and removes. */
  class Disk {
    var files: set<string>

    constructor(files: set<string>)
      ensures this.files == files
    {
      this.files := files;
    }
  }

  /** The browser session: the committed meeting record (`None` before the first successful
      run) and the vector store created once per session. */
  class Session {
    var meetingData: Option<MeetingRecord>
    const chroma: ChromaClient

    constructor()
      ensures meetingData == None && fresh(chroma) && chroma.collections == map[]
    {
      meetingData := None;
      chroma := new ChromaClient();
    }

    /** The "Process Video" button. The upload is written to `tmpPath`, then the stages run;
        `meeting_data` is replaced only when all of them return, and otherwise an error is
        shown and the previous record stays. The `finally` block always removes the upload
        and removes the extracted audio when extraction returned; when it did not,
        `audio_path` is still None and `os.path.exists(None)` raises a TypeError out of the
        `finally` (`cleanupRaised`). */
    method ProcessUpload(disk: Disk, uploadName: string, tmpBase: string, llmChoice: string, sv: Services)
      returns (end: RunEnd, cleanupRaised: bool)
      requires TempPath(tmpBase, uploadName) !in disk.files
      modifies this, disk, chroma
      ensures var r := Pipeline(uploadName, TempPath(tmpBase, uploadName), llmChoice, sv);
        (end == if r.Success? then Processed else ErrorShown("❌ Error: " + r.error)) &&
        meetingData == (if r.Success? then Some(r.value) else old(meetingData))
      ensures var audio := ExtractAudio(TempPath(tmpBase, uploadName), sv.cwd, sv.runFfmpeg);
        cleanupRaised == audio.Failure? &&
        disk.files == old(disk.files) - {TempPath(tmpBase, uploadName)} - (if audio.Success? then {audio.value} else {})
      ensures var t := TranscriptOf(ExtractAudio(TempPath(tmpBase, uploadName), sv.cwd, sv.runFfmpeg), sv);
        var name := CollectionName(uploadName);
        chroma.collections ==
          if t.Success? && sv.rejectsName(name).None? then
            old(chroma.collections)[name := old(chroma.Contents(name)) +
                                    Stored(uploadName, t.value[..StopIndex(t.value, sv.storeFault)], sv.render)]
          else old(chroma.collections)
    {
      var tmpPath := tmpBase + Suffix(uploadName);
      disk.files := disk.files + {tmpPath};
      var audioPath, failure := RunStages(disk, uploadName, tmpPath, llmChoice, sv);
      end := if failure.Some? then ErrorShown("❌ Error: " + failure.value) else Processed;
      disk.files := disk.files - {tmpPath};
      if audioPath.None? {
        cleanupRaised := true;
      } else {
        cleanupRaised := false;
        if audioPath.value in disk.files {
          disk.files := disk.files - {audioPath.value};
        }
      }
    }

    /** The `try` block of "Process Video": the five stages in order, stopping at the first
        exception. `audio_path` is set once extraction returns, and the extracted file then
        exists; the record is committed only when every stage returns. */
    method RunStages(disk: Disk, uploadName: string, tmpPath: string, llmChoice: string, sv: Services)
      returns (audioPath: Option<string>, failure: Option<string>)
      modifies this, disk, chroma
      ensures var r := Pipeline(uploadName, tmpPath, llmChoice, sv);
        failure == (if r.Success? then None else Some(r.error)) &&
        meetingData == (if r.Success? then Some(r.value) else old(meetingData))
      ensures var audio := ExtractAudio(tmpPath, sv.cwd, sv.runFfmpeg);
        audioPath == (if audio.Success? then Some(audio.value) else None) &&
        disk.files == old(disk.files) + (if audio.Success? then {audio.value} else {})
      ensures var t := TranscriptOf(ExtractAudio(tmpPath, sv.cwd, sv.runFfmpeg), sv);
        var name := CollectionName(uploadName);
        chroma.collections ==
          if t.Success? && sv.rejectsName(name).None? then
            old(chroma.collections)[name := old(chroma.Contents(name)) +
                                    Stored(uploadName, t.value[..StopIndex(t.value, sv.storeFault)], sv.render)]
          else old(chroma.collections)
    {
      audioPath, failure := None, None;
      var extracted := ExtractAudio(tmpPath, sv.cwd, sv.runFfmpeg);
      if extracted.Failure? {
        failure := Some(extracted.error);
        return;
      }
      audioPath := Some(extracted.value);
      disk.files := disk.files + {extracted.value};
      var transcribed := TranscribeAudio(sv.recognise(extracted.value));
      if transcribed.Failure? {
        failure := Some(transcribed.error);
        return;
      }
      var transcript := transcribed.value;
      var speakersInfo := DetectSpeakers(sv.diarize(extracted.value), transcript);
      var summary := sv.summarize(SelectBackend(llmChoice), TranscriptPrompt(transcript));
      var stored := chroma.EmbedAndStore(transcript, uploadName, sv.render, sv.rejectsName, sv.storeFault);
      if stored.Failure? {
        failure := Some(stored.error);
        return;
      }
      meetingData := Some(MeetingRecord(uploadName, transcript, summary, speakersInfo));
    }

    /** The search tab: the search runs only with a committed record, a non-empty query and
        the button pressed, on the collection of the record's file name; an exception of the
        store (a refused name) is not caught and ends the script with that error. */
    method SearchTab(query: string, clicked: bool, rejects: string -> Option<string>,
                     respond: (seq<Entry>, string, nat) -> QueryResponse)
      returns (shown: Option<Result<seq<string>, string>>)
      modifies chroma
      ensures shown.Some? <==> old(meetingData).Some? && query != "" && clicked
      ensures shown.Some? ==>
        var name := CollectionName(meetingData.value.filename);
        if rejects(name).Some? then
          shown.value == Failure(rejects(name).value) && chroma.collections == old(chroma.collections)
        else
          shown.value == Success(FirstDocuments(respond(old(chroma.Contents(name)), query, SearchResults))) &&
          chroma.collections == old(chroma.collections)[name := old(chroma.Contents(name))]
      ensures shown.None? ==> chroma.collections == old(chroma.collections)
    {
      if meetingData.Some? && query != "" && clicked {
        var docs := chroma.Search(query, meetingData.value.filename, rejects, respond);
        shown := Some(docs);
      } else {
        shown := None;
      }
    }
  }

  /** `"\n".join(parts)` */
  function Join(parts: seq<string>): string {
    if |parts| == 0 then ""
    else if |parts| == 1 then parts[0]
    else Join(parts[..|parts| - 1]) + "\n" + parts[|parts| - 1]
  }

  /** `s.split("\n")` */
  function Split(s: string): (parts: seq<string>)
    ensures |parts| >= 1
  {
    if s == [] then [""]
    else
      var init := Split(s[..|s| - 1]);
      if s[|s| - 1] == '\n' then init + [""]
      else init[..|init| - 1] + [init[|init| - 1] + [s[|s| - 1]]]
  }

  predicate NoNewline(s: string) {
    forall i :: 0 <= i < |s| ==> s[i] != '\n'
  }

  /** Appending text without a line break extends the last piece. */
  lemma {:induction false} SplitExtend(s: string, t: string)
    requires NoNewline(t)
    ensures var p := Split(s); Split(s + t) == p[..|p| - 1] + [p[|p| - 1] + t]
  {
    var p := Split(s);
    if t == [] {
      assert s + t == s;
      assert p[|p| - 1] + t == p[|p| - 1];
      assert p[..|p| - 1] + [p[|p| - 1]] == p;
    } else {
      var init, c := t[..|t| - 1], t[|t| - 1];
      assert Split(s + t) == Split((s + init) + [c]) by {
        assert s + t == (s + init) + [c];
      }
      SplitSnoc(s + init, c);
      SplitExtend(s, init);
      ExtendTwice(p, init, [c]);
      assert init + [c] == t;
    }
  }

  /** Extending the last piece twice extends it once by both texts. */
  lemma ExtendTwice(p: seq<string>, x: string, y: string)
    requires |p| >= 1
    ensures var q := p[..|p| - 1] + [p[|p| - 1] + x];
      q[..|q| - 1] + [q[|q| - 1] + y] == p[..|p| - 1] + [p[|p| - 1] + (x + y)]
  {
    var q := p[..|p| - 1] + [p[|p| - 1] + x];
    assert q[..|q| - 1] == p[..|p| - 1];
    assert q[|q| - 1] + y == p[|p| - 1] + (x + y);
  }

  /** A text without a line break is a single piece. */
  lemma SingleLine(t: string)
    requires NoNewline(t)
    ensures Split(t) == [t]
  {
    SplitExtend("", t);
    assert "" + t == t;
  }

  /** Splitting a text with one more character: a break opens a new piece, anything else
      extends the last one. */
  lemma SplitSnoc(x: string, c: char)
    ensures var p := Split(x);
      Split(x + [c]) == if c == '\n' then p + [""] else p[..|p| - 1] + [p[|p| - 1] + [c]]
  {
    assert (x + [c])[..|x|] == x;
  }

  /** A line break splits a text exactly where it stands: the pieces before it, then the
      pieces after it. */
  lemma {:induction false} SplitAtBreak(a: string, s: string)
    ensures Split(a + "\n" + s) == Split(a) + Split(s)
    decreases |s|
  {
    if s == [] {
      assert Split(a + "\n" + s) == Split(a + ['\n']) by {
        assert a + "\n" + s == a + ['\n'];
      }
      SplitSnoc(a, '\n');
    } else {
      var init, c := s[..|s| - 1], s[|s| - 1];
      var x := a + "\n" + init;
      assert Split(a + "\n" + s) == Split(x + [c]) by {
        assert a + "\n" + s == x + [c];
      }
      assert Split(s) == Split(init + [c]) by {
        assert s == init + [c];
      }
      SplitAtBreak(a, init);
      SplitSnoc(x, c);
      SplitSnoc(init, c);
      var p, q := Split(a), Split(init);
      if c != '\n' {
        ExtendLast(p, q, [c]);
      }
    }
  }

  /** Extending the last of the pieces q, placed after p, extends the last of p + q. */
  lemma ExtendLast(p: seq<string>, q: seq<string>, x: string)
    requires |q| >= 1
    ensures (p + q)[..|p + q| - 1] + [(p + q)[|p + q| - 1] + x] == p + (q[..|q| - 1] + [q[|q| - 1] + x])
  {
    assert (p + q)[..|p + q| - 1] == p + q[..|q| - 1];
  }

  /** A first line without a break, then a break, splits off as one piece. */
  lemma FirstLine(head: string, rest: string)
    requires NoNewline(head)
    ensures Split(head + "\n" + rest) == [head] + Split(rest)
  {
    SingleLine(head);
    SplitAtBreak(head, rest);
  }

  /** Joining lines without line breaks and splitting again gives the lines back. */
  lemma {:induction false} SplitJoin(parts: seq<string>)
    requires |parts| >= 1 && forall k :: 0 <= k < |parts| ==> NoNewline(parts[k])
    ensures Split(Join(parts)) == parts
  {
    var last := parts[|parts| - 1];
    SingleLine(last);
    if |parts| > 1 {
      var init := parts[..|parts| - 1];
      SplitJoin(init);
      assert Split(Join(parts)) == Split(Join(init) + "\n" + last);
      SplitAtBreak(Join(init), last);
      assert parts == init + [last];
    }
  }

  /** The lines of the export: each chunk's text, "" when missing. */
  function Texts(transcript: seq<Chunk>): (texts: seq<string>)
    ensures |texts| == |transcript|
    ensures forall k :: 0 <= k < |transcript| ==> texts[k] == TextOf(transcript[k])
  {
    if transcript == [] then [] else Texts(transcript[..|transcript| - 1]) + [TextOf(transcript[|transcript| - 1])]
  }

  /** The exported transcript: the chunk texts joined by line breaks, with no header. */
  function TranscriptText(transcript: seq<Chunk>): string {
    Join(Texts(transcript))
  }

  /** The export reads back line by line as the chunk texts when no text holds a line break. */
  lemma TranscriptTextLines(transcript: seq<Chunk>)
    requires |transcript| >= 1 && forall k :: 0 <= k < |transcript| ==> NoNewline(TextOf(transcript[k]))
    ensures Split(TranscriptText(transcript)) == Texts(transcript)
  {
    SplitJoin(Texts(transcript));
  }

  /** The empty transcript exports as "", a single chunk as its text. */
  lemma TranscriptTextSmall(c: Chunk)
    ensures TranscriptText([]) == ""
    ensures TranscriptText([c]) == TextOf(c)
  {
    assert Texts([c]) == [TextOf(c)] by {
      assert [c][..0] == [];
    }
  }

  /** f"Extract action items from this summary:\n{summary}" */
  function ActionPrompt(summary: string): string {
    ActionRequest + "\n" + summary
  }

  /** The fixed request of the action prompt. */
  const ActionRequest: string := "Extract action items from this summary:"

  /** The action prompt reads, line by line, as the fixed request followed by the summary's
      own lines. */
  lemma ActionPromptLines(summary: string)
    ensures Split(ActionPrompt(summary)) == [ActionRequest] + Split(summary)
  {
    assert NoNewline(ActionRequest) by {
      forall i | 0 <= i < |ActionRequest|
        ensures ActionRequest[i] != '\n'
      {
      }
    }
    assert ActionPrompt(summary) == ActionRequest + "\n" + summary;
    FirstLine(ActionRequest, summary);
  }

  /** f"{filename}_transcript.txt" */
  function DownloadName(filename: string): string {
    filename + "_transcript.txt"
  }

  /** The download name gives back the file name it was made from: stripping the fixed
      ending recovers it, so two recordings never share a download name. */
  lemma DownloadNameRecovers(f: string, g: string)
    ensures DownloadName(f)[..|f|] == f
    ensures |DownloadName(f)| == |f| + 15
    ensures DownloadName(f) == DownloadName(g) <==> f == g
  {
    if DownloadName(f) == DownloadName(g) {
      assert |f| == |g|;
      assert DownloadName(f)[..|f|] == f && DownloadName(g)[..|g|] == g;
    }
  }

  /** What the summary tab shows for a committed record. */
  datatype SummaryView = SummaryView(summary: string, filename: string, actions: string,
                                     transcriptText: string, downloadName: string)

  /** The summary tab: nothing without a record; otherwise the summary, the action items the
      chosen backend returns for the action prompt, and the transcript export. */
  function SummaryTab(data: Option<MeetingRecord>, llmChoice: string, summarize: (Backend, Prompt) -> string)
    : Option<SummaryView>
  {
    match data
    case None => None
    case Some(m) =>
      Some(SummaryView(m.summary, m.filename, summarize(SelectBackend(llmChoice), TextPrompt(ActionPrompt(m.summary))),
                       TranscriptText(m.transcript), DownloadName(m.filename)))
  }

  /** The action prompt ends with the summary after one fixed first line, and the download
      name keeps the file name whole; both backends are asked by the same rule as the run. */
  lemma SummaryTabSpec(data: Option<MeetingRecord>, llmChoice: string, summarize: (Backend, Prompt) -> string)
    ensures SummaryTab(data, llmChoice, summarize).Some? <==> data.Some?
    ensures data.Some? ==>
      var v := SummaryTab(data, llmChoice, summarize).value;
      var prompt := ActionPrompt(data.value.summary);
      prompt[..40] == "Extract action items from this summary:\n" && prompt[40..] == data.value.summary &&
      v.actions == summarize(SelectBackend(llmChoice), TextPrompt(prompt)) &&
      v.downloadName[..|data.value.filename|] == data.value.filename &&
      v.downloadName[|data.value.filename|..] == "_transcript.txt"
  {
  }

  /** The speaker tab: the profiles when there is a record with a non-empty list. */
  function SpeakersTab(data: Option<MeetingRecord>): Option<seq<Profile>> {
    if data.Some? && data.value.speakers != [] then Some(data.value.speakers) else None
  }

  /** After a successful run, the speaker tab shows the fallback profile when diarization
      failed and shows nothing when it produced no turns. */
  lemma SpeakersTabAfterRun(uploadName: string, tmpPath: string, llmChoice: string, sv: Services)
    requires Pipeline(uploadName, tmpPath, llmChoice, sv).Success?
    ensures var data := Some(Pipeline(uploadName, tmpPath, llmChoice, sv).value);
      (sv.diarize(OutputPath(tmpPath)) == DiarizationFailed ==>
        SpeakersTab(data).Some? && |SpeakersTab(data).value| == 1) &&
      (sv.diarize(OutputPath(tmpPath)) == Diarized([]) ==> SpeakersTab(data).None?)
  {
    PipelineSpeakers(uploadName, tmpPath, llmChoice, sv);
  }
}
