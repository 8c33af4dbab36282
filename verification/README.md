# VisionMeet AI: a Dafny model of the meeting-processing glue

VisionMeet AI is a Streamlit app. It takes an uploaded meeting recording and works in five steps:

1. It extracts a 16 kHz mono track with ffmpeg.
2. It transcribes that track with faster-whisper into timestamped chunks.
3. It attributes speakers with pyannote.
4. It summarises the transcript with Groq or Gemini.
5. It indexes the chunks in an in-memory Chroma store so the meeting can be searched.

Almost every step is one call into a model or service. This project models the code around
those calls. Each foreign call becomes an input: recognised segments with an optional failure,
diarization turns or a failure, the ffmpeg process outcome, the summariser's text, a store fault,
the store's verdict on a collection name and the store's query answer. The project then proves what the app does with those inputs.

Modules, one per file:

- `Wrappers` (`wrappers.dfy`): `Option` and `Result`. A raised exception is a `Failure`
  carrying its message.
- `Text` (`text.dfy`): decimal rendering of integers and its inverse, and Python's substring
  test `t in s`.
- `Records` (`records.dfy`): the transcript chunk dict, whose keys may be missing (`.get`
  defaults), and Python's `int()` on a float, which truncates toward zero.
- `Transcription` (`transcription.dfy`): the segment-to-record loop and the `[MM:SS]` label.
- `SpeakerDetection` (`speaker_detection.dfy`): the two loops of `detect_speakers` as methods
  over an insertion-ordered map, proved against a fold over the turns. Also the fallback
  record.
- `VectorSearch` (`vector_search.dfy`):
  - the collection-name sanitiser;
  - store mode, a loop over a `ChromaClient` object whose collections are append-only logs;
  - search-result extraction.
- `VideoProcessor` (`video_processor.dfy`):
  - output-path derivation with Windows `pathlib` rules;
  - the `ffmpeg.exe` location;
  - the argument vector, checked against an ffmpeg option reader;
  - the three error messages.
- `App` (`app.dfy`):
  - the processing run, as a `Session` method that commits the meeting record only when every
    stage returns and that always removes the temporary upload;
  - backend selection;
  - the summary, search and speaker tabs;
  - the transcript export.

## Model

| member | source | states |
|---|---|---|
| `Records.Trunc` | services/speaker_detection.py:29 | `int(x)` rounds toward zero: for x ≥ 0 the result is the floor, and for x < 0 the ceiling. |
| `Transcription.TranscribeAudio` | services/transcription.py:13-25 | One record per segment, in order, with start, end and text copied and the label of its start. Any failure gives `Failure("Transcription error: " + cause)` and no partial list. |
| `Transcription.TimestampLabel` | services/transcription.py:19 | The `[MM:SS]` label of a start time; its properties are the lemmas below. |
| `Transcription.FloorDivMod` | services/transcription.py:19 | Float `start // 60` is ⌊start⌋ div 60, and `int(start % 60)` is ⌊start⌋ mod 60, for every start. |
| `Transcription.LabelParts` | services/transcription.py:19 | The label is "[" + pad(⌊start⌋ div 60) + ":" + pad(⌊start⌋ mod 60) + "]". |
| `Transcription.Pad02Digits` | services/transcription.py:19 | For n ≥ 0, `:02d` gives digits that read back as n: at least two of them, and exactly two iff n < 100. |
| `Transcription.LabelRoundTrip` | services/transcription.py:19 | For start ≥ 0 the label parses back to (⌊start⌋ div 60, ⌊start⌋ mod 60). Seconds are 00..59. The label has 7 characters iff start < 6000 (minutes grow past two digits). |
| `Transcription.LabelMonotone` | services/transcription.py:19 | For 0 ≤ s1 ≤ s2 the parsed labels are ordered lexicographically. |
| `Transcription.LabelExampleMinutes` | services/transcription.py:19 | 125.4 s gives "[02:05]". |
| `Transcription.LabelExampleStart` | services/transcription.py:19 | 0 s gives "[00:00]". |
| `SpeakerDetection.Detected` | services/speaker_detection.py:7-49 | The result of `detect_speakers` as a function of the diarization outcome and the transcript; `DetectedShape` and the lemmas below state its properties. |
| `SpeakerDetection.Fallback` | services/speaker_detection.py:40-49 | The profile returned when any step of diarization raises. |
| `SpeakerDetection.DetectSpeakers` | services/speaker_detection.py:7-49 | The returned list equals `Detected`: the fallback on failure, otherwise one profile per distinct label in first-appearance order. |
| `SpeakerDetection.TallyTurns` | services/speaker_detection.py:19-30 | The map's insertion order is the distinct labels. The k-th entry is "Speaker k+1", with that label's truncated duration sum and turn count and an empty sample. |
| `SpeakerDetection.Enrol` | services/speaker_detection.py:21-27 | A turn's label, if not yet in the map, is appended to the insertion order with the entry "Speaker n+1" (n entries so far) and zero counts. The order then lists the labels including this turn, and every entry still holds the counts of the earlier turns. |
| `SpeakerDetection.Admit` | services/speaker_detection.py:21 | A label already in the map needs no new entry: the label list after the turn is unchanged, and the entry holds numbers to add to. |
| `SpeakerDetection.Insert` | services/speaker_detection.py:21-27 | A new label's zero entry is its duration and count before the turn, and it sits at the position that its name gives. |
| `SpeakerDetection.SnocTurn` | services/speaker_detection.py:20-21 | One more turn appends its label to the distinct labels iff the label is new. |
| `SpeakerDetection.SnocCounts` | services/speaker_detection.py:29-30 | One more turn adds its truncated seconds and one segment to its own label's counts, and nothing to any other label's. |
| `SpeakerDetection.EntryStep` | services/speaker_detection.py:29-30 | The two `+=` lines turn an entry holding the counts before a turn into one holding the counts after it, for the turn's own label. Other entries are already right. |
| `SpeakerDetection.Grow` | services/speaker_detection.py:29-30 | After the two `+=` lines, the map holds the tally of the turns so far including this one. |
| `SpeakerDetection.TalliedWhole` | services/speaker_detection.py:19-30 | After the last turn, the order is the distinct labels, and each entry holds its label's duration sum and turn count over all turns. |
| `SpeakerDetection.FillSamples` | services/speaker_detection.py:33-36 | Every entry whose sample was "" ends with the first non-empty text of `transcript[:3]`, the same for all entries. Nothing else changes. |
| `SpeakerDetection.FirstIndex` | services/speaker_detection.py:21 | The first turn carrying a label: it carries it and no earlier turn does. |
| `SpeakerDetection.FirstIndexListed` | services/speaker_detection.py:21 | A label is listed iff some turn carries it. |
| `SpeakerDetection.LabelsFresh` | services/speaker_detection.py:21-27 | A label not seen yet has zero turns and zero duration, matching the new entry's zeros. |
| `SpeakerDetection.LabelsDistinct` | services/speaker_detection.py:19-27 | Each label is listed once: exactly one profile per distinct label. |
| `SpeakerDetection.LabelsCover` | services/speaker_detection.py:19-30 | Every turn's label is listed, and every listed label has at least one turn. |
| `SpeakerDetection.SegmentsAtFirst` | services/speaker_detection.py:30 | A label carried by some turn has a positive count. |
| `SpeakerDetection.LabelsInFirstAppearanceOrder` | services/speaker_detection.py:19-38 | Profiles come in the order of their labels' first turns. |
| `SpeakerDetection.SumSegmentsSnoc` | services/speaker_detection.py:30 | One more turn adds one to the summed counts iff its label is listed. |
| `SpeakerDetection.SegmentsAddUp` | services/speaker_detection.py:30 | The profiles' segment counts add up to the number of turns. |
| `SpeakerDetection.DurationNonNegative` | services/speaker_detection.py:29 | When every turn has end ≥ start, every duration is a non-negative integer. |
| `SpeakerDetection.SpeakerNamesDistinct` | services/speaker_detection.py:23 | "Speaker j" = "Speaker k" iff j = k. |
| `SpeakerDetection.FirstNonEmptySnoc` | services/speaker_detection.py:34-36 | One more chunk changes the sample only while it is still "". |
| `SpeakerDetection.FirstNonEmptyIsEarliest` | services/speaker_detection.py:33-36 | The sample is "" iff no chunk has text; otherwise it is the text of the earliest chunk that has some. |
| `SpeakerDetection.DetectedShape` | services/speaker_detection.py:19-49 | Failure gives exactly one "Speaker 1" profile: both counts "Unknown", sample from `transcript[0]` or "". Success gives one "Speaker k" per label with a positive count and the shared sample. Zero turns give [], not the fallback. |
| `VectorSearch.Replace` | services/vector_search.py:15 | `str.replace` of one character: same length, every occurrence replaced in place, all else unchanged. |
| `VectorSearch.CollectionName` | services/vector_search.py:15 | The collection name built from the meeting name; `CollectionNameShape` states what it is. |
| `VectorSearch.CollectionNameShape` | services/vector_search.py:15 | The name is the first min(\|m\|, 50) characters with '.' and ' ' each turned into '_' in place, and holds no '.' or ' '. |
| `VectorSearch.SameCollection` | services/vector_search.py:15 | Two meetings share a collection iff their first 50 characters agree after replacement. |
| `VectorSearch.CollectionNameIdempotent` | services/vector_search.py:15 | Sanitising twice equals sanitising once. |
| `VectorSearch.CollectionNameExamples` | services/vector_search.py:15 | "a.b" and "a b" collide, so the sanitiser is not injective; "a. b" gives "a__b", so runs are not collapsed. |
| `VectorSearch.CollectionNameOfUpload` | services/vector_search.py:15 | "Team Sync 2024.mp4" gives "Team_Sync_2024_mp4". |
| `VectorSearch.EntryFor` | services/vector_search.py:24-29 | The entry one chunk with text is stored as: id, document and timestamp metadata. |
| `VectorSearch.Stored` | services/vector_search.py:20-29 | The entries store mode adds for a list of chunks; the lemmas below state its properties. |
| `VectorSearch.StoredSnoc` | services/vector_search.py:20-29 | One more chunk adds its entry when it has text, and nothing otherwise. |
| `VectorSearch.StoredAppend` | services/vector_search.py:20-29 | Storing a transcript in two parts adds what storing it at once adds. |
| `VectorSearch.StoredAt` | services/vector_search.py:20-29 | Every chunk with text is stored, at its place in transcript order. |
| `VectorSearch.StoredFromChunks` | services/vector_search.py:20-29 | Only chunks with text are stored. Each entry has a non-empty document and an id starting with the raw meeting name and "_". |
| `VectorSearch.StoredCount` | services/vector_search.py:20-22 | One entry per chunk with text; all chunks are stored iff none is empty. |
| `VectorSearch.EntryExample` | services/vector_search.py:27-28 | A chunk without start or timestamp is stored as id "<raw name>_0" with timestamp "", while the collection uses the sanitised name. |
| `VectorSearch.StoreResult` | services/vector_search.py:14-29 | Definition of how store mode ends, used by the pipeline: the store's refusal of the name, else the faulting chunk's exception, else success. `ChromaClient.EmbedAndStore` is proved to end this way. |
| `VectorSearch.RefusedNameFailsEmptyStore` | services/vector_search.py:14-22 | A refused name fails store mode even when no chunk has text, while an accepted name with no text always succeeds. |
| `VectorSearch.StopIndex` | services/vector_search.py:20-29 | Definition of the position where storing stops: the faulting chunk if it exists and has text, else the end. `ChromaClient.EmbedAndStore`'s loop, which skips chunks without text, is proved to stop there. |
| `VectorSearch.FirstDocuments` | services/vector_search.py:38 | Missing, None or empty "documents" gives []; otherwise the first list. |
| `VectorSearch.SearchBounded` | services/vector_search.py:33-38 | If the store honours `n_results`, a search returns at most 5 documents, all from the first list. |
| `VectorSearch.ChromaClient.constructor` | services/vector_search.py:7-9 | A new client has no collections. |
| `VectorSearch.ChromaClient.GetOrCreateCollection` | services/vector_search.py:14-16 | A name the store refuses raises its error and changes nothing. An accepted name gets an empty collection if it has none, and an existing one is kept unchanged. |
| `VectorSearch.ChromaClient.Add` | services/vector_search.py:24-29 | Appends one entry to one collection; nothing else changes. |
| `VectorSearch.ChromaClient.EmbedAndStore` | services/vector_search.py:14-29 | Fails iff the collection name is refused or the fault is at a chunk with text; a fault at a chunk without text is never met, since such chunks are skipped. The error is the store's refusal, else the chunk's cause. A refused collection name raises before any chunk is looked at and changes nothing. Otherwise the meeting's collection gains the entries of the chunks with text, in order, up to a faulting chunk. A fault propagates with its cause, and what was added stays. Other collections are unchanged. |
| `VectorSearch.ChromaClient.StoreChunks` | services/vector_search.py:19-29 | The loop over all chunks, skipping those without text, fails iff the fault is at a chunk with text, with that fault's cause. The collection gains the entries of the chunks with text before the fault, in order; no other collection changes. |
| `VectorSearch.ChromaClient.Search` | services/vector_search.py:14-38 | A refused collection name raises its error and changes nothing. Otherwise it creates the collection if missing, then returns the first document list of the answer to a query over its entries, with 5 results requested. |
| `VideoProcessor.Name` | services/video_processor.py:9 | `PurePath(p).name`: the last component after trailing separators and "." components are dropped; it holds no separator. |
| `VideoProcessor.Suffix` | services/video_processor.py:9 | `PurePath(p).suffix`: from the name's last dot when that dot is neither first nor last, else "". `StemSuffix` states its properties. |
| `VideoProcessor.Stem` | services/video_processor.py:9 | `PurePath(p).stem`: the name before its suffix. `StemSuffix` states its properties. |
| `VideoProcessor.StemSuffix` | services/video_processor.py:9 | name = stem + suffix. A suffix is "." plus at least one character and no further dot, and leaves a non-empty stem. The stem holds no separator. |
| `VideoProcessor.CutAtLastDot` | services/video_processor.py:9 | Cutting at a last dot that is neither first nor last gives a non-empty stem, then a suffix of a dot, at least one character and no further dot. |
| `VideoProcessor.NameAfterDirectory` | services/video_processor.py:9 | The name of directory + file is the file. |
| `VideoProcessor.StemExamples` | services/video_processor.py:9 | "C:\t\a.mp4" has stem "a"; "x/a.b.gz" has stem "a.b" and suffix ".gz". |
| `VideoProcessor.StemExampleDotFile` | services/video_processor.py:9 | ".mp4" is all stem. |
| `VideoProcessor.StemExampleTrailingDot` | services/video_processor.py:9 | "a." has no suffix. |
| `VideoProcessor.StemExampleTrailingSeparator` | services/video_processor.py:9 | A trailing separator is dropped: "d/a.mov/" has stem "a". |
| `VideoProcessor.OutputPath` | services/video_processor.py:9 | The output file name derived from the input's stem. |
| `VideoProcessor.WrapStem` | services/video_processor.py:9 | Wrapping a stem as "temp_audio_" + stem + ".wav" is injective and adds no separator. |
| `VideoProcessor.OutputPathShared` | services/video_processor.py:9 | Two inputs get the same output file iff they have the same stem; the output is a bare name in the working directory. |
| `VideoProcessor.OutputPathOfRecording` | services/video_processor.py:9 | "a\talk.mp4" gives "temp_audio_talk.wav". |
| `VideoProcessor.OutputPathOfTrack` | services/video_processor.py:9 | "b/talk.wav" gives "temp_audio_talk.wav". |
| `VideoProcessor.FfmpegExe` | services/video_processor.py:13 | The ffmpeg binary path, joined to the working directory as `ntpath.join` does. |
| `VideoProcessor.FfmpegInWorkingDirectory` | services/video_processor.py:13 | The binary path is the working directory followed by "ffmpeg.exe", with at most one added separator. Its name is "ffmpeg.exe" unless the directory is a bare drive. |
| `VideoProcessor.Command` | services/video_processor.py:16-24 | The argument vector passed to ffmpeg. |
| `VideoProcessor.ExtractAudio` | services/video_processor.py:9-35 | `extract_audio_from_video` as a function of the ffmpeg outcome; `ExtractAudioOutcome` states its results. |
| `VideoProcessor.CommandSettings` | services/video_processor.py:16-24 | The 11-word command reads, for any input path, as: that input, 16000 Hz, 1 channel, pcm_s16le, overwrite, the derived output file. |
| `VideoProcessor.ExtractAudioOutcome` | services/video_processor.py:9-35 | Succeeds iff the exit status is 0, returning the output path. Each failure message carries its own handler's prefix (none re-wraps another) and holds the binary path, the stderr or the cause. |
| `Text.ContainsAt` | app.py:100 | `t in s` holds iff some position of s starts a copy of t. |
| `App.SelectBackend` | app.py:100-103 | The backend chosen from the radio option's text. |
| `App.SelectBackendSpec` | app.py:100-103 | Groq iff "Groq" occurs in the choice; Gemini otherwise. |
| `App.RadioOptionGroq` | app.py:26 | The first radio option selects Groq. |
| `App.RadioOptionGemini` | app.py:26 | The second radio option selects Gemini. |
| `App.TempPath` | app.py:69-71 | The temporary upload's path: a fresh name in the temporary directory carrying the upload's suffix. |
| `App.Pipeline` | app.py:73-117 | The five stages of a processing run, ending at the first exception. |
| `App.PipelineSuccess` | app.py:73-117 | A run yields a record iff extraction and transcription return, the store accepts the collection name, and no chunk with text faults. The record holds the upload name, one chunk per segment, the profiles of the extracted audio and the chosen backend's summary. |
| `App.PipelineFailure` | app.py:73-126 | A failed run reports the message of the stage that raised: extraction, transcription, the store's refusal of the collection name, or a chunk's embedding or add. |
| `App.PipelineSpeakers` | app.py:93 | A committed record has no profiles for zero turns, and the single fallback profile when diarization failed. |
| `App.Session.constructor` | app.py:35-39 | A new session has no meeting record and a fresh, empty store. |
| `App.Session.RunStages` | app.py:73-126 | The `try` block: on success the meeting data become the pipeline's record, and the extracted audio file is on disk and reported for cleanup. On failure the data are unchanged and the failing stage's message is reported. The store gains the transcript's chunks (up to a fault) only if transcription returned and the name was accepted. |
| `App.Session.ProcessUpload` | app.py:62-131 | The end screen and new meeting data are determined by the pipeline: the record on success, the previous value otherwise. The upload and extracted audio are removed; the TypeError from `finally` is raised exactly when extraction failed. The store changes only if transcription returned and the collection name was accepted. |
| `App.Session.SearchTab` | app.py:180-198 | Search runs iff there is a record, the query is non-empty and the button is pressed, on the record's collection. A refused name ends the tab with the store's error and leaves the store unchanged. |
| `App.SplitJoin` | app.py:163 | Joining line-break-free lines with "\n" and splitting gives them back. |
| `App.SplitSnoc` | app.py:163 | One more character either starts a new line (a line break) or extends the last line. |
| `App.SingleLine` | app.py:163 | A text without a line break is one line. |
| `App.SplitAtBreak` | app.py:163 | Splitting a + "\n" + s gives a's lines followed by s's lines. |
| `App.ActionPrompt` | app.py:151 | The action-items prompt for a summary; `ActionPromptLines` states its lines. |
| `App.ActionPromptLines` | app.py:151 | The action prompt's first line is the fixed request, and its remaining lines are exactly the summary's lines. |
| `App.Join` | app.py:163 | `"\n".join(parts)`; `SplitJoin` proves the lines come back. |
| `App.Texts` | app.py:163 | One line per chunk: its text, or "" when missing. |
| `App.TranscriptText` | app.py:163 | The exported transcript text. |
| `App.TranscriptTextLines` | app.py:163 | The export splits back into the chunk texts. |
| `App.TranscriptTextSmall` | app.py:163 | An empty transcript exports as "", and a single chunk as its text (no header). |
| `App.SummaryTab` | app.py:137-172 | What the summary tab shows for the session's record. |
| `App.SummaryTabSpec` | app.py:137-172 | The tab shows iff there is a record. The action prompt is the fixed first line then the summary, sent to the chosen backend. The download name is the file name + "_transcript.txt". |
| `App.DownloadName` | app.py:170 | The transcript download's file name; `DownloadNameRecovers` states its properties. |
| `App.DownloadNameRecovers` | app.py:170 | The download name starts with the whole file name, is 15 characters longer, and names two recordings alike iff their file names are equal. |
| `App.SpeakersTab` | app.py:206 | The profiles the speaker tab lists, or none. |
| `App.SpeakersTabAfterRun` | app.py:206 | After a run, the speaker tab shows the single fallback profile when diarization failed and nothing when there were no turns. |

## Left out

- Python's integers are unbounded, like Dafny's `int`, so no integer width is modelled.
- `services/llm_service.py` is not part of this model. The summarisers are the parameter `summarize`, which returns a string and never raises.
- The model loads and model inference are inputs:
  - WhisperModel loading and transcription are `Recognition`: the segments yielded before any exception, and that exception's message.
  - The pyannote pipeline load, the CUDA move and diarization are `Diarization`.
  - `SentenceTransformer.encode` is not modelled. Whether an encode or add raises is `StoreFault`, and whether the store refuses a collection name is `rejectsName`.
- Embedding vectors are not stored. An `Entry` holds the id, the document and the timestamp metadata only.
- Chroma's own behaviour is not modelled:
  - the collection-name rules themselves (length, allowed characters, first and last character). The store's verdict on a name is the parameter `rejectsName`. A refused name, such as "Recording_(1)_mp4" for an upload "Recording (1).mp4", makes collection creation raise;
  - what `add` does with a duplicate id. A collection is modelled as the log of its `add` calls, and the query answer `respond` is computed from that log;
  - nearest-neighbour ranking (the query answer is the parameter `respond`).
- `VectorSearch.ChromaClient.Search`: does not model an exception raised by query encoding or by the store's query. Only a refused collection name makes it fail.
- Floating point:
  - times are `real`;
  - the rounding of float `//` and `%` is not modelled;
  - Python's rendering of a float inside chunk ids is the parameter `render`.
- Path handling follows Windows `pathlib` with '/' and '\' as separators. Drive-relative names ("C:name"), UNC prefixes and a bare drive as a whole path are not treated specially. A name ending in '.' has no suffix.
- `VideoProcessor.FfmpegInWorkingDirectory`: says nothing about the name of the binary path when the working directory is a bare drive "X:". `os.getcwd()` always returns an absolute path, which is never a bare drive.
- The ffmpeg process is an outcome: exit status with stderr, executable missing, or another exception. Its audio output and any partial file it leaves after a failure are not modelled. The disk model gains the audio file only when extraction returns.
- The temporary upload's random name is the parameter `tmpBase`, assumed fresh. The upload's bytes, and the failure of `os.remove` itself (such as a file locked on Windows), are not modelled.
- `App.Session.ProcessUpload`: records the TypeError that `os.path.exists(None)` raises out of `finally` as `cleanupRaised`. What Streamlit then displays is not modelled. The model assumes that `os.path.exists(None)` raises TypeError, which holds for both the pure-Python and the native Windows implementations.
- Streamlit rendering is not modelled: page layout, sidebar text, progress bars, status lines, the audio preview, the ".2f MB" size, the LLM name in the metadata box, the expanders and the numbering of search results. The tabs are modelled by what they compute and show.
- `load_dotenv` and the environment are not modelled.
