/** Audio extraction: the output name comes from the input's stem, the ffmpeg binary is looked
    up in the working directory only, and the one subprocess call is an outcome mapped to one
    of three error messages. Paths follow Windows rules (the binary is `ffmpeg.exe`): both '/'
    and '\' separate components. */
module VideoProcessor {
  import opened Wrappers

  predicate IsSeparator(c: char) {
    c == '/' || c == '\\'
  }

  /** The position just after the last separator among the first `j` characters of `p`, or 0
      when there is none. */
  function SeparatorEnd(p: string, j: nat): (k: nat)
    requires j <= |p|
    ensures k <= j
    ensures k > 0 ==> IsSeparator(p[k - 1])
    ensures forall i :: k <= i < j ==> !IsSeparator(p[i])
    decreases j
  {
    if j == 0 then 0
    else if IsSeparator(p[j - 1]) then j
    else SeparatorEnd(p, j - 1)
  }

  /** Where the last component of `p` starts. */
  function ComponentStart(p: string): nat {
    SeparatorEnd(p, |p|)
  }

  /** `PurePath(p).name`: the last component, after dropping trailing separators and "."
      components. */
  function Name(p: string): (n: string)
    ensures forall i :: 0 <= i < |n| ==> !IsSeparator(n[i])
    decreases |p|
  {
    if p == [] then ""
    else
      var last := p[ComponentStart(p)..];
      if last == "" || last == "." then Name(p[..|p| - 1]) else last
  }

  /** The position of the last '.' among the first `j` characters of `s`, or -1. */
  function DotBefore(s: string, j: nat): (i: int)
    requires j <= |s|
    ensures -1 <= i < j
    ensures i >= 0 ==> s[i] == '.'
    ensures forall k :: i < k < j ==> s[k] != '.'
    decreases j
  {
    if j == 0 then -1
    else if s[j - 1] == '.' then j - 1
    else DotBefore(s, j - 1)
  }

  /** Python's `s.rfind('.')`. */
  function LastDot(s: string): int {
    DotBefore(s, |s|)
  }

  /** A name has a suffix when its last dot is neither its first nor its last character. */
  predicate HasSuffix(n: string) {
    0 < LastDot(n) < |n| - 1
  }

  /** `PurePath(p).suffix` */
  function Suffix(p: string): string {
    var n := Name(p);
    if HasSuffix(n) then n[LastDot(n)..] else ""
  }

  /** `PurePath(p).stem` */
  function Stem(p: string): string {
    var n := Name(p);
    if HasSuffix(n) then n[..LastDot(n)] else n
  }

  /** Cutting a name at its last dot, when that dot is neither first nor last, leaves a
      non-empty part before it and a dot, at least one character and no further dot after. */
  lemma CutAtLastDot(n: string, i: int)
    requires 0 < i < |n| - 1 && n[i] == '.'
    requires forall k :: i < k < |n| ==> n[k] != '.'
    ensures n[..i] + n[i..] == n
    ensures |n[i..]| >= 2 && n[i..][0] == '.' && '.' !in n[i..][1..] && n[..i] != ""
  {
    assert forall j :: 0 <= j < |n| - i - 1 ==> n[i..][1..][j] == n[i + 1 + j];
  }

  /** The name splits into stem and suffix; a suffix is a dot followed by at least one
      character and no further dot, and it leaves a non-empty stem; neither part holds a
      separator. */
  lemma StemSuffix(p: string)
    ensures Stem(p) + Suffix(p) == Name(p)
    ensures Suffix(p) != "" ==>
      |Suffix(p)| >= 2 && Suffix(p)[0] == '.' && '.' !in Suffix(p)[1..] && Stem(p) != ""
    ensures forall i :: 0 <= i < |Stem(p)| ==> !IsSeparator(Stem(p)[i])
  {
    var n := Name(p);
    if HasSuffix(n) {
      var i := LastDot(n);
      CutAtLastDot(n, i);
      assert Stem(p) == n[..i] && Suffix(p) == n[i..];
      assert forall k :: 0 <= k < i ==> n[..i][k] == n[k];
    }
  }

  /** A file name `n` (no separator, not ".") after a directory part ending in a separator,
      or after nothing, is the path's name. */
  lemma NameAfterDirectory(d: string, n: string)
    requires d == [] || IsSeparator(d[|d| - 1])
    requires n != [] && n != "." && forall i :: 0 <= i < |n| ==> !IsSeparator(n[i])
    ensures Name(d + n) == n
  {
    var p := d + n;
    var k := SeparatorEnd(p, |p|);
    if d != [] {
      assert p[|d| - 1] == d[|d| - 1];
      assert k >= |d|;
    }
    if k > |d| {
      assert false;
    }
    assert p[k..] == n;
  }

  /** A directory part is dropped; the suffix is the last extension only. */
  lemma StemExamples()
    ensures Stem("C:\\t\\a.mp4") == "a" && Suffix("C:\\t\\a.mp4") == ".mp4"
    ensures Stem("x/a.b.gz") == "a.b" && Suffix("x/a.b.gz") == ".gz"
  {
    NameAfterDirectory("C:\\t\\", "a.mp4");
    assert "C:\\t\\" + "a.mp4" == "C:\\t\\a.mp4";
    assert DotBefore("a.mp4", 5) == 1;
    NameAfterDirectory("x/", "a.b.gz");
    assert "x/" + "a.b.gz" == "x/a.b.gz";
    assert DotBefore("a.b.gz", 6) == 3;
  }

  /** A leading dot is no suffix: a dot-file is all stem. */
  lemma StemExampleDotFile()
    ensures Stem(".mp4") == ".mp4" && Suffix(".mp4") == ""
  {
    NameAfterDirectory("", ".mp4");
    assert "" + ".mp4" == ".mp4";
    assert DotBefore(".mp4", 4) == 0;
  }

  /** A trailing dot is no suffix either. */
  lemma StemExampleTrailingDot()
    ensures Stem("a.") == "a." && Suffix("a.") == ""
  {
    NameAfterDirectory("", "a.");
    assert "" + "a." == "a.";
    assert DotBefore("a.", 2) == 1;
  }

  /** A trailing separator is dropped before the name is taken. */
  lemma StemExampleTrailingSeparator()
    ensures Stem("d/a.mov/") == "a"
  {
    NameAfterDirectory("d/", "a.mov");
    assert "d/" + "a.mov" == "d/a.mov";
    var p := "d/a.mov/";
    assert SeparatorEnd(p, 8) == 8;
    assert p[8..] == "";
    assert p[..7] == "d/a.mov";
    assert Name(p) == Name("d/a.mov");
    assert DotBefore("a.mov", 5) == 1;
  }

  /** `f"temp_audio_{Path(video_path).stem}.wav"` */
  function OutputPath(videoPath: string): string {
    "temp_audio_" + Stem(videoPath) + ".wav"
  }

  /** Wrapping stems into output names loses nothing, and adds no separator. */
  lemma WrapStem(x: string, y: string)
    ensures "temp_audio_" + x + ".wav" == "temp_audio_" + y + ".wav" <==> x == y
    ensures (forall i :: 0 <= i < |x| ==> !IsSeparator(x[i])) ==>
      forall i :: 0 <= i < |"temp_audio_" + x + ".wav"| ==> !IsSeparator(("temp_audio_" + x + ".wav")[i])
  {
    var o := "temp_audio_" + x + ".wav";
    if o == "temp_audio_" + y + ".wav" {
      assert x == o[11..|o| - 4];
      assert y == ("temp_audio_" + y + ".wav")[11..|o| - 4];
    }
    if forall i :: 0 <= i < |x| ==> !IsSeparator(x[i]) {
      forall i | 0 <= i < |o|
        ensures !IsSeparator(o[i])
      {
        if 11 <= i < 11 + |x| {
          assert o[i] == x[i - 11];
        }
      }
    }
  }

  /** Two inputs share an output file exactly when they share a stem; the output is a bare
      file name, so it lands in the working directory. */
  lemma OutputPathShared(a: string, b: string)
    ensures OutputPath(a) == OutputPath(b) <==> Stem(a) == Stem(b)
    ensures forall i :: 0 <= i < |OutputPath(a)| ==> !IsSeparator(OutputPath(a)[i])
  {
    StemSuffix(a);
    WrapStem(Stem(a), Stem(b));
  }

  /** A recording in a Windows directory. */
  lemma OutputPathOfRecording()
    ensures OutputPath("a\\talk.mp4") == "temp_audio_talk.wav"
  {
    NameAfterDirectory("a\\", "talk.mp4");
    assert "a\\" + "talk.mp4" == "a\\talk.mp4";
    assert DotBefore("talk.mp4", 8) == 4;
  }

  /** A sound track in a POSIX-style directory. */
  lemma OutputPathOfTrack()
    ensures OutputPath("b/talk.wav") == "temp_audio_talk.wav"
  {
    NameAfterDirectory("b/", "talk.wav");
    assert "b/" + "talk.wav" == "b/talk.wav";
    assert DotBefore("talk.wav", 8) == 4;
  }

  const Binary: string := "ffmpeg.exe"

  /** `os.path.join(os.getcwd(), "ffmpeg.exe")` with Windows rules: no separator is added
      after an empty path, a path ending in a separator, or a bare drive "X:". */
  function FfmpegExe(cwd: string): string {
    if cwd == [] || IsSeparator(cwd[|cwd| - 1]) || (|cwd| == 2 && cwd[1] == ':') then cwd + Binary
    else cwd + "\\" + Binary
  }

  /** The binary is looked for in one place: "ffmpeg.exe" directly inside the working
      directory, whose path is kept as a prefix. (The working directory is absolute, so it is
      never a bare drive "X:", where the join would name a drive-relative path.) */
  lemma FfmpegInWorkingDirectory(cwd: string)
    ensures FfmpegExe(cwd) == cwd + Binary || FfmpegExe(cwd) == cwd + "\\" + Binary
    ensures !(|cwd| == 2 && cwd[1] == ':') ==> Name(FfmpegExe(cwd)) == Binary
  {
    assert forall i :: 0 <= i < |Binary| ==> !IsSeparator(Binary[i]);
    if !(|cwd| == 2 && cwd[1] == ':') {
      if cwd == [] || IsSeparator(cwd[|cwd| - 1]) {
        NameAfterDirectory(cwd, Binary);
      } else {
        NameAfterDirectory(cwd + "\\", Binary);
        assert cwd + "\\" + Binary == (cwd + "\\") + Binary;
      }
    }
  }

  /** The ffmpeg argument vector: read `input`, resample to 16 kHz mono, encode 16-bit PCM,
      overwrite `output`. */
  function Command(exe: string, input: string, output: string): seq<string> {
    [exe, "-i", input, "-ar", "16000", "-ac", "1", "-c:a", "pcm_s16le", "-y", output]
  }

  /** What an ffmpeg invocation asks for, as ffmpeg reads its options. */
  datatype Settings = Settings(input: Option<string>, sampleRate: Option<string>, channels: Option<string>,
                               codec: Option<string>, overwrite: bool, output: Option<string>)

  const NoSettings := Settings(None, None, None, None, false, None)

  /** Reads ffmpeg arguments: each of "-i", "-ar", "-ac" and "-c:a" takes the next argument as
      its value, "-y" stands alone, any other word starting with '-' is refused, and anything
      else names the output file. */
  function ReadArgs(args: seq<string>, acc: Settings): Option<Settings>
    decreases |args|
  {
    if args == [] then Some(acc)
    else if args[0] == "-y" then ReadArgs(args[1..], acc.(overwrite := true))
    else if args[0] in ["-i", "-ar", "-ac", "-c:a"] then
      if |args| < 2 then None
      else
        var v := args[1];
        var next := if args[0] == "-i" then acc.(input := Some(v))
                    else if args[0] == "-ar" then acc.(sampleRate := Some(v))
                    else if args[0] == "-ac" then acc.(channels := Some(v))
                    else acc.(codec := Some(v));
        ReadArgs(args[2..], next)
    else if |args[0]| > 0 && args[0][0] == '-' then None
    else ReadArgs(args[1..], acc.(output := Some(args[0])))
  }

  /** Whatever the input path (even one starting with '-'), ffmpeg reads the command as: that
      input, 16000 Hz, one channel, pcm_s16le, overwrite, into the derived output file. */
  lemma CommandSettings(videoPath: string, cwd: string)
    ensures var cmd := Command(FfmpegExe(cwd), videoPath, OutputPath(videoPath));
      |cmd| == 11 && cmd[0] == FfmpegExe(cwd) &&
      ReadArgs(cmd[1..], NoSettings) ==
        Some(Settings(Some(videoPath), Some("16000"), Some("1"), Some("pcm_s16le"), true, Some(OutputPath(videoPath))))
  {
    var out := OutputPath(videoPath);
    var args := Command(FfmpegExe(cwd), videoPath, out)[1..];
    var s0 := NoSettings.(input := Some(videoPath));
    var s1 := s0.(sampleRate := Some("16000"));
    var s2 := s1.(channels := Some("1"));
    var s3 := s2.(codec := Some("pcm_s16le"));
    var s4 := s3.(overwrite := true);
    assert out[0] == 't';
    assert ReadArgs([out], s4) == Some(s4.(output := Some(out)));
    assert ReadArgs(["-y", out], s3) == ReadArgs([out], s4);
    assert ReadArgs(args[6..], s2) == ReadArgs(["-y", out], s3);
    assert ReadArgs(args[4..], s1) == ReadArgs(args[6..], s2);
    assert ReadArgs(args[2..], s0) == ReadArgs(args[4..], s1);
    assert ReadArgs(args, NoSettings) == ReadArgs(args[2..], s0);
  }

  /** How the `subprocess.run(..., check=True)` call ended: the process exited with a status
      and its captured stderr, the executable could not be found (`FileNotFoundError`), or
      something else raised (its message). */
  datatype RunOutcome = Exited(status: int, stderr: string) | ExecutableMissing | OtherError(message: string)

  /** `extract_audio_from_video(video_path)` with the working directory and the process run
      given: the output path on status 0, otherwise the exception of the matching handler. */
  function ExtractAudio(videoPath: string, cwd: string, run: seq<string> -> RunOutcome): Result<string, string> {
    var audioPath := OutputPath(videoPath);
    var exe := FfmpegExe(cwd);
    match run(Command(exe, videoPath, audioPath))
    case Exited(status, stderr) =>
      if status == 0 then Success(audioPath) else Failure("FFmpeg Error: " + stderr)
    case ExecutableMissing =>
      Failure("ffmpeg.exe not found at " + exe + ". Please copy ffmpeg.exe into this folder.")
    case OtherError(message) => Failure("Error extracting audio: " + message)
  }

  /** The three failure kinds. */
  datatype FailureKind = MissingBinary | NonZeroExit | Unexpected

  /** Which handler produced an error message, read off its fixed prefix. */
  function ClassifyError(message: string): Option<FailureKind> {
    if |message| >= 24 && message[..24] == "ffmpeg.exe not found at " then Some(MissingBinary)
    else if |message| >= 14 && message[..14] == "FFmpeg Error: " then Some(NonZeroExit)
    else if |message| >= 24 && message[..24] == "Error extracting audio: " then Some(Unexpected)
    else None
  }

  function KindOf(outcome: RunOutcome): Option<FailureKind> {
    match outcome
    case Exited(status, _) => if status == 0 then None else Some(NonZeroExit)
    case ExecutableMissing => Some(MissingBinary)
    case OtherError(_) => Some(Unexpected)
  }

  /** Extraction succeeds exactly on exit status 0, returning the derived output path; every
      failure's message is the one of its own handler (no handler re-wraps another's
      exception), carrying the binary path, the stderr or the cause. */
  lemma ExtractAudioOutcome(videoPath: string, cwd: string, run: seq<string> -> RunOutcome)
    ensures var outcome := run(Command(FfmpegExe(cwd), videoPath, OutputPath(videoPath)));
      var r := ExtractAudio(videoPath, cwd, run);
      (r.Success? <==> outcome.Exited? && outcome.status == 0) &&
      (r.Success? ==> r.value == OutputPath(videoPath)) &&
      (r.Failure? ==> ClassifyError(r.error) == KindOf(outcome)) &&
      (outcome == ExecutableMissing ==> r.error[24..24 + |FfmpegExe(cwd)|] == FfmpegExe(cwd)) &&
      (outcome.Exited? && outcome.status != 0 ==> r.error[14..] == outcome.stderr) &&
      (outcome.OtherError? ==> r.error[24..] == outcome.message)
  {
    var outcome := run(Command(FfmpegExe(cwd), videoPath, OutputPath(videoPath)));
    var r := ExtractAudio(videoPath, cwd, run);
    if r.Failure? {
      var e := r.error;
      match outcome
      case Exited(_, stderr) =>
        assert e == "FFmpeg Error: " + stderr;
        assert e[..14] == "FFmpeg Error: " && e[0] == 'F';
        if |e| >= 24 {
          assert e[..24][0] == 'F';
        }
      case ExecutableMissing =>
        assert e[..24] == "ffmpeg.exe not found at ";
      case OtherError(m) =>
        assert e == "Error extracting audio: " + m;
        assert e[..24] == "Error extracting audio: " && e[0] == 'E';
        assert e[..14][0] == 'E';
    }
  }
}
