/** The audio helpers of the processing pipeline: `combine_audio`, which merges the
    recorded chunks into one file, and the fallback policy of `transcribe`. The
    ffmpeg runs and the transcription service are outside the model; their outcomes
    are parameters. */
module Pipeline {
  import opened Text
  import opened Wrappers

  type Path = string

  /** Why a helper raised. */
  datatype Failure =
    | FfmpegFailed        // `subprocess.run(..., check=True)` raised
    | ServiceFailed       // the transcription request (or opening its file) raised

  /** The line of the ffmpeg concat list naming one input file. */
  function Entry(p: Path): string {
    "file '" + p + "'"
  }

  /** The path an entry line names: the inverse of `Entry`. */
  function EntryPath(line: string): Option<Path> {
    if |line| >= 7 && line[..6] == "file '" && line[|line| - 1] == '\'' then Some(line[6..|line| - 1])
    else None
  }

  function Entries(files: seq<Path>): (lines: seq<string>)
    ensures |lines| == |files|
    ensures forall k :: 0 <= k < |files| ==> lines[k] == Entry(files[k])
    decreases |files|
  {
    if files == [] then [] else [Entry(files[0])] + Entries(files[1..])
  }

  /** The text of the concat list: one entry per file, joined by newlines. */
  function ConcatList(files: seq<Path>): string {
    Join(Entries(files), "\n")
  }

  /** What `combine_audio` did: the path it returned, and the concat list it wrote
      for ffmpeg when it ran ffmpeg at all. */
  datatype Combined = Combined(result: Result<Path, Failure>, list: Option<string>)

  /** `combine_audio(files)`: a single file is returned as it is, without ffmpeg;
      otherwise ffmpeg concatenates the files named in the concat list into `out`.
      `ffmpegOk` is whether that run succeeds. */
  function CombineAudio(files: seq<Path>, out: Path, ffmpegOk: bool): (c: Combined)
    ensures |files| == 1 <==> c.list.None?
    ensures |files| == 1 ==> c.result == Ok(files[0])
    ensures c.list.Some? ==> c.list.value == ConcatList(files)
    ensures c.list.Some? ==> (c.result.Ok? <==> ffmpegOk) && (c.result.Ok? ==> c.result.value == out)
  {
    if |files| == 1 then Combined(Ok(files[0]), None)
    else Combined(if ffmpegOk then Ok(out) else Err(FfmpegFailed), Some(ConcatList(files)))
  }

  /** Each entry gives back the path it was made from. */
  lemma EntryRoundTrip(p: Path)
    ensures EntryPath(Entry(p)) == Some(p)
  {
    var e := Entry(p);
    assert e[..6] == "file '";
    assert e[6..|e| - 1] == p;
  }

  lemma EntryNoNewline(p: Path)
    requires '\n' !in p
    ensures '\n' !in Entry(p)
  {
    var e := Entry(p);
    forall i | 0 <= i < |e| ensures e[i] != '\n' {
      if 6 <= i < |e| - 1 {
        assert e[i] == p[i - 6];
      }
    }
  }

  /** When no path holds a newline, the concat list has exactly one line per input
      file, in input order, and each line names its file. */
  lemma ConcatListLines(files: seq<Path>)
    requires |files| >= 1
    requires forall k :: 0 <= k < |files| ==> '\n' !in files[k]
    ensures Split(ConcatList(files), "\n") == Entries(files)
    ensures forall k :: 0 <= k < |files| ==> EntryPath(Split(ConcatList(files), "\n")[k]) == Some(files[k])
  {
    var lines := Entries(files);
    forall k | 0 <= k < |lines| ensures '\n' !in lines[k] {
      EntryNoNewline(files[k]);
    }
    SplitJoin(lines, '\n');
    forall k | 0 <= k < |files| ensures EntryPath(lines[k]) == Some(files[k]) {
      EntryRoundTrip(files[k]);
    }
  }

  /** What `transcribe` did: its text or the exception it raised, the files it sent to
      the service in order, and whether it ran the mp3 conversion. */
  datatype Transcription = Transcription(result: Result<string, Failure>, sent: seq<Path>, converted: bool)

  /** `transcribe(wav)`: send the file as it is; if that raises, convert it to `mp3`
      with ffmpeg and send that once. `first` and `second` are the service's answers
      to the two requests and `convertOk` whether the conversion succeeds. */
  function Transcribe(wav: Path, mp3: Path, first: Result<string, Failure>, convertOk: bool,
                      second: Result<string, Failure>): (t: Transcription)
    ensures 1 <= |t.sent| <= 2 && t.sent[0] == wav
    ensures t.converted <==> first.Err?
    ensures |t.sent| == 2 <==> first.Err? && convertOk
    ensures |t.sent| == 2 ==> t.sent[1] == mp3
    ensures first.Ok? ==> t.result == first
    ensures first.Err? && !convertOk ==> t.result == Err(FfmpegFailed)
    ensures |t.sent| == 2 ==> t.result == second
  {
    if first.Ok? then Transcription(first, [wav], false)
    else if !convertOk then Transcription(Err(FfmpegFailed), [wav], true)
    else Transcription(second, [wav, mp3], true)
  }

  /** The transcript comes from one of the requests actually sent, and the fallback
      never changes a first answer that succeeded. */
  lemma TranscribeFallback(wav: Path, mp3: Path, first: Result<string, Failure>,
                           convertOk: bool, second: Result<string, Failure>,
                           convertOk': bool, second': Result<string, Failure>)
    ensures var t := Transcribe(wav, mp3, first, convertOk, second);
      t.result.Ok? ==> t.result == (if |t.sent| == 1 then first else second)
    ensures first.Ok? ==>
      Transcribe(wav, mp3, first, convertOk, second) == Transcribe(wav, mp3, first, convertOk', second')
    ensures Transcribe(wav, mp3, first, convertOk, second).result.Ok? <==>
      first.Ok? || (convertOk && second.Ok?)
  {
  }
}
