/** The recording session of the bot: one mutable `Session` shared by the slash
    commands `/record start`, `/record stop`, `/leave` and `/status`, the
    connection helper `safe_connect`, the background `recorder` task that cuts the
    meeting into chunks, and the `on_chunk_end` callback that collects them.
    Discord's voice clients are objects with a connected and a recording flag; what
    Discord, the clock and the other tasks do while the recorder sleeps comes in as
    a list of rounds. */
module Recording {
  import opened Text
  import opened Wrappers
  import Pipeline
  import Markdown

  /** The bytes one speaker's audio holds in a sink. */
  type Audio = seq<bv8>

  /** The replies the commands send. */
  datatype Reply =
    | AlreadyRecording
    | Refused(message: string)   // the text of the exception `safe_connect` raised
    | Started
    | NotRecording
    | Processing
    | SummaryReady
    | Left

  function Message(r: Reply): string {
    match r
    case AlreadyRecording => "\U{26A0}\U{FE0F} Already recording."
    case Refused(m) => m
    case Started => "\U{1F399}\U{FE0F} Recording\U{2026} (use `/record stop` to finish)"
    case NotRecording => "\U{26A0}\U{FE0F} Not recording."
    case Processing => "\U{23F3} Processing\U{2026}"
    case SummaryReady => "\U{1F4C4} Meeting summary:"
    case Left => "\U{1F44B} Left channel and cleared session."
  }

  const MustJoinMessage := "You must join a voice channel first."

  /** A voice connection of the bot in one guild. */
  class VoiceClient {
    const guild: nat
    const channel: nat
    var connected: bool
    var recording: bool

    /** `channel.connect()`: a new connection, connected and not recording. */
    constructor (guild: nat, channel: nat)
      ensures this.guild == guild && this.channel == channel
      ensures connected && !recording
    {
      this.guild := guild;
      this.channel := channel;
      connected := true;
      recording := false;
    }
  }

  /** The handle `asyncio.create_task` gives for a started recorder. */
  class RecorderTask {
    constructor ()
    {
    }
  }

  /** A client `safe_connect` may adopt: one of this guild that is still connected. */
  predicate Adoptable(c: VoiceClient, guild: nat)
    reads c
  {
    c.guild == guild && c.connected
  }

  /** The first adoptable client of the bot, or -1. */
  function FirstAdoptable(clients: seq<VoiceClient>, guild: nat): (k: int)
    reads clients
    ensures -1 <= k < |clients|
    ensures k >= 0 ==> Adoptable(clients[k], guild)
    ensures forall j :: 0 <= j < |clients| && (k < 0 || j < k) ==> !Adoptable(clients[j], guild)
    decreases |clients|
  {
    if clients == [] then -1
    else if Adoptable(clients[0], guild) then 0
    else
      var k := FirstAdoptable(clients[1..], guild);
      if k < 0 then -1 else k + 1
  }

  /** What happens while the recorder sleeps between starting and stopping a chunk. */
  datatype Command =
    | Quiet
    | StopCommand     // `/record stop` arrives and runs up to its wait for the recorder
    | LeaveCommand    // `/leave` arrives and runs to the end

  /** One pass of the recorder loop, as its surroundings decide it: the chunk's file
      name, whether Discord dropped the voice connection before the chunk starts,
      the audio each speaker produced, and the command that arrives during the sleep. */
  datatype Round = Round(fname: Pipeline.Path, dropped: bool, speakers: seq<Audio>, during: Command)

  /** How the recorder task ended. */
  datatype Exit =
    | Finished                 // the loop saw `active` false
    | StartFailed              // `start_recording` raised: the connection was gone or busy
    | ClientGone               // `session.vc` was None after the sleep
    | Sleeping                 // still running after the last round given

  function Fnames(rounds: seq<Round>): (names: seq<Pipeline.Path>)
    ensures |names| == |rounds|
    ensures forall k :: 0 <= k < |rounds| ==> names[k] == rounds[k].fname
    decreases |rounds|
  {
    if rounds == [] then [] else [rounds[0].fname] + Fnames(rounds[1..])
  }

  lemma FnamesSnoc(rounds: seq<Round>, n: nat)
    requires n < |rounds|
    ensures Fnames(rounds[..n + 1]) == Fnames(rounds[..n]) + [rounds[n].fname]
  {
  }

  /** The inputs of the processing pipeline that lie outside the model: the outputs
      of ffmpeg, the transcription and summary services, the PDF writer and Discord. */
  datatype World = World(
    merged: Pipeline.Path, ffmpegOk: bool,
    mp3: Pipeline.Path, first: Result<string, Pipeline.Failure>, convertOk: bool, second: Result<string, Pipeline.Failure>,
    summary: Result<string, Pipeline.Failure>,
    pdf: Pipeline.Path, pdfOk: bool,
    delivered: bool)

  /** A stage of the stop handler, with the input it was given. */
  datatype Stage =
    | Combining(files: seq<Pipeline.Path>)
    | Transcribing(audio: Pipeline.Path)
    | Summarizing(transcript: string)
    | Rendering(markdown: string)
    | Sending(pdf: Pipeline.Path)

  /** The stages reached, and whether the last one succeeded so the session was reset. */
  datatype Run = Run(stages: seq<Stage>, done: bool)

  /** The stop handler after its wait: combine the chunks, transcribe, summarize, render
      the PDF and send it; the first stage that raises ends the handler. */
  function Process(chunks: seq<Pipeline.Path>, w: World): (r: Run)
  {
    var c := Pipeline.CombineAudio(chunks, w.merged, w.ffmpegOk);
    if c.result.Err? then Run([Combining(chunks)], false)
    else
      var t := Pipeline.Transcribe(c.result.value, w.mp3, w.first, w.convertOk, w.second);
      var upToText := [Combining(chunks), Transcribing(c.result.value)];
      if t.result.Err? then Run(upToText, false)
      else if w.summary.Err? then Run(upToText + [Summarizing(t.result.value)], false)
      else
        var md := w.summary.value;
        var upToPdf := upToText + [Summarizing(t.result.value), Rendering(md)];
        if !w.pdfOk then Run(upToPdf, false)
        else Run(upToPdf + [Sending(w.pdf)], w.delivered)
  }

  /** The stages run in the order combine, transcribe, summarize, render, send, each on
      the output of the one before; the first is given the recorded chunks, and the run
      completes exactly when no stage raises. */
  lemma ProcessOrder(chunks: seq<Pipeline.Path>, w: World)
    ensures var r := Process(chunks, w);
      1 <= |r.stages| <= 5 && r.stages[0] == Combining(chunks) &&
      (|r.stages| >= 2 ==> r.stages[1] == Transcribing(Pipeline.CombineAudio(chunks, w.merged, w.ffmpegOk).result.value)) &&
      (|r.stages| >= 3 ==> r.stages[2] == Summarizing(
        Pipeline.Transcribe(Pipeline.CombineAudio(chunks, w.merged, w.ffmpegOk).result.value,
                            w.mp3, w.first, w.convertOk, w.second).result.value)) &&
      (|r.stages| >= 4 ==> r.stages[3] == Rendering(w.summary.value)) &&
      (|r.stages| == 5 ==> r.stages[4] == Sending(w.pdf))
    ensures var r := Process(chunks, w);
      r.done <==>
        (|chunks| == 1 || w.ffmpegOk) && (w.first.Ok? || (w.convertOk && w.second.Ok?)) &&
        w.summary.Ok? && w.pdfOk && w.delivered
    ensures var r := Process(chunks, w);
      r.done ==> |r.stages| == 5
  {
  }

  /** A meeting of one chunk is transcribed from the chunk's own file, and the summary
      is asked of the text the service returned for it. */
  lemma SingleChunkTranscribed(p: Pipeline.Path, w: World)
    requires w.first.Ok?
    ensures Process([p], w).stages[1] == Transcribing(p)
    ensures w.summary.Ok? ==> Process([p], w).stages[2] == Summarizing(w.first.value)
  {
  }

  const RecordingPrefix := "Status: **Recording**, Chunks: "
  const IdlePrefix := "Status: **Idle**, Chunks: "

  /** The text of `/status`. */
  function StatusLine(recording: bool, chunks: nat): string {
    (if recording then RecordingPrefix else IdlePrefix) + NatToString(chunks)
  }

  /** What a status text reports: the recording flag and the number of chunks. */
  function ParseStatus(s: string): Option<(bool, nat)> {
    var recording := StartsWith(s, RecordingPrefix);
    if !recording && !StartsWith(s, IdlePrefix) then None
    else
      var digits := s[|if recording then RecordingPrefix else IdlePrefix|..];
      if digits != "" && forall i :: 0 <= i < |digits| ==> IsDigit(digits[i]) then Some((recording, ParseNat(digits)))
      else None
  }

  /** The status text tells whether the bot records and how many chunks it holds. */
  lemma StatusRoundTrip(recording: bool, chunks: nat)
    ensures ParseStatus(StatusLine(recording, chunks)) == Some((recording, chunks))
  {
    var s := StatusLine(recording, chunks);
    var prefix := if recording then RecordingPrefix else IdlePrefix;
    assert s[..|prefix|] == prefix;
    if !recording {
      assert s[10] != RecordingPrefix[10];
    }
    assert s[|prefix|..] == NatToString(chunks);
    ParseNatToString(chunks);
  }

  /** The state of the bot: one session for all commands. */
  class Session {
    var active: bool
    var vc: VoiceClient?
    var chunks: seq<Pipeline.Path>
    var task: RecorderTask?

    /** The state `__init__` gives. */
    predicate Initial()
      reads this
    {
      !active && vc == null && chunks == [] && task == null
    }

    /** A session that records has a voice client. */
    predicate Valid()
      reads this
    {
      active ==> vc != null
    }

    constructor ()
      ensures Initial() && Valid()
    {
      active := false;
      vc := null;
      chunks := [];
      task := null;
    }

    /** `session.__init__()` on the existing session. */
    method Reset()
      modifies this
      ensures Initial() && Valid()
    {
      active := false;
      vc := null;
      chunks := [];
      task := null;
    }

    /** Whether `safe_connect` finds or makes a connection. */
    predicate CanConnect(guild: nat, clients: seq<VoiceClient>, authorChannel: Option<nat>)
      reads this, vc, clients
    {
      (vc != null && vc.connected) || FirstAdoptable(clients, guild) >= 0 || authorChannel.Some?
    }

    /** `safe_connect`: keep the session's client while it is connected, else adopt the
        bot's first connected client in this guild, else connect to the channel of the
        command's author; with no such channel it raises. */
    method SafeConnect(guild: nat, clients: seq<VoiceClient>, authorChannel: Option<nat>)
      returns (r: Result<VoiceClient, string>)
      requires Valid()
      modifies this
      ensures Valid()
      ensures active == old(active) && chunks == old(chunks) && task == old(task)
      ensures r.Ok? <==> old(CanConnect(guild, clients, authorChannel))
      ensures r.Ok? ==> vc == r.value && vc.connected
      ensures r.Ok? ==> r.value == old(vc) || r.value in clients || (fresh(r.value) && !r.value.recording)
      ensures old(vc) != null && old(vc.connected) ==> r.Ok? && r.value == old(vc)
      ensures !(old(vc) != null && old(vc.connected)) && FirstAdoptable(clients, guild) >= 0 ==>
        r == Ok(clients[FirstAdoptable(clients, guild)])
      ensures !(old(vc) != null && old(vc.connected)) && FirstAdoptable(clients, guild) < 0 && authorChannel.Some? ==>
        r.Ok? && fresh(r.value) && r.value.guild == guild && r.value.channel == authorChannel.value &&
        !r.value.recording
      ensures r.Err? ==> r.error == MustJoinMessage && vc == old(vc)
    {
      if vc != null && vc.connected {
        return Ok(vc);
      }
      var i := 0;
      while i < |clients|
        invariant 0 <= i <= |clients|
        invariant forall j :: 0 <= j < i ==> !Adoptable(clients[j], guild)
      {
        if clients[i].guild == guild && clients[i].connected {
          vc := clients[i];
          return Ok(clients[i]);
        }
        i := i + 1;
      }
      if authorChannel.None? {
        return Err(MustJoinMessage);
      }
      var joined := new VoiceClient(guild, authorChannel.value);
      vc := joined;
      return Ok(joined);
    }

    /** `on_chunk_end`: each speaker's audio is written to `fname`, every time opened
        afresh, so the file ends up with the last speaker's audio, or is never made when
        nobody spoke; then `fname` is appended to the chunks, once. */
    method OnChunkEnd(fname: Pipeline.Path, speakers: seq<Audio>) returns (file: Option<Audio>)
      requires Valid()
      modifies this
      ensures Valid()
      ensures chunks == old(chunks) + [fname]
      ensures active == old(active) && vc == old(vc) && task == old(task)
      ensures file == if speakers == [] then None else Some(speakers[|speakers| - 1])
    {
      file := None;
      for k := 0 to |speakers|
        invariant file == if k == 0 then None else Some(speakers[k - 1])
      {
        file := Some(speakers[k]);
      }
      chunks := chunks + [fname];
    }

    /** `/record start`. */
    method RecordStart(guild: nat, clients: seq<VoiceClient>, authorChannel: Option<nat>)
      returns (reply: Reply)
      requires Valid()
      modifies this
      ensures Valid()
      ensures old(active) ==> reply == AlreadyRecording && unchanged(this)
      ensures !old(active) ==> (reply == Started <==> old(CanConnect(guild, clients, authorChannel)))
      ensures !old(active) && reply != Started ==>
        reply == Refused(MustJoinMessage) && !active && vc == old(vc) && chunks == old(chunks) && task == old(task)
      ensures reply == Started ==>
        active && vc != null && vc.connected && chunks == old(chunks) && task != null && fresh(task)
      ensures reply == Started ==> vc == old(vc) || vc in clients || (fresh(vc) && !vc.recording)
    {
      if active {
        return AlreadyRecording;
      }
      var r := SafeConnect(guild, clients, authorChannel);
      if r.Err? {
        return Refused(r.error);
      }
      active := true;
      task := new RecorderTask();
      return Started;
    }

    /** `/record stop` up to its wait for the recorder, with the wait guarded by
        `if session.task:`. `None` means the handler goes on to wait and process. */
    method RecordStop() returns (reply: Option<Reply>)
      modifies this
      ensures Valid()
      ensures !old(active) ==> reply == Some(NotRecording) && unchanged(this)
      ensures old(active) ==> reply == None && !active
      ensures vc == old(vc) && chunks == old(chunks) && task == old(task)
    {
      if !active {
        return Some(NotRecording);
      }
      active := false;
      return None;
    }

    /** `/record stop` up to its wait, as written: `await session.task` raises a
        `TypeError` when the recorder has already ended and `task` is None. */
    method RecordStopAsWritten() returns (outcome: StopOutcome)
      modifies this
      ensures Valid()
      ensures !old(active) ==> outcome == Rejected(NotRecording) && unchanged(this)
      ensures old(active) ==> !active && (outcome == Raised <==> task == null) && (outcome != Raised ==> outcome == Waiting)
      ensures vc == old(vc) && chunks == old(chunks) && task == old(task)
    {
      if !active {
        return Rejected(NotRecording);
      }
      active := false;
      if task == null {
        return Raised;
      }
      return Waiting;
    }

    /** The rest of the stop handler once the recorder has ended: announce the
        processing, run the pipeline on the chunks and reset when it completes. A
        stage that raises leaves the session as it was. */
    method CompleteStop(w: World) returns (run: Run, replies: seq<Reply>, pdf: seq<Markdown.Op>)
      requires Valid()
      modifies this
      ensures Valid()
      ensures run == Process(old(chunks), w)
      ensures |run.stages| >= 4 ==> pdf == Markdown.Render(SplitLines(w.summary.value))
      ensures replies == [Processing] + (if run.done then [SummaryReady] else [])
      ensures run.done ==> Initial()
      ensures !run.done ==> unchanged(this)
    {
      replies, pdf := [Processing], [];
      var c := Pipeline.CombineAudio(chunks, w.merged, w.ffmpegOk);
      if c.result.Err? {
        return Run([Combining(chunks)], false), replies, pdf;
      }
      var merged := c.result.value;
      var t := Pipeline.Transcribe(merged, w.mp3, w.first, w.convertOk, w.second);
      if t.result.Err? {
        return Run([Combining(chunks), Transcribing(merged)], false), replies, pdf;
      }
      var stages := [Combining(chunks), Transcribing(merged), Summarizing(t.result.value)];
      if w.summary.Err? {
        return Run(stages, false), replies, pdf;
      }
      var md := w.summary.value;
      pdf := Markdown.PdfOps(md);
      stages := stages + [Rendering(md)];
      if !w.pdfOk {
        return Run(stages, false), replies, pdf;
      }
      stages := stages + [Sending(w.pdf)];
      if !w.delivered {
        return Run(stages, false), replies, pdf;
      }
      replies := replies + [SummaryReady];
      Reset();
      return Run(stages, true), replies, pdf;
    }

    /** `/leave`: disconnect when the session holds a connected client, then reset. */
    method Leave() returns (disconnected: bool, reply: Reply)
      modifies this, vc
      ensures Initial() && Valid()
      ensures disconnected <==> old(vc) != null && old(vc.connected)
      ensures old(vc) != null ==> !old(vc).connected && old(vc).recording == old(vc.recording)
      ensures reply == Left
    {
      disconnected := vc != null && vc.connected;
      if disconnected {
        vc.connected := false;
      }
      Reset();
      reply := Left;
    }

    /** `/status`. */
    function Status(): (s: string)
      reads this
      ensures ParseStatus(s) == Some((active, |chunks|))
      ensures StartsWith(s, RecordingPrefix) <==> active
    {
      StatusRoundTrip(active, |chunks|);
      StatusLine(active, |chunks|)
    }

    /** One pass of the recorder loop: start recording the chunk, sleep while `r.during`
        runs, then stop the recording if it still runs, which hands the chunk to
        `on_chunk_end`. */
    method RecorderRound(r: Round) returns (exit: Option<Exit>)
      requires Valid() && active
      modifies this, vc
      ensures Valid()
      ensures exit == None || exit == Some(StartFailed) || exit == Some(ClientGone)
      ensures exit == Some(StartFailed) <==> r.dropped || !old(vc.connected) || old(vc.recording)
      ensures exit == Some(StartFailed) ==> active && vc == old(vc) && chunks == old(chunks) && task == old(task)
      ensures exit == Some(StartFailed) && r.dropped ==> !vc.connected
      ensures exit == Some(StartFailed) ==>
        vc.recording == old(vc.recording) && (!r.dropped ==> vc.connected == old(vc.connected))
      ensures exit == Some(ClientGone) <==> exit != Some(StartFailed) && r.during == LeaveCommand
      ensures exit == Some(ClientGone) ==> Initial()
      ensures exit == None ==>
        vc == old(vc) && vc.connected && !vc.recording && chunks == old(chunks) + [r.fname] && task == old(task) &&
        (active <==> r.during == Quiet) && (r.during == Quiet || r.during == StopCommand)
    {
      if r.dropped {
        vc.connected := false;
      }
      if !vc.connected || vc.recording {
        return Some(StartFailed);
      }
      vc.recording := true;
      match r.during {
        case Quiet =>
        case StopCommand =>
          var _ := RecordStop();
        case LeaveCommand =>
          var _, _ := Leave();
      }
      if vc == null {
        return Some(ClientGone);
      }
      if vc.recording {
        vc.recording := false;
        var _ := OnChunkEnd(r.fname, r.speakers);
      }
      return None;
    }

    /** `recorder`: record chunk after chunk while the session is active; whatever ends
        the task, `task` is cleared. `ran` is the number of rounds begun. */
    method Recorder(rounds: seq<Round>) returns (exit: Exit, ran: nat)
      requires Valid() && active
      modifies this, vc
      ensures Valid() && ran <= |rounds|
      ensures exit != Sleeping ==> task == null
      ensures exit == Sleeping ==>
        ran == |rounds| && active && vc == old(vc) && task == old(task) &&
        chunks == old(chunks) + Fnames(rounds) && forall k :: 0 <= k < |rounds| ==> rounds[k].during == Quiet
      ensures exit == Finished ==>
        1 <= ran && !active && vc == old(vc) && chunks == old(chunks) + Fnames(rounds[..ran]) &&
        rounds[ran - 1].during == StopCommand && forall k :: 0 <= k < ran - 1 ==> rounds[k].during == Quiet
      ensures exit == StartFailed ==>
        1 <= ran && active && vc == old(vc) && chunks == old(chunks) + Fnames(rounds[..ran - 1]) &&
        forall k :: 0 <= k < ran - 1 ==> rounds[k].during == Quiet
      ensures exit == StartFailed ==>
        rounds[ran - 1].dropped || (ran == 1 && (!old(vc.connected) || old(vc.recording)))
      ensures exit == StartFailed && rounds[ran - 1].dropped ==> !vc.connected
      ensures exit == ClientGone ==> 1 <= ran && Initial() && rounds[ran - 1].during == LeaveCommand
      ensures exit == Finished || exit == Sleeping ==> forall k :: 0 <= k < ran ==> !rounds[k].dropped
      ensures exit != StartFailed && ran >= 1 ==> old(vc.connected) && !old(vc.recording)
      ensures exit == ClientGone ==> forall k :: 0 <= k < ran ==> !rounds[k].dropped
      ensures exit == ClientGone ==> forall k :: 0 <= k < ran - 1 ==> rounds[k].during == Quiet
    {
      ran := 0;
      while active && ran < |rounds|
        invariant Valid() && ran <= |rounds|
        invariant vc == old(vc) && task == old(task)
        invariant ran == 0 ==> vc.connected == old(vc.connected) && vc.recording == old(vc.recording)
        invariant ran > 0 ==> vc.connected && !vc.recording
        invariant ran > 0 ==> old(vc.connected) && !old(vc.recording)
        invariant forall k :: 0 <= k < ran ==> !rounds[k].dropped
        invariant chunks == old(chunks) + Fnames(rounds[..ran])
        invariant forall k :: 0 <= k < ran && (active || k < ran - 1) ==> rounds[k].during == Quiet
        invariant !active ==> 1 <= ran && rounds[ran - 1].during == StopCommand
        decreases |rounds| - ran
      {
        var ended := RecorderRound(rounds[ran]);
        FnamesSnoc(rounds, ran);
        AppendAssoc(old(chunks), Fnames(rounds[..ran]), [rounds[ran].fname]);
        ran := ran + 1;
        if ended == Some(StartFailed) {
          task := null;
          return StartFailed, ran;
        } else if ended == Some(ClientGone) {
          task := null;
          return ClientGone, ran;
        }
      }
      if active {
        assert rounds[..ran] == rounds;
        return Sleeping, ran;
      }
      task := null;
      return Finished, ran;
    }
  }

  /** What `/record stop` does up to its wait, as written. */
  datatype StopOutcome = Rejected(reply: Reply) | Waiting | Raised

  /** A meeting up to the stop: `/record start` from a fresh session with the author in
      a voice channel, then chunks recorded until `/record stop` arrives during the
      last one. The session ends idle, with exactly the chunk files in the order they
      were recorded, and the recorder gone. */
  method RecordMeeting(s: Session, guild: nat, channel: nat, rounds: seq<Round>)
    requires s.Initial()
    requires |rounds| >= 1 && rounds[|rounds| - 1].during == StopCommand
    requires forall k :: 0 <= k < |rounds| - 1 ==> rounds[k].during == Quiet
    requires forall k :: 0 <= k < |rounds| ==> !rounds[k].dropped
    modifies s
    ensures !s.active && s.chunks == Fnames(rounds) && s.task == null
  {
    var reply := s.RecordStart(guild, [], Some(channel));
    assert reply == Started;
    assert s.vc.connected && !s.vc.recording;
    var exit, ran := s.Recorder(rounds);
    assert rounds[|rounds| - 1].during != Quiet && rounds[|rounds| - 1].during != LeaveCommand;
    assert exit == Finished;
    assert ran == |rounds|;
    assert rounds[..ran] == rounds;
  }

  /** A whole meeting: the stop handler goes on to process the recorded chunks. The
      pipeline is given exactly the chunk files, and a completed run leaves the session
      as new. */
  method Meeting(s: Session, guild: nat, channel: nat, rounds: seq<Round>, w: World) returns (run: Run)
    requires s.Initial()
    requires |rounds| >= 1 && rounds[|rounds| - 1].during == StopCommand
    requires forall k :: 0 <= k < |rounds| - 1 ==> rounds[k].during == Quiet
    requires forall k :: 0 <= k < |rounds| ==> !rounds[k].dropped
    modifies s
    ensures run == Process(Fnames(rounds), w)
    ensures run.done ==> s.Initial()
    ensures !run.done ==> !s.active && s.chunks == Fnames(rounds) && s.task == null
  {
    RecordMeeting(s, guild, channel, rounds);
    var replies, pdf;
    run, replies, pdf := s.CompleteStop(w);
  }

  /** The connection drops before the second chunk, so the recorder ends while the
      session is still active; `/record stop` as written then raises at its wait. The
      session keeps the first meeting's chunk, and the next meeting hands it to the
      pipeline together with its own. */
  method DroppedConnectionAsWritten(w: World) returns (outcome: StopOutcome, next: Run)
    ensures outcome == Raised
    ensures |next.stages| >= 1 && next.stages[0] == Combining(["a.wav", "c.wav"])
  {
    var s := new Session();
    var reply := s.RecordStart(1, [], Some(7));
    assert reply == Started;
    var exit, ran := s.Recorder([Round("a.wav", false, [], Quiet), Round("b.wav", true, [], Quiet)]);
    assert exit == StartFailed;
    assert s.chunks == ["a.wav"];
    outcome := s.RecordStopAsWritten();
    ghost var lost := s.vc;
    assert !lost.connected;
    reply := s.RecordStart(1, [], Some(7));
    assert reply == Started;
    assert s.vc != lost;
    exit, ran := s.Recorder([Round("c.wav", false, [], StopCommand)]);
    assert exit == Finished;
    assert s.chunks == ["a.wav", "c.wav"];
    var replies, pdf;
    next, replies, pdf := s.CompleteStop(w);
    ProcessOrder(["a.wav", "c.wav"], w);
  }

  /** The same meeting with the wait guarded: the stop goes on to process the chunk
      recorded before the connection dropped, and a completed run resets the session,
      so the next meeting starts from no chunks. */
  method DroppedConnection(w: World) returns (reply: Option<Reply>, run: Run, after: seq<Pipeline.Path>)
    ensures reply == None
    ensures run == Process(["a.wav"], w)
    ensures run.done ==> after == []
  {
    var s := new Session();
    var started := s.RecordStart(1, [], Some(7));
    assert started == Started;
    var exit, ran := s.Recorder([Round("a.wav", false, [], Quiet), Round("b.wav", true, [], Quiet)]);
    assert exit == StartFailed;
    assert s.chunks == ["a.wav"];
    reply := s.RecordStop();
    var replies, pdf;
    run, replies, pdf := s.CompleteStop(w);
    after := s.chunks;
  }

  /** A recorder started on a client that is already recording: `start_recording`
      raises in the first pass, so no chunk is recorded, the task is cleared and the
      session stays active. */
  method BusyClient() returns (exit: Exit, chunks: seq<Pipeline.Path>, active: bool, cleared: bool)
    ensures exit == StartFailed && chunks == [] && active && cleared
  {
    var s := new Session();
    var c := new VoiceClient(1, 7);
    c.recording := true;
    var t := new RecorderTask();
    s.vc, s.active, s.task := c, true, t;
    var ran;
    exit, ran := s.Recorder([Round("a.wav", false, [], Quiet)]);
    chunks, active, cleared := s.chunks, s.active, s.task == null;
  }

  /** A leave that arrives in a pass whose connection was dropped never runs: the start
      fails first, so the session keeps its earlier chunk and stays active. */
  method DroppedBeforeLeave() returns (exit: Exit, chunks: seq<Pipeline.Path>, active: bool)
    ensures exit == StartFailed && chunks == ["a.wav"] && active
  {
    var s := new Session();
    var started := s.RecordStart(1, [], Some(7));
    assert started == Started;
    var ran;
    exit, ran := s.Recorder([Round("a.wav", false, [], Quiet), Round("b.wav", true, [], LeaveCommand)]);
    chunks, active := s.chunks, s.active;
  }
}
