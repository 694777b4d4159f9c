# Discord meeting recorder: session and note-layout core in Dafny

The bot joins a Discord voice channel on `/record start`. It records the meeting in
five-minute chunks. On `/record stop` it merges the chunks with ffmpeg, has them
transcribed and summarised, and sends the Markdown summary as a PDF. This project
models and proves the sequential logic at the centre of this:

- **`bot.py`, the recording session** (module `Recording`, `session.dfy`)
  - the class `Session`, with fields `active`, `vc`, `chunks` and `task`, and its
    reset;
  - the handlers `/record start`, `/record stop`, `/leave` and `/status`;
  - the connection reuse of `safe_connect`;
  - the chunk loop of `recorder`;
  - the chunk collection of `on_chunk_end`.

  Voice clients are objects with `connected` and `recording` flags. Whatever
  happens while the recorder sleeps comes in as a `Round`:
  - the chunk's file name;
  - whether Discord dropped the connection;
  - the speakers' audio;
  - the command (if any) that arrives meanwhile.
- **`utils.py`, the Markdown-to-PDF line loop** (module `Markdown`, `markdown.dfy`)
  - The loop of `pdf_from_markdown` is an imperative `while` loop, with the
    inner code-block loop, that produces abstract render operations (`Op`)
    instead of FPDF calls.
  - It is proved equal to a recursive specification, `Render`.
- **`utils.py`, the audio helpers** (module `Pipeline`, `pipeline.dfy`)
  - `combine_audio`: the single-file identity and the ffmpeg concat-list text.
  - `transcribe`: the try, convert, retry-once policy over abstract outcomes.
- **Python string semantics** (module `Text`, `text.dfy`)
  - `startswith`, `in`, `split(sep)`, `sep.join`, `rstrip()`, `splitlines()` and
    `str(n)`, with the lemmas that connect them.
- **`Option` and `Result`** (module `Wrappers`, `wrappers.dfy`).

## Model

| member | source | states |
|---|---|---|
| Recording.Session.constructor | bot.py:20-26 | a new session is idle: not active, no client, no chunks, no recorder task |
| Recording.Session.Reset | bot.py:21-25 | `session.__init__()` on the live session restores exactly that initial state |
| Recording.FirstAdoptable | bot.py:32-34 | the index of the first connected client of the command's guild, with no earlier one, or -1 when there is none |
| Recording.Session.SafeConnect | bot.py:29-38 | a connected session client is returned unchanged; otherwise the first connected client of the guild is adopted; only then is a fresh connection made to the author's channel; without one the result is the "You must join a voice channel first." error and `vc` is unchanged; it succeeds exactly when one of these applies |
| Recording.VoiceClient.constructor | bot.py:37 | a fresh connection is connected and not recording, in the author's guild and channel |
| Recording.Session.OnChunkEnd | bot.py:40-44 | appends exactly `fname` to the end of `chunks`, whatever the number of speakers; the file holds the last speaker's audio, or is never created when no one spoke |
| Recording.Session.RecordStart | bot.py:70-80 | while active: replies "⚠️ Already recording." and changes nothing; otherwise it starts exactly when `safe_connect` can connect, setting `active` and one fresh task; on failure it replies with the error text and `active`, `chunks` and `task` stay as they were |
| Recording.Session.RecordStop | bot.py:82-87 | while idle: replies "⚠️ Not recording." and changes nothing; otherwise clears `active` and goes on to wait, leaving `vc`, `chunks` and `task` alone |
| Recording.Session.RecordStopAsWritten | bot.py:82-87 | the same handler without a guard on the wait: it raises exactly when `task` is None |
| Recording.Session.RecorderRound | bot.py:50-55 | one pass: the start fails exactly when the connection was dropped, gone or busy; a leave during the sleep ends the pass with no client; otherwise the recording is stopped and its file appended, and `active` stays set exactly when no stop arrived |
| Recording.Session.Recorder | bot.py:46-60 | the loop runs while `active`; `task` is None whenever the task ends, by a stop, a failed start or a leave; after a normal stop `chunks` grows by the rounds' file names in order and the stop came in the last round; a failed start leaves the session active and happens only on a dropped round or a first pass over a disconnected or busy client; every other ending, a leave included, ran only undropped rounds on a client that was connected and idle |
| Recording.Process | bot.py:88-97 | the stages after the wait, each given the previous one's output; the first failing stage ends the handler |
| Recording.ProcessOrder | bot.py:88-97 | the stages run in the order combine, transcribe, summarise, render, send; the combine gets the chunks, the transcription gets `combine_audio`'s result, the summary gets `transcribe`'s text, the rendering gets the summary; the run completes exactly when no stage raises |
| Recording.SingleChunkTranscribed | bot.py:90-92 | a one-chunk meeting is transcribed from the chunk file itself, and the summary is asked of that transcript |
| Recording.Session.CompleteStop | bot.py:88-97 | replies "⏳ Processing…"; runs `Process` on the old chunks; a completed run sends "📄 Meeting summary:" and resets the session; a stage that raises leaves every field unchanged |
| Recording.Session.Leave | bot.py:99-105 | from any state it ends with the initial session; it disconnects exactly when a connected client was held; it replies "👋 Left channel and cleared session." |
| Recording.Message | bot.py:72-105 | the reply texts of the handlers, character for character, with a refusal carrying the text of the exception |
| Recording.StatusLine | bot.py:110 | "Status: **Recording**" or "Status: **Idle**", then ", Chunks: " and the decimal chunk count |
| Recording.Session.Status | bot.py:107-112 | the status text reads back as (the `active` flag, the number of chunks), and shows "Recording" exactly when active |
| Recording.StatusRoundTrip | bot.py:110 | parsing the status text gives back the flag and the chunk count |
| Recording.RecordMeeting | bot.py:70-87 | from a fresh session, a start with the author in a channel and chunks until a stop leave the session idle, holding exactly the chunk names in order, with no task |
| Recording.Meeting | bot.py:70-97 | a whole meeting hands the pipeline exactly the recorded chunk names, and a completed run leaves the session as new |
| Recording.DroppedConnectionAsWritten | bot.py:46-87 | the connection drops after one chunk; the stop as written raises, and the next meeting combines the old chunk with its own |
| Recording.DroppedConnection | bot.py:82-97 | with the wait guarded, the same stop processes exactly the chunk recorded before the drop, and a completed run clears the chunks |
| Recording.BusyClient | bot.py:49-60 | a recorder on a client that is already recording fails its first start, records no chunk, and leaves the session active with the task cleared |
| Recording.DroppedBeforeLeave | bot.py:49-60 | a leave in a pass whose connection dropped never runs: the start fails first, so the earlier chunk is kept and the session stays active |
| Pipeline.Entry | utils.py:13 | the concat-list line `file '<p>'` for one path |
| Pipeline.ConcatList | utils.py:13 | the entries of the files, in order, joined by newlines |
| Pipeline.CombineAudio | utils.py:10-22 | a single file comes back as it is, with no concat list; otherwise the concat list for the files is written and the result is the ffmpeg output, or an error when ffmpeg fails |
| Pipeline.EntryRoundTrip | utils.py:13 | each concat-list line names the path it was made from |
| Pipeline.ConcatListLines | utils.py:13 | when no path holds a newline, the list has exactly one `file '<p>'` line per input, in input order |
| Pipeline.Transcribe | utils.py:24-51 | the original file is sent first; conversion runs only after that attempt fails; there are at most two attempts, the second on the mp3; a failed conversion raises the ffmpeg error |
| Pipeline.TranscribeFallback | utils.py:26-49 | a transcript is the answer to an attempt that was made; a first success makes the fallback irrelevant; it succeeds exactly when the first or the converted attempt does |
| Markdown.Render | utils.py:107-198 | the reference definition of the whole loop: a fence opener draws the lines up to the next fence as one block and skips that fence, and every other line draws the operation of its kind |
| Markdown.Classify | utils.py:108 | a line is read after `rstrip()` |
| Markdown.KindOf | utils.py:111-196 | the chain in source order: blank, "### ", "## ", "# ", "- ", the fence, then the inline rules; a heading keeps the text after its marker and an opener the text after the fence |
| Markdown.ItemKind | utils.py:137-147 | a leading "[ ] ", "[x] " or "[X] " is taken off the bullet's content and kept as its marker; any other content is drawn whole |
| Markdown.InlineKind | utils.py:166-196 | a backtick makes an inline-code line split on backticks, else `**` makes a bold line split on `**`, else the line is a paragraph |
| Markdown.Glyph | utils.py:139-146 | ☐ for "[ ] ", ☑ for "[x] " and "[X] ", • for a plain item |
| Markdown.OpOf | utils.py:111-196 | a blank line draws a gap, a heading a title at its level, an item its glyph and text, an inline-code or bold line its runs in code or bold style, any other line a paragraph |
| Markdown.Segments | utils.py:168-191 | the part at index `j` is drawn regular when `j` is even and in the odd style otherwise; an empty part draws nothing |
| Markdown.RenderLines | utils.py:104-198 | the index loop, with its inner code-block loop, produces exactly `Render` of the lines |
| Markdown.PdfOps | utils.py:104-198 | the operations for a text are `Render` of its `splitlines()` |
| Markdown.StepAt | utils.py:107-198 | every pass of the loop moves the index strictly forward, to at most one past the end; a pass draws a code block exactly at a fence opener |
| Markdown.StepRendered | utils.py:107-198 | each pass extends the operations drawn so far by the next operation of `Render` |
| Markdown.DrawAt | utils.py:108-198 | one pass of the loop body from line `i` computes exactly `StepAt` |
| Markdown.DrawLine | utils.py:116-196 | the if/elif chain gives the operation of the line's kind, or hands over to the code-block scan at a fence |
| Markdown.ScanCode | utils.py:154-158 | collects the raw lines up to the next line starting with the fence, or to the end, and stops on that line |
| Markdown.CodeBody | utils.py:156-158 | a block body is a prefix of the remaining lines, none starting with the fence, and the line after it (if any) does |
| Markdown.EmitRuns | utils.py:166-191 | the part loop of an inline-code or bold line gives exactly `Segments` of the parts |
| Markdown.ClassifyUnparse | utils.py:108-196 | nothing of a line is lost: heading marker plus title, "- " plus checkbox plus text, fence plus info, and the parts joined on the delimiter give back the stripped line |
| Markdown.HeadingOf | utils.py:117-134 | "# ", "## " and "### " give levels 1, 2 and 3 with the marker removed, whatever the title holds (headings win over every later rule) |
| Markdown.ItemOf | utils.py:136-147 | "- [ ] " gives ☐, "- [x] " and "- [X] " give ☑, and any other "- " gives •; the text is the rest after the prefix, whatever it holds |
| Markdown.InlinePrecedence | utils.py:166-196 | a line with no earlier marker is inline code exactly when it holds a backtick, bold exactly when it holds `**` and no backtick, and a paragraph otherwise; its parts hold no delimiter and join back into the line |
| Markdown.BlankGap | utils.py:108-114 | a line draws vertical space exactly when it is whitespace only, and then the loop moves to the next line |
| Markdown.LoneHash | utils.py:108-134 | "# " is stripped to "#" before the heading tests, so it is the paragraph "#" |
| Markdown.SegmentsNonEmpty | utils.py:171-191 | empty parts draw nothing: every run is non-empty |
| Markdown.SegmentsText | utils.py:166-191 | the runs draw every character of the parts, in order |
| Markdown.SegmentsStyles | utils.py:168-191 | one run per non-empty part, in order: the non-empty part at index `k` is run number `Kept` of the parts before it, regular when `k` is even and code or bold when odd, so empty parts (a line opening with the delimiter) shift the runs but not the styles |
| Markdown.RenderLength | utils.py:107-198 | at most one operation per input line |
| Markdown.RenderPlain | utils.py:107-198 | a document without fences draws exactly one operation per line, in order |
| Markdown.FenceClosed | utils.py:150-161 | a fence closed on line `c` draws the lines in between verbatim as one block; the closing fence is consumed, and the loop goes on after it |
| Markdown.FenceUnclosed | utils.py:154-158 | an unclosed fence takes every later line into its block and ends the document |
| Text.StartsWith | utils.py:117 | `s.startswith(p)`: `p` is a prefix of `s` |
| Text.Contains | utils.py:166 | `d in s`: `d` occurs in `s` at some index |
| Text.Split | utils.py:167 | `s.split(d)`: the pieces between the leftmost non-overlapping occurrences of `d`, at least one |
| Text.Join | utils.py:13 | `d.join(parts)`: the parts with `d` between neighbours |
| Text.NatToString | bot.py:110 | `str(n)`: decimal digits with no leading zero |
| Text.RStrip | utils.py:108 | `rstrip()` keeps the longest prefix that does not end in whitespace, and only whitespace is removed |
| Text.Find | utils.py:166 | `d in s` holds exactly when there is an occurrence, and the index found is the first one |
| Text.JoinSplit | utils.py:167 | joining the parts of `split(d)` with `d` gives the line back |
| Text.SplitPartsFree | utils.py:167 | no part of `split(d)` contains `d` |
| Text.SplitJoin | utils.py:13 | splitting a text joined on a one-character delimiter that no part holds gives the parts back |
| Text.SplitLines | utils.py:104 | no line of `splitlines()` contains a line boundary |
| Text.SplitLinesTerminated | utils.py:104 | a text whose every line ends in a newline splits back into exactly those lines |
| Text.ParseNatToString | bot.py:110 | `str(n)` reads back as `n` |

## Left out

- Discord itself is not modelled: the API calls, slash-command registration,
  `defer`, `followup.send`, `user.send`, `on_ready` and `bot.run`. A handler's reply is
  the `Reply` value it returns. An exception from a send is the `delivered` flag of
  `World`, for the summary DM only.
- asyncio concurrency is not modelled. The recorder runs as a sequential loop. At
  most one command arrives during each sleep, and only `/record stop` (up to its
  wait) or `/leave`. A `/record start` that arrives during a sleep before any stop
  meets `active` and is refused (`RecordStart`). `/status` only reads.
- A `/record start` that arrives after `/record stop` has cleared `active` (bot.py:86)
  but before the recorder wakes is not modelled. Such a start passes the guard at
  bot.py:71 and reuses the connected client (bot.py:30-31). It then sets `active` again
  and creates a second recorder task (bot.py:78-79) while the first is still asleep.
  The model has a single recorder task, so it does not capture three consequences:
  the second task's `start_recording` failing on the busy client and clearing `task`
  (bot.py:59-60); the first task waking with `active` set and recording on; and the
  first stop's wait at bot.py:87 outliving that stop. The handlers, applied to
  the session in this order, do give a second `Started` reply and a fresh task.
- `await session.task` is modelled by splitting `/record stop` at its wait:
  `RecordStop`, then the recorder runs to its end, then `CompleteStop`. A task that
  never ends (`Sleeping`) stands for more rounds than the model was given.
- The asynchronous timing of `on_chunk_end` is not modelled: the callback runs
  immediately when `stop_recording` is called.
- Recording.Session.Recorder: the flush after the loop (bot.py:57-58) is not a step
  of the model. Every round already stops its recording at bot.py:54-55, so the
  flush never finds the client recording.
- Recording.Session.Leave: `disconnect()` is modelled as clearing `connected` only.
  What it does to a sink that is still recording belongs to Discord's library and is
  not modelled.
- Recording.Session.SafeConnect: `connect()` always succeeds in the model. Its
  timeouts and client errors are left out. The new client is not added to the bot's
  client list.
- Recording.Session.OnChunkEnd: the file system is not modelled. The bytes the file
  ends up with are returned as a value.
- ffmpeg, `tempfile.mktemp`, file writes and `unlink` are not modelled. The merged
  and mp3 paths and each run's success are inputs (`World`). Pipeline.CombineAudio
  does not say that ffmpeg fails on the empty concat list of `combine_audio([])`.
  That outcome is an input like any other.
- The OpenAI calls are inputs: the two transcription answers and the summary
  (`summarize`, `SYSTEM_PROMPT`). So is `os.getenv` for the model names.
- FPDF layout is not modelled: fonts, sizes, `ln` spacing, cell widths,
  `get_string_width`, and the floating-point wrap test at utils.py:189. A `Runs`
  operation therefore carries no line breaks. Whether FPDF can encode the glyphs
  and write the file is the `pdfOk` input.
- The timestamped file names from `datetime.now` are inputs: `Round.fname` and
  `World.pdf`.
- `load_dotenv`, `DISCORD_TOKEN`, `CHUNK_SEC` and the creation of the recording
  directories are configuration and are not part of this model.

## Findings

| source | as written | input that shows it | evidently intended | confidence | as-written member | corrected member |
|---|---|---|---|---|---|---|
| bot.py:86-87 | `/record stop` always runs `await session.task`. But the recorder's `finally` sets `task` to None whenever it ends, including when `start_recording` raises while `active` is still set. | Discord drops the voice connection after the first chunk. The recorder's next `start_recording` raises, so the session is active with one chunk and no task. `/record stop` then raises a `TypeError`: `active` is false, but the chunks are neither processed nor cleared, and the next meeting's summary includes them (`Recording.DroppedConnectionAsWritten`). | wait only when a recorder task exists, then process the chunks recorded so far and reset (`Recording.DroppedConnection`) | not executed | Recording.Session.RecordStopAsWritten | Recording.Session.RecordStop |
