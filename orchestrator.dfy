/** The recording session behind the `?record` chat command: one session slot
    that moves ready -> starting -> recording -> saving -> ready, the checks
    each subcommand makes against it, the stop-time upload with its local
    fallback, and the handler that turns chat lines into replies.

    The chat client, the browser and recorder, the video host and the file
    system are collaborators: what they answer comes in as a `Collaborators`
    record, and what is sent or written to them comes out as `Effect`s. */
module Orchestrator {
  import opened Wrappers
  import opened DateFormat
  import opened CommandLine

  newtype byte = x: int | 0 <= x < 256

  type Bytes = seq<byte>

  /** The handle of a running recorder. Only the screen URL it was given is
      modelled; everything else it does is answered through `Collaborators`. */
  class Recorder {
    var screenUrl: Option<string>

    constructor (screenUrl: Option<string>)
      ensures this.screenUrl == screenUrl
    {
      this.screenUrl := screenUrl;
    }

    method SetScreenUrl(url: Option<string>)
      modifies this
      ensures screenUrl == url
    {
      screenUrl := url;
    }
  }

  /** The session slot. */
  datatype State = Ready(screenUrl: Option<string>) | Starting | Recording(recorder: Recorder) | Saving

  /** The `type` tag of a state. */
  datatype StateType = ReadyType | StartingType | RecordingType | SavingType

  function TypeOf(s: State): StateType {
    match s
    case Ready(_) => ReadyType
    case Starting => StartingType
    case Recording(_) => RecordingType
    case Saving => SavingType
  }

  /** The only move out of each state: around the cycle, one step at a time. */
  function Next(t: StateType): StateType {
    match t
    case ReadyType => StartingType
    case StartingType => RecordingType
    case RecordingType => SavingType
    case SavingType => ReadyType
  }

  const SavingNow: string := "saving record now"
  const StartingNow: string := "starting recorder now"
  const RecordingNow: string := "recording now"
  const NotRecording: string := "not recording. please start."
  const NoVoiceChannel: string := "please connect to voice channel"
  const FromDirectMessage: string := "you must not send from DM!"
  const InvalidCommand: string := "invalid command"
  const ScreenUrlSet: string := "screen url successfully set!"
  const Launched: string := "recorder successfully launched!"
  const Stopped: string := "recorder successfully stopped!"
  const UploadFailedReply: string := "uploading to youtube failed"
  const VideoUrlPrefix: string := "https://youtu.be/"
  const TitlePrefix: string := "infra-workshop session at "
  const Unlisted: string := "unlisted"

  /** Subcommands whose handler looks at the slot first. */
  predicate IsStateChecked(c: Command) {
    !(c.Help? || c.Invalid?)
  }

  /** The `CommandError` a subcommand raises in a state of the given type,
      or None when the subcommand goes ahead. */
  function Rejection(c: Command, t: StateType): Option<string> {
    match c
    case SetScreenUrl(_) =>
      (match t
       case SavingType => Some(SavingNow)
       case StartingType => Some(StartingNow)
       case _ => None)
    case Start =>
      (match t
       case SavingType => Some(SavingNow)
       case RecordingType => Some(RecordingNow)
       case StartingType => Some(StartingNow)
       case ReadyType => None)
    case Stop | Take | Debug =>
      (match t
       case SavingType => Some(SavingNow)
       case StartingType => Some(StartingNow)
       case ReadyType => Some(NotRecording)
       case RecordingType => None)
    case _ => None
  }

  /** While starting or saving, every checked subcommand is refused with the
      message naming that state. */
  lemma TransientStatesRefuseAll(c: Command)
    requires IsStateChecked(c)
    ensures Rejection(c, SavingType) == Some(SavingNow)
    ensures Rejection(c, StartingType) == Some(StartingNow)
  {
  }

  /** The legality matrix: the screen URL can be set in two states, every
      other checked subcommand goes ahead in exactly one. */
  lemma LegalityMatrix(c: Command, t: StateType)
    requires IsStateChecked(c)
    ensures c.SetScreenUrl? ==> (Rejection(c, t).None? <==> t == ReadyType || t == RecordingType)
    ensures c.Start? ==> (Rejection(c, t).None? <==> t == ReadyType)
    ensures (c.Stop? || c.Take? || c.Debug?) ==> (Rejection(c, t).None? <==> t == RecordingType)
  {
  }

  /** The video host's answer at stop time: not configured (upload disabled),
      the id of the uploaded video, or a failed upload. */
  datatype UploadOutcome = Disabled | Uploaded(videoId: string) | UploadFailed

  /** What the collaborators answer while a command is handled. */
  datatype Collaborators = Collaborators(
    inVoiceChannel: bool,     // the sender is in a voice channel
    acquires: bool,           // the browser page, the chat controller and the voice connection are obtained
    recorderStarts: bool,     // the recorder's start resolves
    captured: Option<Bytes>,  // what the recorder's stop resolves to; None when it rejects
    startAt: Date,            // when the recorder started
    upload: UploadOutcome,
    now: Date,                // the clock when the fallback file is named
    saves: bool,              // creating the video directory and writing the file succeed
    shot: Bytes,              // what the recorder's screenshot resolves to
    debugEnabled: bool)       // what the recorder's debug toggle resolves to

  /** What a command sends or writes, in order. */
  datatype Effect =
    | Reply(text: string)
    | SendFiles(data: Bytes)
    | HelpCard
    | UploadVideo(title: string, privacy: string, data: Bytes)
    | WriteFile(name: string, data: Bytes)

  /** How a subcommand ends: it finished, it raised a `CommandError`, or
      another error escaped after the given effects. */
  datatype Outcome = Done(effects: seq<Effect>) | Rejected(message: string) | Fault(effects: seq<Effect>)

  /** How the handler ends: it returned without a reply, it finished with
      the given effects, or an error that is not a `CommandError` was
      rethrown after them. */
  datatype Handling = Ignored | Handled(effects: seq<Effect>) | Unhandled(effects: seq<Effect>)

  function VideoTitle(startAt: Date): string {
    TitlePrefix + FormatDateForVideoName(startAt)
  }

  /** The stop-time protocol once the recorder has handed over `data`: start
      the upload if a host is configured, report the stop, then either report
      the video's address or report the failure and save the data under the
      fallback name. */
  function SaveProtocol(env: Collaborators, data: Bytes): Outcome {
    var request := if env.upload.Disabled? then [] else [UploadVideo(VideoTitle(env.startAt), Unlisted, data)];
    var stopped := request + [Reply(Stopped)];
    match env.upload
    case Uploaded(id) => Done(stopped + [Reply("record is uploaded to " + VideoUrlPrefix + id)])
    case _ =>
      var name := FallbackFileName(env.now);
      var failed := stopped + [Reply(UploadFailedReply)];
      if env.saves then Done(failed + [WriteFile(name, data), Reply("record file is saved to " + name)])
      else Fault(failed)
  }

  /** The files an effect list writes, in order: name and contents. */
  function WrittenFiles(effects: seq<Effect>): seq<(string, Bytes)> {
    if effects == [] then []
    else
      var rest := WrittenFiles(effects[1..]);
      if effects[0].WriteFile? then [(effects[0].name, effects[0].data)] + rest else rest
  }

  lemma {:induction false} WrittenFilesAppend(a: seq<Effect>, b: seq<Effect>)
    ensures WrittenFiles(a + b) == WrittenFiles(a) + WrittenFiles(b)
  {
    if a == [] {
      assert a + b == b;
    } else {
      assert (a + b)[0] == a[0];
      assert (a + b)[1..] == a[1..] + b;
      WrittenFilesAppend(a[1..], b);
    }
  }

  /** The stop reply and the upload request write nothing. */
  lemma StoppedWritesNothing(env: Collaborators, data: Bytes)
    ensures WrittenFiles((if env.upload.Disabled? then [] else [UploadVideo(VideoTitle(env.startAt), Unlisted, data)]) + [Reply(Stopped)]) == []
  {
    var request := if env.upload.Disabled? then [] else [UploadVideo(VideoTitle(env.startAt), Unlisted, data)];
    WrittenFilesAppend(request, [Reply(Stopped)]);
    assert WrittenFiles([Reply(Stopped)]) == [] by {
      assert [Reply(Stopped)][1..] == [];
    }
    if request != [] {
      assert request[1..] == [];
    }
  }

  /** A successful upload finishes, writes no file and replies with the
      video's address. */
  lemma UploadSuccessWritesNothing(env: Collaborators, data: Bytes)
    requires env.upload.Uploaded?
    ensures SaveProtocol(env, data).Done?
    ensures WrittenFiles(SaveProtocol(env, data).effects) == []
    ensures Reply("record is uploaded to " + VideoUrlPrefix + env.upload.videoId) in SaveProtocol(env, data).effects
  {
    var request := [UploadVideo(VideoTitle(env.startAt), Unlisted, data)];
    var reply := Reply("record is uploaded to " + VideoUrlPrefix + env.upload.videoId);
    StoppedWritesNothing(env, data);
    WrittenFilesAppend(request + [Reply(Stopped)], [reply]);
    assert WrittenFiles([reply]) == [] by {
      assert [reply][1..] == [];
    }
  }

  /** Without a successful upload, the protocol finishes exactly when the
      file system cooperates, and then it writes one file: the recorder's
      bytes, unchanged, under the fallback name. A failed write writes nothing. */
  lemma FallbackSavesCapturedBytes(env: Collaborators, data: Bytes)
    requires !env.upload.Uploaded?
    ensures SaveProtocol(env, data).Done? <==> env.saves
    ensures WrittenFiles(SaveProtocol(env, data).effects)
      == if env.saves then [(FallbackFileName(env.now), data)] else []
  {
    var request := if env.upload.Disabled? then [] else [UploadVideo(VideoTitle(env.startAt), Unlisted, data)];
    var name := FallbackFileName(env.now);
    var failed := request + [Reply(Stopped)] + [Reply(UploadFailedReply)];
    var saved := [WriteFile(name, data), Reply("record file is saved to " + name)];
    StoppedWritesNothing(env, data);
    WrittenFilesAppend(request + [Reply(Stopped)], [Reply(UploadFailedReply)]);
    assert WrittenFiles([Reply(UploadFailedReply)]) == [] by {
      assert [Reply(UploadFailedReply)][1..] == [];
    }
    if env.saves {
      WrittenFilesAppend(failed, saved);
      assert saved[1..][1..] == [];
    }
  }

  /** When a host is configured the upload is requested first, unlisted, with
      the recorder's bytes and a title whose stamp reads back as the start time. */
  lemma UploadRequestCarriesStartTime(env: Collaborators, data: Bytes)
    requires !env.upload.Disabled? && WellFormed(env.startAt)
    ensures var effects := SaveProtocol(env, data).effects;
      && |effects| >= 1 && effects[0].UploadVideo?
      && effects[0].privacy == Unlisted && effects[0].data == data
      && var title := effects[0].title;
         |title| >= |TitlePrefix| && title[..|TitlePrefix|] == TitlePrefix
         && ParseStamp(title[|TitlePrefix|..], '/', ' ', ':') == Some(env.startAt)
  {
    var title := VideoTitle(env.startAt);
    StampRoundTrip(env.startAt, '/', ' ', ':');
    assert title[|TitlePrefix|..] == FormatDateForVideoName(env.startAt);
  }

  /** The debug reply as the source writes it: `+` binds tighter than `?:`,
      so the condition is the concatenated text, which is never empty. */
  function DebugReplyAsWritten(enabled: bool): string {
    if "toggled. debug: " + (if enabled then "true" else "false") != "" then "enabled" else "disabled"
  }

  /** The reply is "enabled" even when the recorder reports debug as off. */
  lemma DebugReplyIgnoresFlag()
    ensures DebugReplyAsWritten(false) == "enabled"
    ensures DebugReplyAsWritten(true) == DebugReplyAsWritten(false)
  {
  }

  /** The debug reply as intended: the text followed by the flag's word. */
  function DebugReply(enabled: bool): string {
    "toggled. debug: " + (if enabled then "enabled" else "disabled")
  }

  /** The intended reply tells the two flag values apart. */
  lemma DebugReplyReportsFlag(a: bool, b: bool)
    ensures DebugReply(a) == DebugReply(b) <==> a == b
  {
    if a != b {
      assert |DebugReply(a)| != |DebugReply(b)|;
    }
  }

  /** How the handler passes a subcommand's outcome on: a `CommandError`
      becomes the reply, any other error is rethrown. */
  function Deliver(out: Outcome): (h: Handling)
    ensures h.Ignored? == false
    ensures out.Rejected? ==> h == Handled([Reply(out.message)])
    ensures !out.Rejected? ==> (h.Unhandled? <==> out.Fault?) && h.effects == out.effects
  {
    match out
    case Done(effects) => Handled(effects)
    case Rejected(message) => Handled([Reply(message)])
    case Fault(effects) => Unhandled(effects)
  }

  /** The `CommandError` a chat line meets in a state of the given type. */
  function LineRejection(content: string, t: StateType): Option<string> {
    match Parse(content)
    case Some(c) => Rejection(c, t)
    case None => None
  }

  /** The one owner of the session slot. `history` records every state type
      the slot has held, in order. */
  class Session {
    var state: State
    ghost var history: seq<StateType>

    /** The slot started ready and has only ever moved one step around the
      cycle at a time. */
    ghost predicate Valid()
      reads this
    {
      && |history| >= 1
      && history[0] == ReadyType
      && history[|history| - 1] == TypeOf(state)
      && forall i :: 0 < i < |history| ==> history[i] == Next(history[i - 1])
    }

    /** The recorder the slot holds, if any: the one object besides the
      session a command may change. */
    function Handles(): set<Recorder>
      reads this
    {
      if state.Recording? then {state.recorder} else {}
    }

    constructor ()
      ensures Valid() && state == Ready(None) && history == [ReadyType]
    {
      state := Ready(None);
      history := [ReadyType];
    }

    /** `screen` / `url`: sets the URL while ready, hands it to the recorder
      while recording, and is refused otherwise. */
    method HandleScreen(args: Option<string>) returns (out: Outcome)
      requires Valid()
      modifies this, Handles()
      ensures Valid() && history == old(history)
      ensures Rejection(SetScreenUrl(args), TypeOf(old(state))).Some? ==>
        out == Rejected(Rejection(SetScreenUrl(args), TypeOf(old(state))).value) && state == old(state)
      ensures old(state).Ready? ==> state == Ready(args) && out == Done([Reply(ScreenUrlSet)])
      ensures old(state).Recording? ==>
        state == old(state) && state.recorder.screenUrl == args && out == Done([Reply(ScreenUrlSet)])
    {
      match state {
        case Saving =>
          return Rejected(SavingNow);
        case Starting =>
          return Rejected(StartingNow);
        case Recording(recorder) =>
          recorder.SetScreenUrl(args);
        case Ready(_) =>
          state := state.(screenUrl := args);
      }
      out := Done([Reply(ScreenUrlSet)]);
    }

    /** `start`: from ready only, and only for a sender in a voice channel.
      The slot becomes starting before anything is acquired and recording
      once everything is; a failure on the way is rethrown and leaves the
      slot where it got to. The new recorder takes over the screen URL. */
    method HandleStart(env: Collaborators) returns (out: Outcome)
      requires Valid()
      modifies this
      ensures Valid()
      ensures Rejection(Start, TypeOf(old(state))).Some? ==>
        out == Rejected(Rejection(Start, TypeOf(old(state))).value) && state == old(state) && history == old(history)
      ensures old(state).Ready? && !env.inVoiceChannel ==>
        out == Rejected(NoVoiceChannel) && state == old(state) && history == old(history)
      ensures old(state).Ready? && env.inVoiceChannel && !env.acquires ==>
        out == Fault([]) && state == Starting && history == old(history) + [StartingType]
      ensures old(state).Ready? && env.inVoiceChannel && env.acquires ==>
        && state.Recording? && fresh(state.recorder) && state.recorder.screenUrl == old(state).screenUrl
        && history == old(history) + [StartingType, RecordingType]
        && out == if env.recorderStarts then Done([Reply(Launched)]) else Fault([])
    {
      match state {
        case Saving =>
          return Rejected(SavingNow);
        case Recording(_) =>
          return Rejected(RecordingNow);
        case Starting =>
          return Rejected(StartingNow);
        case Ready(_) =>
      }
      if !env.inVoiceChannel {
        return Rejected(NoVoiceChannel);
      }
      var screenUrl := state.screenUrl;
      state := Starting;
      history := history + [StartingType];
      if !env.acquires {
        return Fault([]);
      }
      var recorder := new Recorder(screenUrl);
      state := Recording(recorder);
      history := history + [RecordingType];
      if !env.recorderStarts {
        return Fault([]);
      }
      out := Done([Reply(Launched)]);
    }

    /** `stop`: from recording only. The slot becomes saving before the
      recorder is stopped and becomes ready, without a screen URL, only once
      the upload or the fallback save has finished; a failure of the recorder
      or of the file system leaves it saving. */
    method HandleStop(env: Collaborators) returns (out: Outcome)
      requires Valid()
      modifies this
      ensures Valid()
      ensures Rejection(Stop, TypeOf(old(state))).Some? ==>
        out == Rejected(Rejection(Stop, TypeOf(old(state))).value) && state == old(state) && history == old(history)
      ensures old(state).Recording? && env.captured.None? ==>
        out == Fault([]) && state == Saving && history == old(history) + [SavingType]
      ensures old(state).Recording? && env.captured.Some? ==>
        && out == SaveProtocol(env, env.captured.value)
        && state == (if out.Done? then Ready(None) else Saving)
        && history == old(history) + (if out.Done? then [SavingType, ReadyType] else [SavingType])
    {
      match state {
        case Saving =>
          return Rejected(SavingNow);
        case Starting =>
          return Rejected(StartingNow);
        case Ready(_) =>
          return Rejected(NotRecording);
        case Recording(_) =>
      }
      state := Saving;
      history := history + [SavingType];
      if env.captured.None? {
        return Fault([]);
      }
      var data := env.captured.value;
      var effects := if env.upload.Disabled? then [] else [UploadVideo(VideoTitle(env.startAt), Unlisted, data)];
      effects := effects + [Reply(Stopped)];
      match env.upload {
        case Uploaded(id) =>
          effects := effects + [Reply("record is uploaded to " + VideoUrlPrefix + id)];
        case _ =>
          effects := effects + [Reply(UploadFailedReply)];
          var fileName := FallbackFileName(env.now);
          if !env.saves {
            return Fault(effects);
          }
          effects := effects + [WriteFile(fileName, data), Reply("record file is saved to " + fileName)];
      }
      state := Ready(None);
      history := history + [ReadyType];
      out := Done(effects);
    }

    /** `take`: from recording only; sends the screenshot to the channel. */
    method HandleTake(env: Collaborators) returns (out: Outcome)
      ensures Rejection(Take, TypeOf(state)).Some? ==> out == Rejected(Rejection(Take, TypeOf(state)).value)
      ensures state.Recording? ==> out == Done([SendFiles(env.shot)])
    {
      match state {
        case Saving =>
          return Rejected(SavingNow);
        case Starting =>
          return Rejected(StartingNow);
        case Ready(_) =>
          return Rejected(NotRecording);
        case Recording(_) =>
      }
      out := Done([SendFiles(env.shot)]);
    }

    /** `debug`: from recording only; toggles the recorder's debug mode and
      replies with the text the source computes, which does not depend on
      the new setting (see `DebugReplyIgnoresFlag`). */
    method HandleDebug(env: Collaborators) returns (out: Outcome)
      ensures Rejection(Debug, TypeOf(state)).Some? ==> out == Rejected(Rejection(Debug, TypeOf(state)).value)
      ensures state.Recording? ==> out == Done([Reply(DebugReplyAsWritten(env.debugEnabled))])
    {
      match state {
        case Saving =>
          return Rejected(SavingNow);
        case Starting =>
          return Rejected(StartingNow);
        case Ready(_) =>
          return Rejected(NotRecording);
        case Recording(_) =>
      }
      out := Done([Reply(DebugReplyAsWritten(env.debugEnabled))]);
    }

    /** The message handler: ignores lines without the `?record` prefix,
      refuses direct messages, ignores lines whose first field is not
      `?record`, and otherwise runs the subcommand. A `CommandError` becomes
      the reply; any other error is rethrown. */
    method OnMessage(content: string, inTextChannel: bool, env: Collaborators) returns (h: Handling)
      requires Valid()
      modifies this, Handles()
      ensures Valid()
      ensures !StartsWith(content, Prefix) ==> h == Ignored && state == old(state) && history == old(history)
      ensures StartsWith(content, Prefix) && !inTextChannel ==>
        h == Handled([Reply(FromDirectMessage)]) && state == old(state) && history == old(history)
      ensures StartsWith(content, Prefix) && inTextChannel && Parse(content).None? ==>
        h == Ignored && state == old(state) && history == old(history)
      ensures StartsWith(content, Prefix) && inTextChannel && LineRejection(content, TypeOf(old(state))).Some? ==>
        && h == Handled([Reply(LineRejection(content, TypeOf(old(state))).value)])
        && state == old(state) && history == old(history)
      ensures StartsWith(content, Prefix) && inTextChannel && Parse(content) == Some(Help) ==>
        h == Handled([HelpCard]) && state == old(state) && history == old(history)
      ensures StartsWith(content, Prefix) && inTextChannel && Parse(content) == Some(Invalid) ==>
        h == Handled([Reply(InvalidCommand)]) && state == old(state) && history == old(history)
      ensures inTextChannel && Parse(content).Some? && Parse(content).value.SetScreenUrl? && old(state).Ready? ==>
        h == Handled([Reply(ScreenUrlSet)]) && state == Ready(Parse(content).value.args) && history == old(history)
      ensures inTextChannel && Parse(content).Some? && Parse(content).value.SetScreenUrl? && old(state).Recording? ==>
        && h == Handled([Reply(ScreenUrlSet)]) && state == old(state)
        && state.recorder.screenUrl == Parse(content).value.args && history == old(history)
      ensures inTextChannel && Parse(content) == Some(Start) && old(state).Ready? && !env.inVoiceChannel ==>
        h == Handled([Reply(NoVoiceChannel)]) && state == old(state) && history == old(history)
      ensures inTextChannel && Parse(content) == Some(Start) && old(state).Ready? && env.inVoiceChannel && !env.acquires ==>
        h == Unhandled([]) && state == Starting && history == old(history) + [StartingType]
      ensures inTextChannel && Parse(content) == Some(Start) && old(state).Ready? && env.inVoiceChannel && env.acquires ==>
        && h == (if env.recorderStarts then Handled([Reply(Launched)]) else Unhandled([]))
        && state.Recording? && fresh(state.recorder)
        && state.recorder.screenUrl == old(state).screenUrl
        && history == old(history) + [StartingType, RecordingType]
      ensures inTextChannel && Parse(content) == Some(Stop) && old(state).Recording? && env.captured.None? ==>
        h == Unhandled([]) && state == Saving && history == old(history) + [SavingType]
      ensures inTextChannel && Parse(content) == Some(Stop) && old(state).Recording? && env.captured.Some? ==>
        && h == Deliver(SaveProtocol(env, env.captured.value))
        && state == (if h.Handled? then Ready(None) else Saving)
        && history == old(history) + (if h.Handled? then [SavingType, ReadyType] else [SavingType])
      ensures inTextChannel && Parse(content) == Some(Take) && old(state).Recording? ==>
        h == Handled([SendFiles(env.shot)]) && state == old(state) && history == old(history)
      ensures inTextChannel && Parse(content) == Some(Debug) && old(state).Recording? ==>
        h == Handled([Reply(DebugReplyAsWritten(env.debugEnabled))]) && state == old(state) && history == old(history)
      ensures h.Unhandled? ==> !env.acquires || !env.recorderStarts || env.captured.None? || !env.saves
      ensures old(state) == Starting ==> state == Starting
      ensures old(state) == Saving ==> state == Saving
      ensures !(inTextChannel && Parse(content).Some? && Parse(content).value.SetScreenUrl?) ==>
        unchanged(old(Handles()))
    {
      ParsedLineStartsWithPrefix(content);
      if !StartsWith(content, Prefix) {
        return Ignored;
      }
      if !inTextChannel {
        return Handled([Reply(FromDirectMessage)]);
      }
      var command := Parse(content);
      if command.None? {
        return Ignored;
      }
      var out: Outcome;
      match command.value {
        case SetScreenUrl(args) =>
          out := HandleScreen(args);
        case Start =>
          out := HandleStart(env);
        case Stop =>
          out := HandleStop(env);
        case Take =>
          out := HandleTake(env);
        case Debug =>
          out := HandleDebug(env);
        case Help =>
          out := Done([HelpCard]);
        case Invalid =>
          out := Done([Reply(InvalidCommand)]);
      }
      h := Deliver(out);
    }
  }

  /** A `stop` sent to a fresh session is refused with "not recording" and
      the slot stays ready. */
  method StopWhileReady(env: Collaborators) returns (h: Handling, final: State)
    ensures h == Handled([Reply(NotRecording)]) && final == Ready(None)
  {
    var session := new Session();
    ParseRender(Stop);
    h := session.OnMessage(Render(Stop), true, env);
    final := session.state;
  }

  /** A whole session with no video host: set the screen URL, start, stop.
      The recorder is created with the URL (`recorderUrl`), the recording is saved once under
      the fallback name, and the slot is ready again without a URL. */
  method RecordAndSaveLocally(url: string, data: Bytes, env: Collaborators)
    returns (replies: seq<Handling>, recorderUrl: Option<string>, final: State)
    requires NoWhitespace(url)
    requires env.inVoiceChannel && env.acquires && env.recorderStarts
    requires env.captured == Some(data) && env.upload.Disabled? && env.saves
    ensures |replies| == 3
    ensures replies[0] == Handled([Reply(ScreenUrlSet)])
    ensures replies[1] == Handled([Reply(Launched)])
    ensures recorderUrl == Some(url)
    ensures replies[2] == Handled(SaveProtocol(env, data).effects)
    ensures WrittenFiles(replies[2].effects) == [(FallbackFileName(env.now), data)]
    ensures final == Ready(None)
  {
    var session := new Session();
    ParseRender(SetScreenUrl(Some(url)));
    var h0 := session.OnMessage(Render(SetScreenUrl(Some(url))), true, env);
    ParseRender(Start);
    var h1 := session.OnMessage(Render(Start), true, env);
    recorderUrl := session.state.recorder.screenUrl;
    ParseRender(Stop);
    FallbackSavesCapturedBytes(env, data);
    var h2 := session.OnMessage(Render(Stop), true, env);
    replies := [h0, h1, h2];
    final := session.state;
  }
}
