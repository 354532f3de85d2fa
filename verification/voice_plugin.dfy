/** The voice-message pipeline of the plugin: for every voice component of an
    incoming message it prepares the audio file, transcribes it, records the
    transcript into the conversation history, applies the group "record-only"
    gate, asks the reply engine whether to reply, requests an LLM reply, and
    always cleans up.

    Every collaborator (permission service, voice-processing service, speech to
    text, conversation manager, LLM provider, random draw, clock) is an input,
    so a pipeline run is a pure function from those answers to an outcome, an
    ordered trace of effects and the next reply-service state. */
module VoicePlugin {
  import opened Wrappers
  import RS = ReplyService

  // ---------------------------------------------------------------------------
  // Plugin settings and the incoming event
  // ---------------------------------------------------------------------------

  /** `Chat_Reply.Enable_Chat_Reply`, defaulting to true. */
  function LoadEnableChatReply(cfg: RS.Config): (enabled: bool)
    ensures RS.ChatReply(cfg).enableChatReply.None? ==> enabled
    ensures RS.ChatReply(cfg).enableChatReply.Some? ==> enabled == RS.ChatReply(cfg).enableChatReply.value
  {
    RS.ChatReply(cfg).enableChatReply.GetOr(true)
  }

  /** The settings the pipeline reads: the global reply switch and the permission
      service's two group flags. `groupVoiceReply` is `None` when the attribute
      holds something other than a boolean, which `is False` does not match. */
  datatype Settings = Settings(
    enableChatReply: bool,
    groupVoiceRecognition: bool,
    groupVoiceReply: Option<bool>)

  /** The plugin's settings: the reply switch read from the configuration, and
      the permission service's group flags, which that service computes. */
  function LoadSettings(cfg: RS.Config, groupVoiceRecognition: bool, groupVoiceReply: Option<bool>): (st: Settings)
    ensures st.enableChatReply == LoadEnableChatReply(cfg)
    ensures RS.ChatReply(cfg).enableChatReply.None? ==> st.enableChatReply
    ensures st.groupVoiceRecognition == groupVoiceRecognition && st.groupVoiceReply == groupVoiceReply
  {
    Settings(LoadEnableChatReply(cfg), groupVoiceRecognition, groupVoiceReply)
  }

  /** The incoming message event, with the permission service's verdicts on it. */
  datatype MessageEvent = MessageEvent(
    isGroup: bool,
    origin: string,            // unified_msg_origin, the session identifier
    canProcessVoice: bool,
    canGenerateReply: bool)

  // ---------------------------------------------------------------------------
  // Collaborator answers for one voice component
  // ---------------------------------------------------------------------------

  /** What the voice-processing service did with the audio. */
  datatype FileAnswer = FileReturned(path: Option<string>) | FileRaised

  /** What the speech-to-text service did with the file. */
  datatype SttAnswer = SttReturned(text: Option<string>) | SttProviderError | SttOtherError

  /** The conversation-manager calls made while recording, in order. */
  datatype HistoryStep = AtCurrentLookup | AtCreate | AtFetch | AtUpdate

  datatype HistoryEntry = HistoryEntry(role: string, content: string)

  /** The conversation manager's answers while recording: the current
      conversation id, the id a new conversation would get, the decoded history
      of the fetched conversation (empty when it has none), and the call that
      raises, if any. */
  datatype ConversationAnswers = ConversationAnswers(
    currentId: Option<string>,
    createdId: string,
    history: seq<HistoryEntry>,
    raisesAt: Option<HistoryStep>)

  /** The answers while requesting a reply: whether an LLM provider is
      configured, the current conversation id, and whether looking up the
      conversation raises. */
  datatype ReplyContext = ReplyContext(
    providerPresent: bool,
    currentId: Option<string>,
    lookupRaises: bool)

  /** An unexpected exception while evaluating one of the two gates, if any. */
  datatype Fault = NoFault | GroupGateFault | ReplyGateFault

  /** Everything the outside world answers during one pipeline run. */
  datatype VoiceInputs = VoiceInputs(
    file: FileAnswer,
    stt: SttAnswer,
    conversations: ConversationAnswers,
    replyContext: ReplyContext,
    draw: real,                // random.random() of the decision
    decidedAt: real,           // time.time() of the decision
    sweptAt: real,             // time.time() of the cleanup sweep
    fileCleanupRaises: bool,
    fault: Fault)

  /** A component of the message chain. */
  datatype Component = Voice(inputs: VoiceInputs) | OtherComponent

  // ---------------------------------------------------------------------------
  // Effects and outcomes
  // ---------------------------------------------------------------------------

  /** What recording did: the history written to a conversation (and whether
      that conversation was created first), or the call that raised. */
  datatype RecordResult =
    | Recorded(conversationId: string, created: bool, history: seq<HistoryEntry>)
    | RecordFailed(step: HistoryStep)

  datatype Effect =
    | Record(result: RecordResult)
    | StopEvent
    | DecideReply(reply: bool)
    | RequestLlm(prompt: string, conversationId: Option<string>, conversationLookedUp: bool)
    | Cleanup(swept: bool)

  datatype Outcome =
    | FileError
    | TranscriptionEmpty
    | RecordedOnly
    | ReplyNotAllowed
    | ReplySkipped
    | NoProvider
    | ReplyFailed
    | ReplyEmitted
    | Error

  datatype Run = Run(outcome: Outcome, trace: seq<Effect>, service: RS.Service)

  // ---------------------------------------------------------------------------
  // Stages
  // ---------------------------------------------------------------------------

  const VoiceEntryPrefix: string := "[语音消息] "
  const PromptPrefix: string := "用户通过语音说了: "

  /** `_process_voice_file` followed by the pipeline's `if not path` test: the
      path when one was returned and is non-empty; an exception is swallowed. */
  function UsablePath(a: FileAnswer): (path: Option<string>)
    ensures path.Some? <==> a.FileReturned? && NonEmpty(a.path)
    ensures path.Some? ==> path.value != "" && path == a.path
  {
    match a
    case FileRaised => None
    case FileReturned(p) => if NonEmpty(p) then p else None
  }

  /** `_transcribe_voice` followed by the pipeline's `if not text` test: the
      transcript when one was returned and is non-empty; provider errors and
      any other exception are swallowed. */
  function UsableTranscript(a: SttAnswer): (text: Option<string>)
    ensures text.Some? <==> a.SttReturned? && NonEmpty(a.text)
    ensures text.Some? ==> text.value != "" && text == a.text
  {
    match a
    case SttReturned(t) => if NonEmpty(t) then t else None
    case SttProviderError => None
    case SttOtherError => None
  }

  /** The history entry that records a transcript. */
  function VoiceEntry(text: string): (e: HistoryEntry)
    ensures e.role == "user"
    ensures |e.content| == |VoiceEntryPrefix| + |text|
    ensures e.content[..|VoiceEntryPrefix|] == VoiceEntryPrefix
    ensures e.content[|VoiceEntryPrefix|..] == text
  {
    HistoryEntry("user", VoiceEntryPrefix + text)
  }

  /** The transcript a voice entry's content carries. */
  function EntryText(content: string): Option<string> {
    if |VoiceEntryPrefix| <= |content| && content[..|VoiceEntryPrefix|] == VoiceEntryPrefix then
      Some(content[|VoiceEntryPrefix|..])
    else
      None
  }

  /** The call at which recording stops: the configured one, except that
      `new_conversation` is only called when there is no current conversation. */
  function RecordFailure(c: ConversationAnswers): Option<HistoryStep> {
    if c.raisesAt == Some(AtCreate) && NonEmpty(c.currentId) then None else c.raisesAt
  }

  /** `_record_voice_to_history`: appends one user entry to the current
      conversation's history, creating a conversation first when there is no
      current one; any exception is swallowed. */
  function RecordVoiceToHistory(text: string, c: ConversationAnswers): (r: RecordResult)
    ensures r.RecordFailed? <==> c.raisesAt.Some? && !(c.raisesAt == Some(AtCreate) && NonEmpty(c.currentId))
    ensures r.RecordFailed? ==> r.step == c.raisesAt.value
    ensures r.Recorded? ==>
              && |r.history| == |c.history| + 1
              && r.history[..|c.history|] == c.history
              && r.history[|c.history|].role == "user"
              && EntryText(r.history[|c.history|].content) == Some(text)
    ensures r.Recorded? ==> (r.created <==> !NonEmpty(c.currentId))
    ensures r.Recorded? && NonEmpty(c.currentId) ==> r.conversationId == c.currentId.value
    ensures r.Recorded? && !NonEmpty(c.currentId) ==> r.conversationId == c.createdId
  {
    match RecordFailure(c)
    case Some(step) => RecordFailed(step)
    case None =>
      var created := !NonEmpty(c.currentId);
      var cid := if created then c.createdId else c.currentId.value;
      Recorded(cid, created, c.history + [VoiceEntry(text)])
  }

  /** The group "record-only" gate of `_process_voice_message`. */
  function GroupGateFires(settings: Settings, ev: MessageEvent): (fires: bool)
    ensures !ev.isGroup ==> !fires
    ensures settings.groupVoiceReply != Some(false) ==> !fires
    ensures fires ==> settings.groupVoiceRecognition && ev.canProcessVoice
  {
    && ev.isGroup
    && settings.groupVoiceRecognition
    && settings.groupVoiceReply == Some(false)
    && ev.canProcessVoice
  }

  /** The reply gate: the global switch, then the permission service. */
  function ReplyPermitted(settings: Settings, ev: MessageEvent): (permitted: bool)
    ensures !settings.enableChatReply ==> !permitted
    ensures settings.enableChatReply ==> (permitted <==> ev.canGenerateReply)
  {
    settings.enableChatReply && ev.canGenerateReply
  }

  datatype ReplyAttempt = ReplyAttempt(outcome: Outcome, effects: seq<Effect>)

  /** `_generate_intelligent_reply`: one LLM request with the voice prompt, or
      nothing when no provider is configured or the context lookup raises. */
  function GenerateIntelligentReply(text: string, ctx: ReplyContext): (a: ReplyAttempt)
    ensures |a.effects| <= 1
    ensures |a.effects| == 1 <==> ctx.providerPresent && !ctx.lookupRaises
    ensures |a.effects| == 1 ==>
              && a.outcome == ReplyEmitted
              && a.effects[0].RequestLlm?
              && |PromptPrefix| <= |a.effects[0].prompt|
              && a.effects[0].prompt[..|PromptPrefix|] == PromptPrefix
              && a.effects[0].prompt[|PromptPrefix|..] == text
              && a.effects[0].conversationId == ctx.currentId
              && (a.effects[0].conversationLookedUp <==> NonEmpty(ctx.currentId))
    ensures !ctx.providerPresent ==> a.outcome == NoProvider
    ensures ctx.providerPresent && ctx.lookupRaises ==> a.outcome == ReplyFailed
  {
    if !ctx.providerPresent then
      ReplyAttempt(NoProvider, [])
    else if ctx.lookupRaises then
      ReplyAttempt(ReplyFailed, [])
    else
      ReplyAttempt(ReplyEmitted, [RequestLlm(PromptPrefix + text, ctx.currentId, NonEmpty(ctx.currentId))])
  }

  /** The stages after a transcript exists: recording, the group gate, the reply
      gate, the decision and the request. */
  function AfterTranscript(s: RS.Service, settings: Settings, ev: MessageEvent, v: VoiceInputs, text: string): (b: Run)
    ensures |b.trace| >= 1 && b.trace[0] == Record(RecordVoiceToHistory(text, v.conversations))
    ensures forall i :: 1 <= i < |b.trace| ==> !b.trace[i].Record? && !b.trace[i].Cleanup?
  {
    var rec := Record(RecordVoiceToHistory(text, v.conversations));
    if v.fault == GroupGateFault then
      Run(Error, [rec], s)
    else if GroupGateFires(settings, ev) then
      Run(RecordedOnly, [rec, StopEvent], s)
    else if settings.enableChatReply && v.fault == ReplyGateFault then
      Run(Error, [rec], s)
    else if !ReplyPermitted(settings, ev) then
      Run(ReplyNotAllowed, [rec], s)
    else
      var d := RS.ShouldGenerateReply(s, Some(ev.origin), v.draw, v.decidedAt);
      if !d.reply then
        Run(ReplySkipped, [rec, DecideReply(false)], d.service)
      else
        var attempt := GenerateIntelligentReply(text, v.replyContext);
        Run(attempt.outcome, [rec, DecideReply(true)] + attempt.effects, d.service)
  }

  /** The `try` block of `_process_voice_message`, before `finally`. */
  function Stages(s: RS.Service, settings: Settings, ev: MessageEvent, v: VoiceInputs): (b: Run)
    ensures forall i :: 0 <= i < |b.trace| ==> !b.trace[i].Cleanup?
  {
    match UsablePath(v.file)
    case None => Run(FileError, [], s)
    case Some(_) =>
      match UsableTranscript(v.stt)
      case None => Run(TranscriptionEmpty, [], s)
      case Some(text) => AfterTranscript(s, settings, ev, v, text)
  }

  /** `_cleanup_resources`: releases the voice files, then sweeps expired
      sessions with the default age; when the release raises, the sweep is
      skipped and the exception swallowed. */
  function CleanupResources(s: RS.Service, v: VoiceInputs): (r: (RS.Service, Effect))
    ensures r.1 == Cleanup(!v.fileCleanupRaises)
    ensures r.0.policy == s.policy
    ensures v.fileCleanupRaises ==> r.0 == s
    ensures !v.fileCleanupRaises ==> r.0.sessions == RS.Sweep(s.sessions, v.sweptAt, RS.DefaultMaxAge)
  {
    if v.fileCleanupRaises then (s, Cleanup(false))
    else (RS.Service(s.policy, RS.Sweep(s.sessions, v.sweptAt, RS.DefaultMaxAge)), Cleanup(true))
  }

  /** True when the trace's only `Cleanup` is its last effect. */
  predicate EndsWithSingleCleanup(trace: seq<Effect>) {
    && |trace| >= 1
    && trace[|trace| - 1].Cleanup?
    && forall i :: 0 <= i < |trace| - 1 ==> !trace[i].Cleanup?
  }

  /** `_process_voice_message`: the stages, then the cleanup on every path. */
  function ProcessVoiceMessage(s: RS.Service, settings: Settings, ev: MessageEvent, v: VoiceInputs): (run: Run)
    ensures EndsWithSingleCleanup(run.trace)
    ensures run.trace[|run.trace| - 1] == Cleanup(!v.fileCleanupRaises)
    ensures run.service.policy == s.policy
    ensures RS.Valid(s) ==> RS.Valid(run.service)
  {
    var b := Stages(s, settings, ev, v);
    var c := CleanupResources(b.service, v);
    Run(b.outcome, b.trace + [c.1], c.0)
  }

  // ---------------------------------------------------------------------------
  // on_message
  // ---------------------------------------------------------------------------

  /** The number of voice components in a message chain. */
  function VoiceCount(comps: seq<Component>): nat {
    if comps == [] then 0
    else (if comps[0].Voice? then 1 else 0) + VoiceCount(comps[1..])
  }

  /** The voice components of a message chain, in order. */
  function Voices(comps: seq<Component>): (vs: seq<VoiceInputs>)
    ensures |vs| == VoiceCount(comps)
  {
    if comps == [] then []
    else (if comps[0].Voice? then [comps[0].inputs] else []) + Voices(comps[1..])
  }

  datatype MessageRun = MessageRun(runs: seq<Run>, service: RS.Service)

  /** `m` is the result of running the pipeline on each of `vs` in turn, each
      run starting from the state the previous one left. */
  predicate RunsInTurn(s: RS.Service, settings: Settings, ev: MessageEvent, vs: seq<VoiceInputs>, m: MessageRun)
    decreases |vs|
  {
    if vs == [] then
      m.runs == [] && m.service == s
    else
      && |m.runs| >= 1
      && m.runs[0] == ProcessVoiceMessage(s, settings, ev, vs[0])
      && RunsInTurn(m.runs[0].service, settings, ev, vs[1..], MessageRun(m.runs[1..], m.service))
  }

  /** `on_message`: one pipeline per voice component, in order, each seeing the
      reply-service state the previous one left; none when the event may not be
      transcribed. */
  function OnMessage(s: RS.Service, settings: Settings, ev: MessageEvent, comps: seq<Component>): (m: MessageRun)
    ensures |m.runs| == (if ev.canProcessVoice then VoiceCount(comps) else 0)
    ensures !ev.canProcessVoice ==> m.runs == [] && m.service == s
    ensures forall i :: 0 <= i < |m.runs| ==> EndsWithSingleCleanup(m.runs[i].trace)
    ensures m.service.policy == s.policy
    ensures RS.Valid(s) ==> RS.Valid(m.service)
    decreases |comps|
  {
    if comps == [] then
      MessageRun([], s)
    else
      match comps[0]
      case OtherComponent => OnMessage(s, settings, ev, comps[1..])
      case Voice(v) =>
        if !ev.canProcessVoice then
          OnMessage(s, settings, ev, comps[1..])
        else
          var run := ProcessVoiceMessage(s, settings, ev, v);
          var rest := OnMessage(run.service, settings, ev, comps[1..]);
          MessageRun([run] + rest.runs, rest.service)
  }

  /** When the event may be transcribed, on_message runs the pipeline exactly
      once per voice component, in chain order, skipping every other component,
      and threads the reply-service state from each run into the next. */
  lemma {:induction false} OnMessageRunsVoicesInTurn(s: RS.Service, settings: Settings, ev: MessageEvent, comps: seq<Component>)
    requires ev.canProcessVoice
    ensures RunsInTurn(s, settings, ev, Voices(comps), OnMessage(s, settings, ev, comps))
    decreases |comps|
  {
    if comps != [] {
      assert Voices(comps) == (if comps[0].Voice? then [comps[0].inputs] else []) + Voices(comps[1..]);
      match comps[0]
      case OtherComponent =>
        OnMessageRunsVoicesInTurn(s, settings, ev, comps[1..]);
        assert Voices(comps) == Voices(comps[1..]);
      case Voice(v) =>
        var run := ProcessVoiceMessage(s, settings, ev, v);
        var rest := OnMessage(run.service, settings, ev, comps[1..]);
        OnMessageRunsVoicesInTurn(run.service, settings, ev, comps[1..]);
        var m := OnMessage(s, settings, ev, comps);
        assert m == MessageRun([run] + rest.runs, rest.service);
        assert m.runs[1..] == rest.runs;
        assert Voices(comps)[0] == v;
        assert Voices(comps)[1..] == Voices(comps[1..]);
    }
  }

  /** The effects of a message, run after run. */
  function Flatten(runs: seq<Run>): seq<Effect> {
    if runs == [] then [] else runs[0].trace + Flatten(runs[1..])
  }

  function CleanupCount(trace: seq<Effect>): nat {
    if trace == [] then 0
    else (if trace[0].Cleanup? then 1 else 0) + CleanupCount(trace[1..])
  }

  // ---------------------------------------------------------------------------
  // Properties
  // ---------------------------------------------------------------------------

  /** Without a usable file nothing is transcribed, recorded or replied: the
      only effect is the cleanup. */
  lemma NoFileOnlyCleansUp(s: RS.Service, settings: Settings, ev: MessageEvent, v: VoiceInputs)
    requires UsablePath(v.file).None?
    ensures var run := ProcessVoiceMessage(s, settings, ev, v);
            && run.outcome == FileError
            && run.trace == [Cleanup(!v.fileCleanupRaises)]
            && run.service == CleanupResources(s, v).0
  {
  }

  /** Without a usable transcript nothing is recorded or replied: the only
      effect is the cleanup. */
  lemma NoTranscriptOnlyCleansUp(s: RS.Service, settings: Settings, ev: MessageEvent, v: VoiceInputs)
    requires UsablePath(v.file).Some? && UsableTranscript(v.stt).None?
    ensures var run := ProcessVoiceMessage(s, settings, ev, v);
            && run.outcome == TranscriptionEmpty
            && run.trace == [Cleanup(!v.fileCleanupRaises)]
            && run.service == CleanupResources(s, v).0
  {
  }

  /** After a transcript, recording happens exactly once, first, before every
      gate, whatever the reply configuration; it appends the voice entry. */
  lemma TranscriptIsRecordedFirst(s: RS.Service, settings: Settings, ev: MessageEvent, v: VoiceInputs)
    requires UsablePath(v.file).Some? && UsableTranscript(v.stt).Some?
    ensures var run := ProcessVoiceMessage(s, settings, ev, v);
            && run.trace[0] == Record(RecordVoiceToHistory(UsableTranscript(v.stt).value, v.conversations))
            && forall i :: 1 <= i < |run.trace| ==> !run.trace[i].Record?
  {
  }

  /** A pipeline records something iff it obtained a transcript. */
  lemma RecordsIffTranscribed(s: RS.Service, settings: Settings, ev: MessageEvent, v: VoiceInputs)
    ensures var run := ProcessVoiceMessage(s, settings, ev, v);
            (exists i :: 0 <= i < |run.trace| && run.trace[i].Record?)
            <==> UsablePath(v.file).Some? && UsableTranscript(v.stt).Some?
  {
    var run := ProcessVoiceMessage(s, settings, ev, v);
    if UsablePath(v.file).Some? && UsableTranscript(v.stt).Some? {
      TranscriptIsRecordedFirst(s, settings, ev, v);
      assert run.trace[0].Record?;
    } else if UsablePath(v.file).None? {
      NoFileOnlyCleansUp(s, settings, ev, v);
    } else {
      NoTranscriptOnlyCleansUp(s, settings, ev, v);
    }
  }

  /** A failed append does not stop the pipeline: changing only the
      conversation manager's answers changes nothing but the record effect. */
  lemma RecordFailureIsSwallowed(s: RS.Service, settings: Settings, ev: MessageEvent, v: VoiceInputs, c: ConversationAnswers)
    requires UsablePath(v.file).Some? && UsableTranscript(v.stt).Some?
    ensures var run := ProcessVoiceMessage(s, settings, ev, v);
            var run' := ProcessVoiceMessage(s, settings, ev, v.(conversations := c));
            && run'.outcome == run.outcome
            && run'.service == run.service
            && |run'.trace| == |run.trace|
            && run'.trace[1..] == run.trace[1..]
  {
  }

  /** Whether the pipeline got past file preparation and transcription. */
  predicate Transcribed(v: VoiceInputs) {
    UsablePath(v.file).Some? && UsableTranscript(v.stt).Some?
  }

  /** Whether the pipeline reaches the reply engine: a transcript, no exception
      at the gates, a closed group gate and an open reply gate. */
  predicate ReachesDecision(settings: Settings, ev: MessageEvent, v: VoiceInputs) {
    && Transcribed(v)
    && v.fault.NoFault?
    && !GroupGateFires(settings, ev)
    && ReplyPermitted(settings, ev)
  }

  /** The trace of every exit path, in pipeline order. */
  lemma TraceOfEachPath(s: RS.Service, settings: Settings, ev: MessageEvent, v: VoiceInputs)
    ensures var c := Cleanup(!v.fileCleanupRaises);
            !Transcribed(v) ==> ProcessVoiceMessage(s, settings, ev, v).trace == [c]
    ensures var c := Cleanup(!v.fileCleanupRaises);
            var rec := Record(RecordVoiceToHistory(UsableTranscript(v.stt).GetOr(""), v.conversations));
            Transcribed(v) && v.fault != GroupGateFault && GroupGateFires(settings, ev) ==>
              ProcessVoiceMessage(s, settings, ev, v).trace == [rec, StopEvent, c]
    ensures var c := Cleanup(!v.fileCleanupRaises);
            var rec := Record(RecordVoiceToHistory(UsableTranscript(v.stt).GetOr(""), v.conversations));
            Transcribed(v) && !(v.fault != GroupGateFault && GroupGateFires(settings, ev))
              && !ReachesDecision(settings, ev, v) ==>
              ProcessVoiceMessage(s, settings, ev, v).trace == [rec, c]
    ensures var c := Cleanup(!v.fileCleanupRaises);
            var rec := Record(RecordVoiceToHistory(UsableTranscript(v.stt).GetOr(""), v.conversations));
            var d := RS.ShouldGenerateReply(s, Some(ev.origin), v.draw, v.decidedAt);
            ReachesDecision(settings, ev, v) ==>
              ProcessVoiceMessage(s, settings, ev, v).trace ==
                [rec, DecideReply(d.reply)]
                + (if d.reply then GenerateIntelligentReply(UsableTranscript(v.stt).value, v.replyContext).effects else [])
                + [c]
  {
  }

  /** The outcome of every exit path after a transcript exists: an exception at
      either gate is an error, a closed reply gate is not-allowed, and past the
      decision the outcome is a skip or whatever the reply attempt gave. */
  lemma OutcomeOfEachPath(s: RS.Service, settings: Settings, ev: MessageEvent, v: VoiceInputs)
    ensures Transcribed(v) && v.fault == GroupGateFault ==>
              ProcessVoiceMessage(s, settings, ev, v).outcome == Error
    ensures Transcribed(v) && v.fault != GroupGateFault && !GroupGateFires(settings, ev)
              && settings.enableChatReply && v.fault == ReplyGateFault ==>
              ProcessVoiceMessage(s, settings, ev, v).outcome == Error
    ensures Transcribed(v) && v.fault.NoFault? && !GroupGateFires(settings, ev)
              && !ReplyPermitted(settings, ev) ==>
              ProcessVoiceMessage(s, settings, ev, v).outcome == ReplyNotAllowed
    ensures Transcribed(v) && v.fault == ReplyGateFault && !GroupGateFires(settings, ev)
              && !settings.enableChatReply ==>
              ProcessVoiceMessage(s, settings, ev, v).outcome == ReplyNotAllowed
    ensures var d := RS.ShouldGenerateReply(s, Some(ev.origin), v.draw, v.decidedAt);
            ReachesDecision(settings, ev, v) ==>
              ProcessVoiceMessage(s, settings, ev, v).outcome ==
                (if d.reply then GenerateIntelligentReply(UsableTranscript(v.stt).value, v.replyContext).outcome
                 else ReplySkipped)
  {
  }

  /** The group gate: when it fires the event is stopped once and neither a
      decision nor a request follows; a stop happens only when it fires. */
  lemma GroupGateStopsEvent(s: RS.Service, settings: Settings, ev: MessageEvent, v: VoiceInputs)
    requires UsablePath(v.file).Some? && UsableTranscript(v.stt).Some?
    ensures var run := ProcessVoiceMessage(s, settings, ev, v);
            var fires := v.fault != GroupGateFault && GroupGateFires(settings, ev);
            && (fires ==> run.outcome == RecordedOnly
                          && run.trace == [run.trace[0], StopEvent, Cleanup(!v.fileCleanupRaises)]
                          && run.service == CleanupResources(s, v).0)
            && ((exists i :: 0 <= i < |run.trace| && run.trace[i] == StopEvent) <==> fires)
  {
    var run := ProcessVoiceMessage(s, settings, ev, v);
    TraceOfEachPath(s, settings, ev, v);
    if v.fault != GroupGateFault && GroupGateFires(settings, ev) {
      assert run.trace[1] == StopEvent;
    }
  }

  /** With no `Enable_Chat_Reply` key the reply gate is left to the permission
      service alone. */
  lemma DefaultConfigDefersToPermission(cfg: RS.Config, recognition: bool, reply: Option<bool>, ev: MessageEvent)
    requires RS.ChatReply(cfg).enableChatReply.None?
    ensures ReplyPermitted(LoadSettings(cfg, recognition, reply), ev) <==> ev.canGenerateReply
  {
  }

  /** For a pipeline that on_message starts, the group gate's permission
      conjunct always holds, so the gate depends on the flags alone. */
  lemma StartedGroupGateDependsOnFlags(settings: Settings, ev: MessageEvent)
    requires ev.canProcessVoice
    ensures GroupGateFires(settings, ev) <==>
              ev.isGroup && settings.groupVoiceRecognition && settings.groupVoiceReply == Some(false)
  {
  }

  /** A reply decision is taken exactly when a transcript exists, nothing raised
      at the gates, the group gate did not fire and the reply gate is open. */
  lemma DecisionOnlyPastGates(s: RS.Service, settings: Settings, ev: MessageEvent, v: VoiceInputs)
    ensures var run := ProcessVoiceMessage(s, settings, ev, v);
            (exists i :: 0 <= i < |run.trace| && run.trace[i].DecideReply?)
            <==> && UsablePath(v.file).Some? && UsableTranscript(v.stt).Some?
                 && v.fault.NoFault? && !GroupGateFires(settings, ev) && ReplyPermitted(settings, ev)
  {
    var run := ProcessVoiceMessage(s, settings, ev, v);
    TraceOfEachPath(s, settings, ev, v);
    if ReachesDecision(settings, ev, v) {
      assert run.trace[1].DecideReply?;
    }
  }

  /** An LLM request is emitted exactly when every gate passes, the engine says
      reply, a provider exists and the context lookup succeeds; it carries the
      voice prompt for the transcript. */
  lemma RequestOnlyWhenAllGatesPass(s: RS.Service, settings: Settings, ev: MessageEvent, v: VoiceInputs)
    ensures var run := ProcessVoiceMessage(s, settings, ev, v);
            (exists i :: 0 <= i < |run.trace| && run.trace[i].RequestLlm?)
            <==> && ReachesDecision(settings, ev, v)
                 && RS.ShouldGenerateReply(s, Some(ev.origin), v.draw, v.decidedAt).reply
                 && v.replyContext.providerPresent && !v.replyContext.lookupRaises
    ensures var run := ProcessVoiceMessage(s, settings, ev, v);
            forall i :: 0 <= i < |run.trace| && run.trace[i].RequestLlm? ==>
              run.trace[i].prompt == PromptPrefix + UsableTranscript(v.stt).value
  {
    var run := ProcessVoiceMessage(s, settings, ev, v);
    var d := RS.ShouldGenerateReply(s, Some(ev.origin), v.draw, v.decidedAt);
    TraceOfEachPath(s, settings, ev, v);
    if ReachesDecision(settings, ev, v) && d.reply {
      var text := UsableTranscript(v.stt).value;
      var a := GenerateIntelligentReply(text, v.replyContext);
      if v.replyContext.providerPresent && !v.replyContext.lookupRaises {
        assert a.effects == [RequestLlm(PromptPrefix + text, v.replyContext.currentId, NonEmpty(v.replyContext.currentId))];
        assert run.trace[2].RequestLlm?;
      } else {
        assert a.effects == [];
      }
    }
  }

  /** The engine is consulted for the event's session only: the session map
      gains at most that key, and otherwise only loses swept records. */
  lemma SessionsChangeOnlyAtOrigin(s: RS.Service, settings: Settings, ev: MessageEvent, v: VoiceInputs)
    ensures var run := ProcessVoiceMessage(s, settings, ev, v);
            && run.service.sessions.Keys <= s.sessions.Keys + {ev.origin}
            && forall k :: k in run.service.sessions && k != ev.origin ==> run.service.sessions[k] == s.sessions[k]
  {
  }

  /** The reply-service state a run leaves: the engine's state after deciding
      for the event's session when the run reaches the decision, the state it
      started from otherwise, then the cleanup's sweep. On the decision path of
      an enabled engine the origin is recorded at the decision time before the
      sweep; off that path only the sweep can change the map. */
  lemma ServiceAfterRun(s: RS.Service, settings: Settings, ev: MessageEvent, v: VoiceInputs)
    ensures var run := ProcessVoiceMessage(s, settings, ev, v);
            var decided := RS.ShouldGenerateReply(s, Some(ev.origin), v.draw, v.decidedAt).service;
            run.service == CleanupResources(if ReachesDecision(settings, ev, v) then decided else s, v).0
    ensures var run := ProcessVoiceMessage(s, settings, ev, v);
            ReachesDecision(settings, ev, v) && s.policy.enabled && ev.origin != "" && !v.fileCleanupRaises ==>
              run.service.sessions ==
                RS.Sweep(s.sessions[ev.origin := v.decidedAt], v.sweptAt, RS.DefaultMaxAge)
    ensures var run := ProcessVoiceMessage(s, settings, ev, v);
            !ReachesDecision(settings, ev, v) ==>
              run.service.sessions ==
                (if v.fileCleanupRaises then s.sessions else RS.Sweep(s.sessions, v.sweptAt, RS.DefaultMaxAge))
  {
  }

  /** The voice entry's content gives back the transcript it was built from. */
  lemma VoiceEntryRoundTrip(text: string)
    ensures VoiceEntry(text).role == "user"
    ensures EntryText(VoiceEntry(text).content) == Some(text)
  {
  }

  lemma {:induction false} CleanupCountAppend(a: seq<Effect>, b: seq<Effect>)
    ensures CleanupCount(a + b) == CleanupCount(a) + CleanupCount(b)
    decreases |a|
  {
    if a == [] {
      assert a + b == b;
    } else {
      assert (a + b)[0] == a[0];
      assert (a + b)[1..] == a[1..] + b;
      CleanupCountAppend(a[1..], b);
    }
  }

  lemma {:induction false} SingleCleanupCounted(trace: seq<Effect>)
    requires EndsWithSingleCleanup(trace)
    ensures CleanupCount(trace) == 1
    decreases |trace|
  {
    if |trace| == 1 {
    } else {
      assert !trace[0].Cleanup?;
      assert EndsWithSingleCleanup(trace[1..]);
      SingleCleanupCounted(trace[1..]);
    }
  }

  lemma {:induction false} CleanupsOfRuns(runs: seq<Run>)
    requires forall i :: 0 <= i < |runs| ==> EndsWithSingleCleanup(runs[i].trace)
    ensures CleanupCount(Flatten(runs)) == |runs|
    decreases |runs|
  {
    if runs != [] {
      SingleCleanupCounted(runs[0].trace);
      CleanupsOfRuns(runs[1..]);
      CleanupCountAppend(runs[0].trace, Flatten(runs[1..]));
    }
  }

  /** Over a whole message, cleanup runs once per processed voice component and
      never for a message whose event may not be transcribed. */
  lemma OnMessageCleansUpOncePerVoice(s: RS.Service, settings: Settings, ev: MessageEvent, comps: seq<Component>)
    ensures CleanupCount(Flatten(OnMessage(s, settings, ev, comps).runs))
            == (if ev.canProcessVoice then VoiceCount(comps) else 0)
  {
    CleanupsOfRuns(OnMessage(s, settings, ev, comps).runs);
  }
}
