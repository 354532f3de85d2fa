# Voice-to-text plugin: reply decisions and the voice-message pipeline

This project models the core of a chat-bot plugin that turns voice messages
into text. It covers two coupled parts.

- **The probabilistic reply service** (`ReplyService`, `reply_service.dfy`).
  - It loads an enabled flag and a reply probability, and clamps the
    probability into [0, 1].
  - It decides whether to reply with the test `draw <= probability`.
  - It records the time of every probabilistic decision per session.
  - It sweeps session records older than a maximum age (3600 s by default).
  - It reports its strategy, per-session statistics and status.
- **The voice-message pipeline** (`VoicePlugin`, `voice_plugin.dfy`).
  - `on_message` runs the pipeline once per voice (`Record`) component when
    the permission service allows the event.
  - The pipeline prepares the file, transcribes it and appends the transcript
    to the conversation history.
  - It then applies the group "record-only" gate, which stops the event.
  - Next comes the reply gate: the global switch, then the permission service,
    then the reply service's decision.
  - Then it requests an LLM reply.
  - Its `finally` cleanup runs on every path.

Every collaborator is an input of the model. This covers the permission
verdicts, the voice-processing and speech-to-text answers, the conversation
manager's answers, the LLM provider, `random.random()` and `time.time()`.
Each stage is a pure function. A pipeline run yields an outcome, an ordered
trace of effects (`Record`, `StopEvent`, `DecideReply`, `RequestLlm`,
`Cleanup`) and the next reply-service state.

`wrappers.dfy` holds `Option` and Python's truthiness test for an optional
string.

Some behaviours of the source that the model keeps:

- An event that fails the permission check starts no pipeline, so it gets no
  cleanup either (main.py:74-82).
- `cleanup_old_sessions` returns nothing (services/probabilistic_reply_service.py:119-136).
- A call to `_cleanup_resources` whose file release raises skips the session
  sweep. Both calls share one `try` block (main.py:228-234).
- When `float()` rejects `Reply_Probability`, `update_config` has already
  assigned the new enabled flag. The service is left with the new flag, the
  old probability, and a raised exception (services/probabilistic_reply_service.py:34-37).

## Model

| member | source | states |
|---|---|---|
| `ReplyService.Clamp` | services/probabilistic_reply_service.py:39-40 | the result lies in [0, 1]; it is the input inside that range, 1.0 above it and 0.0 below it |
| `ReplyService.LoadEnabled` | services/probabilistic_reply_service.py:31-34 | a missing section or key gives false; a present key gives its value |
| `ReplyService.LoadProbability` | services/probabilistic_reply_service.py:31-40 | a loaded probability always lies in [0, 1]; a missing key gives 0.3; a value `float()` rejects gives no probability; a number gives its clamp |
| `ReplyService.Create` | services/probabilistic_reply_service.py:17-25 | construction succeeds exactly when the probability converts; then the session map is empty, the policy is valid, the flag is the loaded one and the probability is the loaded, clamped value |
| `ReplyService.UpdateConfig` | services/probabilistic_reply_service.py:84-94 | the session map is untouched; the flag is always the new one; it raises exactly on an unconvertible probability, and then keeps the old probability; validity is preserved |
| `ReplyService.ShouldGenerateReply` | services/probabilistic_reply_service.py:44-69 | disabled: replies and changes nothing; enabled: replies iff draw <= probability; enabled with a non-empty id: that id maps to now and every other entry is kept; an empty or absent id leaves the map unchanged; the policy never changes |
| `ReplyService.Sweep` | services/probabilistic_reply_service.py:119-133 | keeps exactly the records whose age is at most max_age, each with its own timestamp |
| `ReplyService.CleanupOldSessions` | services/probabilistic_reply_service.py:119-136 | the source's collect-then-delete loops remove exactly the records older than max_age, keep survivors' timestamps and the policy, and agree with `Sweep` |
| `ReplyService.GetReplyStrategyInfo` | services/probabilistic_reply_service.py:71-82 | strategy type is "probabilistic" iff enabled and "always_reply" iff disabled; the description carries a percentage in [0, 100] exactly when enabled |
| `ReplyService.GetSessionStatistics` | services/probabilistic_reply_service.py:101-117 | none exactly when the session has no record; otherwise the recorded time and an elapsed time that adds up to now |
| `ReplyService.GetServiceStatus` | services/probabilistic_reply_service.py:138-150 | active sessions equal the number of records; the name, flag, probability and description match the state |
| `ReplyService.LoadingExamples` | services/probabilistic_reply_service.py:34-40 | 1.5 loads as 1.0, -0.2 as 0.0, and a missing section as disabled with probability 0.3; an enabled service built from 1.5 holds 1.0 |
| `ReplyService.CertainPolicyAlwaysReplies` | services/probabilistic_reply_service.py:58-60 | with probability 1.0 every draw in [0, 1) replies |
| `ReplyService.NullPolicyRepliesOnlyOnZero` | services/probabilistic_reply_service.py:58-60 | with probability 0.0 an enabled policy replies exactly on the draw 0 |
| `ReplyService.DecisionIsVisibleInStatistics` | services/probabilistic_reply_service.py:62-64 | after an enabled decision for a non-empty id, its statistics show the decision time and zero elapsed time |
| `ReplyService.SweepKeepsBoundary` | services/probabilistic_reply_service.py:128-130 | a record exactly max_age old survives |
| `ReplyService.TouchThenSweep` | services/probabilistic_reply_service.py:128-133 | a record made at t0 is gone after a sweep at t0 + max_age + 1 and kept, unchanged, by a sweep at t0 + max_age - 1 |
| `ReplyService.SweepIsMonotone` | services/probabilistic_reply_service.py:128-130 | a later sweep keeps a subset of what an earlier one keeps |
| `ReplyService.SweepAbsorbsEarlierSweep` | services/probabilistic_reply_service.py:119-133 | sweeping at t1 and then at t2 >= t1 equals sweeping at t2 alone |
| `ReplyService.SweepIdempotent` | services/probabilistic_reply_service.py:119-133 | sweeping twice at the same time equals sweeping once |
| `ReplyService.SweepShrinksActiveSessions` | services/probabilistic_reply_service.py:138-148 | the reported active-session count never grows across a sweep |
| `ReplyService.DecisionKeepsClockOrder` | services/probabilistic_reply_service.py:62-64 | with a clock that does not run backwards, no record is in the future and no session's time decreases |
| `ReplyService.OperationsKeepValid` | services/probabilistic_reply_service.py:37-40 | deciding, reloading and sweeping all keep the probability in [0, 1] |
| `VoicePlugin.LoadEnableChatReply` | main.py:36-37 | the global reply switch defaults to true and otherwise is the configured value |
| `VoicePlugin.LoadSettings` | main.py:36-37 | the pipeline's reply switch is the configured `Enable_Chat_Reply`, true when the key or section is missing; the group flags are the permission service's |
| `VoicePlugin.DefaultConfigDefersToPermission` | main.py:36-37 | with no `Enable_Chat_Reply` key, replies are permitted exactly when the permission service allows them |
| `VoicePlugin.VoiceEntry` | main.py:211-215 | the entry has role "user" and its content is "[语音消息] " followed by exactly the transcript |
| `VoicePlugin.GroupGateFires` | main.py:109-112 | never fires for a private message or for a reply flag that is not exactly False; firing needs recognition on and the voice permission |
| `VoicePlugin.ReplyPermitted` | main.py:120 | the global switch off forbids replies; with it on, replies are permitted exactly when the permission service allows them |
| `VoicePlugin.UsablePath` | main.py:137-143 | a path is usable iff the service returned a non-empty one; a raised exception gives none |
| `VoicePlugin.UsableTranscript` | main.py:145-154 | a transcript is usable iff the service returned non-empty text; provider errors and other exceptions give none |
| `VoicePlugin.RecordVoiceToHistory` | main.py:193-224 | on success the old history is kept as a prefix and exactly one entry is added, with role "user" and content "[语音消息] " + text; a conversation is created iff there is no current id, and the write targets the current or created id; it fails exactly at the call that raises, and `new_conversation` can only fail when it is called |
| `VoicePlugin.GenerateIntelligentReply` | main.py:156-190 | at most one request; one iff a provider exists and the lookup succeeds; its prompt is "用户通过语音说了: " followed by the text, its conversation id is the current id, and it looks up the conversation iff that id is non-empty; otherwise the outcome is no-provider or failed |
| `VoicePlugin.AfterTranscript` | main.py:104-127 | the first effect is the record of the transcript; no later effect is another record or a cleanup |
| `VoicePlugin.Stages` | main.py:87-127 | the stages inside the `try` block never emit a cleanup |
| `VoicePlugin.CleanupResources` | main.py:226-234 | always emits one cleanup; sweeps with the default age unless releasing the files raises, in which case the state is unchanged |
| `VoicePlugin.ProcessVoiceMessage` | main.py:84-135 | every run ends with exactly one cleanup, its last effect, on every path; the policy is unchanged and validity is kept |
| `VoicePlugin.OnMessage` | main.py:70-82 | one run per voice component when the event may be transcribed and none otherwise, leaving the state untouched; every run ends with its single cleanup |
| `VoicePlugin.OnMessageRunsVoicesInTurn` | main.py:74-80 | the runs are the pipeline applied to the voice components in chain order, each starting from the state the previous one left; other components are skipped |
| `VoicePlugin.OnMessageCleansUpOncePerVoice` | main.py:74-80 | a message's trace holds one cleanup per voice component, or none when permission is denied |
| `VoicePlugin.NoFileOnlyCleansUp` | main.py:90-93 | without a usable file the only effect is the cleanup and the outcome is a file error |
| `VoicePlugin.NoTranscriptOnlyCleansUp` | main.py:95-98 | without a usable transcript the only effect is the cleanup, with no record and no reply |
| `VoicePlugin.TranscriptIsRecordedFirst` | main.py:95-104 | after a transcript, the record is the first effect and happens exactly once, whatever the reply configuration |
| `VoicePlugin.RecordsIffTranscribed` | main.py:90-104 | a record effect appears iff both a usable file and a usable transcript exist |
| `VoicePlugin.RecordFailureIsSwallowed` | main.py:104-127 | changing only the conversation manager's answers, including a failing append, changes nothing after the record effect |
| `VoicePlugin.TraceOfEachPath` | main.py:87-135 | the exact trace of each exit path: cleanup only; record then cleanup; record, stop, cleanup; or record, decision, optional request, cleanup |
| `VoicePlugin.OutcomeOfEachPath` | main.py:104-131 | after a transcript: an exception at the group gate, or at the reply gate when the global switch is on, gives an error; a closed reply gate gives not-allowed; past the decision the outcome is skipped when the engine declines and otherwise the reply attempt's own outcome (emitted, no provider or failed) |
| `VoicePlugin.GroupGateStopsEvent` | main.py:107-117 | when the group gate fires, the trace is record, stop, cleanup and the outcome is recorded-only; a stop appears iff the gate fires |
| `VoicePlugin.StartedGroupGateDependsOnFlags` | main.py:109-112 | for a pipeline that `on_message` started, the gate fires iff the message is a group message, recognition is on and the reply flag is exactly False |
| `VoicePlugin.DecisionOnlyPastGates` | main.py:119-123 | a reply decision happens iff there is a transcript, no gate raised, the group gate is closed and both the global switch and the permission service allow replies |
| `VoicePlugin.RequestOnlyWhenAllGatesPass` | main.py:119-125 | an LLM request happens iff the decision is reached and says reply, a provider exists and the lookup succeeds; every request carries the voice prompt for the transcript |
| `VoicePlugin.SessionsChangeOnlyAtOrigin` | main.py:122-123 | a run adds at most the event's own session to the map and changes no other entry's time |
| `VoicePlugin.ServiceAfterRun` | main.py:119-135 | a run leaves the engine's post-decision state when it reaches the decision and its starting state otherwise, each then swept by the cleanup; on the decision path of an enabled engine, with a non-empty origin and a file release that does not raise, the origin is recorded at the decision time and the map is then swept; off that path only the sweep changes the map |
| `VoicePlugin.VoiceEntryRoundTrip` | main.py:211-216 | the voice entry has role "user" and its content gives back exactly the transcript |

## Left out

- Logging and console output (`Console_Output`) have no behavioural effect, so they are not modelled.
- The status, test and debug commands (main.py:236-370) and `terminate` only format and report, so they are not modelled.
- The async/yield streaming, the `async_operation_handler` decorator and `event.request_llm`'s internals are not modelled. The request is a single trace effect.
- The permission, voice-processing and speech-to-text services and the conversation manager are not part of this model; their results are inputs. Both permission verdicts are one value per event.
- The conversation manager's answers are fixed per voice component. A second voice component in the same message does not see the history the first one wrote.
- The conversation id used by the reply request is its own input, because the conversation manager that supplies it is not part of this model.
- JSON decoding of the stored history is not modelled. The history is a sequence of entries, and a decoding error is the fetch step raising.
- Unexpected exceptions inside the two gates are a single `Fault` input per run. Other raising points inside the `try` block are not modelled. One example is `event.get_sender_name()` at main.py:88, which would give an error outcome whose trace is only the cleanup. Exceptions raised by `on_message`'s own permission check are not modelled either.
- Floating point is not modelled: probabilities, draws and times are reals. NaN and infinite `Reply_Probability` values are not modelled.
- Concurrency between pipeline runs is not modelled. Runs of one message are sequential, and the session map is a value.
- `ReplyService.LoadEnabled`: the flag is modelled as a boolean, so Python truthiness of other stored values is not modelled.
- `VoicePlugin.LoadEnableChatReply`: the switch is modelled as a boolean, so Python truthiness of other stored values (main.py:120) is not modelled.
- `ReplyService.GetReplyStrategyInfo`: the description's percentage is kept as the number `probability * 100`, not as the formatted text with one decimal.
- `ReplyService.UpdateConfig`: the stored configuration dictionary is not part of the state, because nothing else reads it.
