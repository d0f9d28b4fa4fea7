# Hammock voice-caption core in Dafny

Hammock is a Discord bot. It joins a voice channel and receives one audio
stream per speaker, each identified by a synchronisation source id (SSRC).
It works out which member is talking on each stream, cuts the audio into
fixed-size chunks and queues each chunk for speech-to-text transcription.
It keeps a JSON caption document per session and can ask an OpenAI model
for a summary of it. This project models that core and proves properties
of the model:

- **Voice roster** (`Roster.dfy`, `src/voice/roster.rs`): the members of each
  voice channel, and the queue of recent joins, used to guess who is speaking
  on a stream that has not been announced yet.
- **Audio aggregator** (`Voice.dfy`, `src/voice/mod.rs`):
  - maps SSRCs to users;
  - gives a stream without a known user a placeholder `Speaker <ssrc>` label,
    and relabels stored captions once the user is announced;
  - buffers samples per stream and drains full chunks in arrival order;
  - flushes streams on silence and on disconnect;
  - publishes the current speaker.
- **Older aggregator** (`LegacyVoice.dfy`, `src/voice.rs`): parks audio of
  unannounced streams and promotes it when the stream is announced.
- **Chunk draining** (`Chunking.dfy`): the drain loop both aggregators share.
- **Caption store** (`CaptionSink.dfy`, `src/caption_sink_json.rs`):
  - per-session file names and title slugs;
  - start, append, relabel and end of a session;
  - the legacy speaker format;
  - `HH:MM:SS` durations.
- **Summaries** (`Summaries.dfy`, `src/summaries/openai.rs`):
  - extracts the summary text from a response;
  - flattens a caption document into a plain-text transcript;
  - truncates the transcript to 60 000 bytes.
- **Metrics** (`Metrics.dfy`, `src/telemetry/metrics.rs`): wrapping 64-bit
  counters, and sliding windows of transcription instants (30 s, 1 min,
  5 min, 15 min, 30 min and 1 h).
- **Configuration** (`Config.dfy`, `src/config.rs`): `BotConfig::from_env`
  over an environment given as a map, with its defaults, boolean words,
  integer parsing, path resolution and error cases.
- **Library pieces** (`Text.dfy`, `Wrappers.dfy`): Rust `str::trim`,
  decimal formatting and ASCII helpers, plus `Option`/`Result`.

How the model is built:

- **Stateful objects are classes.** Each aggregator, the roster, the caption
  store, a line window and the metrics registry is a Dafny `class` whose
  methods change fields.
- **Each handler is proved against a step function.** The aggregators and the
  caption store expose a ghost snapshot of their state. Each handler is proved
  to move the snapshot by a pure step function, for example
  `Snapshot() == DisconnectSpec(old(Snapshot()), order, user, now)`. Lemmas
  about the step functions state what the handler guarantees.
- **Clocks and external services come in from outside.**
  - Time is an integer number of milliseconds passed in by the caller.
  - The transcription queue, the speaker notifier and the relabel task are
    ghost logs on the class.
  - Discord name lookup is an uninterpreted function.
  - The file system of the caption directory is a map from file name to
    stored contents.

The model follows the code as written. In particular:

- `flush_expired` leaves the emptied buffer in place; it does not remove it
  (`Voice.AudioAggregator.FlushExpiredSubmitsIdle`).
- Only empty chunks are skipped before dispatch. Non-empty chunks of silent
  samples are dispatched.

## Model

| member | source | states |
|---|---|---|
| `Roster.JoinsOf` | src/voice/roster.rs:23-44 | every initial member becomes one pending join, in the given order, on the given channel and instant |
| `Roster.WithoutUser` | src/voice/roster.rs:46-66 | the pending joins that remain are exactly those of other users |
| `Roster.FirstIndexOf` | src/voice/roster.rs:68-76 | finds the earliest pending join of the user, or reports that there is none |
| `Roster.SoleParticipant` | src/voice/roster.rs:89-106 | gives a user exactly when that user is the only member recorded in the channel |
| `Roster.WithoutUserCount` | src/voice/roster.rs:46-66 | after a join or leave, no older pending join of that user remains |
| `Roster.WithoutUserAppend` | src/voice/roster.rs:46-59 | dropping a user's joins distributes over concatenation |
| `Roster.WithoutAbsentUser` | src/voice/roster.rs:46-66 | dropping a user who has no pending join changes nothing |
| `Roster.JoinedOnceAtBack` | src/voice/roster.rs:46-59 | after a join the user has exactly one pending join, at the back of the queue |
| `Roster.RemoveFirstDropsOne` | src/voice/roster.rs:68-76 | speaking consumes exactly one of the user's pending joins and leaves other users' counts unchanged |
| `Roster.TakePendingRule` | src/voice/roster.rs:109-115 | a join is taken exactly when it is the only one pending and is for the channel; taking it empties the queue, otherwise nothing changes |
| `Roster.SecondGuessSkipsPending` | src/voice/roster.rs:78-107 | after one guess, a second guess can only come from the sole channel member |
| `Roster.NoGuessUnderAmbiguity` | src/voice/roster.rs:78-107 | with no usable pending join and not exactly one member in the channel, no speaker is guessed |
| `Roster.VoiceRoster.constructor` | src/voice/roster.rs:15-21 | a new roster has no participants and no pending joins |
| `Roster.VoiceRoster.Reset` | src/voice/roster.rs:23-44 | the roster becomes exactly the initial members in the channel, each with a pending join |
| `Roster.VoiceRoster.NoteJoin` | src/voice/roster.rs:46-59 | records the member in the channel and queues a fresh join, replacing any older one |
| `Roster.VoiceRoster.NoteLeave` | src/voice/roster.rs:61-66 | forgets the member and all of their pending joins |
| `Roster.VoiceRoster.NoteSpoke` | src/voice/roster.rs:68-76 | stamps the member's last-spoke time and consumes their earliest pending join |
| `Roster.VoiceRoster.TakePendingForChannel` | src/voice/roster.rs:109-115 | returns and consumes the join that is the only one pending, if it is for the channel |
| `Roster.VoiceRoster.GuessSpeaker` | src/voice/roster.rs:78-107 | prefers the single pending join, then the sole member of the channel; participants are unchanged |
| `Roster.VoiceRoster.Clear` | src/voice/roster.rs:117-121 | empties both tables |
| `Roster.VoiceRoster.ParticipantCount` | src/voice/roster.rs:123-125 | the number of members tracked |
| `Voice.PlaceholderTextInjective` | src/voice/mod.rs:355-363 | distinct streams get distinct placeholder labels |
| `Voice.BufferedKnownWins` | src/voice/mod.rs:370-372 | a buffered Known identity is returned as it is, before the map or the roster is consulted, and nothing changes |
| `Voice.BufferedPlaceholderKept` | src/voice/mod.rs:383-384 | with no mapping and no guess, a buffered placeholder is returned as it is and nothing changes |
| `Voice.MappedStreamWins` | src/voice/mod.rs:365-389 | an announced stream resolves to its user, whatever placeholder the buffer held, and nothing changes |
| `Voice.ResolutionOnlyGrowsMap` | src/voice/mod.rs:365-389 | resolving never removes or rewrites an SSRC mapping and never touches the roster's participants |
| `Voice.GuessIsSticky` | src/voice/mod.rs:378-381 | a guessed user is written into the SSRC map, so resolving the same stream again gives the same user and changes nothing |
| `Voice.PlaceholderIsMemoised` | src/voice/mod.rs:355-389 | with no mapping and no guess the stream gets `Speaker <ssrc>`, and asking again returns the same label with no change |
| `Voice.ResolutionKeepsLabelsCanonical` | src/voice/mod.rs:355-389 | every stored placeholder label stays `Speaker <its ssrc>` |
| `Voice.PcmsAppend` | src/voice/mod.rs:310 | the audio of submitted jobs is the concatenation, in submission order |
| `Voice.CollectMapped` | src/voice/mod.rs:201-211 | collects each stream mapped to the user exactly once |
| `Voice.AudioAggregator.constructor` | src/voice/mod.rs:130-159 | starts with no mappings, buffers, labels, jobs or notifications and no current speaker |
| `Voice.AudioAggregator.JobsOf` | src/voice/mod.rs:273-275 | the jobs dispatched for successive chunks carry exactly those chunks, in order |
| `Voice.AudioAggregator.ConsumeConserves` | src/voice/mod.rs:241-276 | appending samples and draining keeps every sample in order (dispatched chunks followed by the remainder equal the old buffer plus the new samples); every dispatched chunk has the chunk size and less than one chunk remains; other streams are untouched |
| `Voice.AudioAggregator.PushAttributesMappedStream` | src/voice/mod.rs:236-276 | audio on an announced stream is buffered under that user |
| `Voice.AudioAggregator.PushKeeps` | src/voice/mod.rs:236-276 | pushing samples never drops a buffer or a mapping and only appends jobs; non-empty audio always leaves a buffer for the stream |
| `Voice.AudioAggregator.FlushStreamSubmitsBuffer` | src/voice/mod.rs:320-335 | flushing removes the buffer and submits its samples as one job exactly when they are non-empty |
| `Voice.AudioAggregator.FlushExpiredSubmitsIdle` | src/voice/mod.rs:337-349 | a buffer idle longer than the threshold with samples is emptied and submitted as one job; otherwise nothing changes |
| `Voice.AudioAggregator.FlushExpiredIdempotent` | src/voice/mod.rs:337-349 | a second silence flush at the same instant does nothing |
| `Voice.AudioAggregator.DisconnectSpecSnoc` | src/voice/mod.rs:213-217 | handling one more stream extends the disconnect by exactly one step |
| `Voice.AudioAggregator.DisconnectStepForgets` | src/voice/mod.rs:213-217 | one disconnect step removes the stream's mapping and buffer, submits its non-empty audio and leaves the user no longer current |
| `Voice.AudioAggregator.DisconnectDropsStreams` | src/voice/mod.rs:199-220 | a disconnect removes exactly the user's streams from the map and the buffers, and keeps the labels |
| `Voice.AudioAggregator.DisconnectSubmitsBuffered` | src/voice/mod.rs:199-220 | a disconnect submits every non-empty buffer of the user's streams, in handling order, and the user is not current afterwards |
| `Voice.AudioAggregator.DisconnectForgetsUser` | src/voice/mod.rs:199-220 | the combined disconnect guarantee: the user's streams are gone, their audio was submitted and the user is not current |
| `Voice.AudioAggregator.TickSilentKeeps` | src/voice/mod.rs:230-232 | silence flushes keep every buffer and mapping and only append jobs |
| `Voice.AudioAggregator.TickSpeakingKeeps` | src/voice/mod.rs:222-229 | speaking streams keep every buffer and mapping; each stream with audio has a buffer afterwards |
| `Voice.AudioAggregator.TickKeepsStreams` | src/voice/mod.rs:222-234 | a voice tick never loses a buffer, a mapping or a queued job, and buffers every stream that sent audio |
| `Voice.AudioAggregator.LookupUser` | src/voice/mod.rs:351-353 | finds a user exactly when the SSRC is mapped |
| `Voice.AudioAggregator.ResolveSpeakingUser` | src/voice/mod.rs:444-449 | takes the announced user, else the mapped one |
| `Voice.AudioAggregator.SetCurrentSpeaker` | src/voice/mod.rs:451-459 | with a notifier, the speaker becomes current and a notification is sent only on a change |
| `Voice.AudioAggregator.ClearCurrentSpeaker` | src/voice/mod.rs:461-469 | clears the current speaker only when it is that user, notifying `None` |
| `Voice.AudioAggregator.PlaceholderLabel` | src/voice/mod.rs:355-363 | returns `Speaker <ssrc>` and records it the first time |
| `Voice.AudioAggregator.ResolveIdentity` | src/voice/mod.rs:365-389 | moves the identity state as the resolution function says and touches nothing else |
| `Voice.AudioAggregator.DispatchChunk` | src/voice/mod.rs:278-318 | an empty chunk is skipped; otherwise one job is queued, and a known speaker becomes current and has a join consumed |
| `Voice.AudioAggregator.DispatchAll` | src/voice/mod.rs:273-275 | dispatching drained chunks queues one job per chunk, in order, with the speaker and roster updated once per chunk |
| `Voice.AudioAggregator.ConsumeSamples` | src/voice/mod.rs:241-276 | moves the state as the consume step says |
| `Voice.AudioAggregator.PushSamples` | src/voice/mod.rs:236-239 | the identity is always resolved, which may record a guess or a placeholder; the samples are then consumed, and empty audio buffers and dispatches nothing |
| `Voice.AudioAggregator.FlushStream` | src/voice/mod.rs:320-335 | moves the state as the stream-flush step says |
| `Voice.AudioAggregator.FlushExpired` | src/voice/mod.rs:337-349 | moves the state as the silence-flush step says |
| `Voice.AudioAggregator.OnDisconnect` | src/voice/mod.rs:199-220 | handles each stream mapped to the user once, in some order, as the disconnect function says |
| `Voice.AudioAggregator.DisconnectStream` | src/voice/mod.rs:213-217 | flushes the stream, forgets its mapping and clears the user as current |
| `Voice.AudioAggregator.OnVoiceTick` | src/voice/mod.rs:222-234 | pushes every speaking stream's audio, then silence-flushes every silent stream |
| `Voice.AudioAggregator.RelabelPlaceholderEntries` | src/voice/mod.rs:391-420 | requests exactly one relabel of the placeholder to the user's resolved name |
| `Voice.AudioAggregator.OnSpeaking` | src/voice/mod.rs:161-197 | an announcement maps the stream and retires its placeholder with one relabel request; the microphone flag then sets or clears the speaker |
| `LegacyVoice.PcmsAppend` | src/voice.rs:301-335 | the audio of submitted jobs is the concatenation, in submission order |
| `LegacyVoice.AudioAggregator.constructor` | src/voice.rs:128-150 | starts empty |
| `LegacyVoice.AudioAggregator.JobsOf` | src/voice.rs:269-271 | the jobs for successive chunks carry those chunks in order, all for the stream's user |
| `LegacyVoice.AudioAggregator.DispatchPublishesSpeaker` | src/voice.rs:301-335 | an empty chunk changes nothing; otherwise one job is queued and the speaker becomes current |
| `LegacyVoice.AudioAggregator.ConsumeConserves` | src/voice.rs:237-272 | draining keeps every sample in order, dispatches only full chunks for the user and leaves less than one chunk |
| `LegacyVoice.AudioAggregator.PushUnknownIsParked` | src/voice.rs:228-235 | audio on an unannounced stream is appended to its parking area and nothing else changes |
| `LegacyVoice.AudioAggregator.PromoteConserves` | src/voice.rs:286-299 | promotion empties the stream's parking area and moves every parked sample, in order, into jobs and the buffer |
| `LegacyVoice.AudioAggregator.MicOffFlushesThenClears` | src/voice.rs:152-189 | microphone off flushes the stream's buffer and clears the speaker if current |
| `LegacyVoice.AudioAggregator.AnnouncePromotes` | src/voice.rs:152-189 | an announcement maps the stream and leaves nothing parked for it |
| `LegacyVoice.AudioAggregator.FlushExpiredSubmitsIdle` | src/voice.rs:352-363 | a buffer idle for more than one second with samples is emptied and submitted; otherwise nothing changes |
| `LegacyVoice.AudioAggregator.FlushExpiredIdempotent` | src/voice.rs:352-363 | a second silence flush at the same instant does nothing |
| `LegacyVoice.AudioAggregator.FlushStreamSubmitsBuffer` | src/voice.rs:337-350 | flushing removes the buffer and submits its samples exactly when they are non-empty |
| `LegacyVoice.AudioAggregator.DisconnectSpecSnoc` | src/voice.rs:205-210 | one more stream is one more disconnect step |
| `LegacyVoice.AudioAggregator.DisconnectStepForgets` | src/voice.rs:205-210 | one step removes the mapping and buffer, submits the audio and clears the user as current |
| `LegacyVoice.AudioAggregator.DisconnectDropsStreams` | src/voice.rs:191-212 | a disconnect removes exactly the handled streams and keeps the parking area |
| `LegacyVoice.AudioAggregator.DisconnectSubmitsBuffered` | src/voice.rs:191-212 | a disconnect submits each non-empty buffer in order and the user is not current afterwards |
| `LegacyVoice.AudioAggregator.DisconnectForgetsUser` | src/voice.rs:191-212 | the combined disconnect guarantee |
| `LegacyVoice.AudioAggregator.PushKeepsInvariant` | src/voice.rs:228-284 | parked audio only ever belongs to unmapped streams and is never empty |
| `LegacyVoice.AudioAggregator.SpeakingKeepsInvariant` | src/voice.rs:152-189 | a speaking event keeps the parking invariant |
| `LegacyVoice.AudioAggregator.FlushKeepsInvariant` | src/voice.rs:191-212 | silence flushes and disconnects keep the parking invariant |
| `LegacyVoice.AudioAggregator.LookupUser` | src/voice.rs:365-367 | finds a user exactly when the SSRC is mapped |
| `LegacyVoice.AudioAggregator.SetCurrentSpeaker` | src/voice.rs:404-412 | moves the state as the set-speaker step says |
| `LegacyVoice.AudioAggregator.ClearCurrentSpeaker` | src/voice.rs:414-422 | moves the state as the clear-speaker step says |
| `LegacyVoice.AudioAggregator.DispatchChunk` | src/voice.rs:301-335 | moves the state as the dispatch step says |
| `LegacyVoice.AudioAggregator.DispatchAll` | src/voice.rs:269-271 | queues one job per chunk, in order, and updates the speaker once per chunk |
| `LegacyVoice.AudioAggregator.ConsumeSamples` | src/voice.rs:237-272 | moves the state as the consume step says |
| `LegacyVoice.AudioAggregator.BufferPending` | src/voice.rs:274-284 | appends to the parking area of an unmapped stream |
| `LegacyVoice.AudioAggregator.PushSamples` | src/voice.rs:228-235 | consumes audio for mapped streams and parks it otherwise |
| `LegacyVoice.AudioAggregator.PromotePendingAudio` | src/voice.rs:286-299 | moves the state as the promotion step says |
| `LegacyVoice.AudioAggregator.FlushStream` | src/voice.rs:337-350 | moves the state as the flush step says |
| `LegacyVoice.AudioAggregator.FlushExpired` | src/voice.rs:352-363 | moves the state as the silence-flush step says |
| `LegacyVoice.AudioAggregator.OnSpeaking` | src/voice.rs:152-189 | moves the state as the speaking step says |
| `LegacyVoice.AudioAggregator.DisconnectStream` | src/voice.rs:205-210 | moves the state as one disconnect step says |
| `LegacyVoice.AudioAggregator.OnDisconnect` | src/voice.rs:191-212 | handles each stream mapped to the user exactly once |
| `LegacyVoice.AudioAggregator.OnVoiceTick` | src/voice.rs:214-226 | pushes speaking streams, then silence-flushes silent ones |
| `Chunking.ConcatAppend` | src/voice/mod.rs:262-270 | joining chunk lists distributes over concatenation |
| `Chunking.ChunksConserve` | src/voice/mod.rs:262-270 | the drained chunks followed by the remainder are the input |
| `Chunking.ChunkSizes` | src/voice/mod.rs:262-270 | every drained chunk has the chunk size and the remainder is shorter |
| `Chunking.ShortInputStays` | src/voice/mod.rs:262-270 | input shorter than a chunk is not drained |
| `Chunking.DrainChunks` | src/voice/mod.rs:262-270 | the loop drains full chunks oldest first and keeps the remainder |
| `CaptionSink.LegacySpeakerMapping` | src/caption_sink_json.rs:122-125 | a legacy numeric speaker reads back as that id named `User <id>` |
| `CaptionSink.DecodeEntries` | src/caption_sink_json.rs:116-127 | decodes every stored entry, keeping comment and timestamp |
| `CaptionSink.EncodeEntries` | src/caption_sink_json.rs:109-114 | always writes the detailed speaker form |
| `CaptionSink.DecodeEncode` | src/caption_sink_json.rs:109-127 | reading back written entries gives the same entries |
| `CaptionSink.LoadAfterStore` | src/caption_sink_json.rs:312-341 | loading a document that was just written gives it back |
| `CaptionSink.BareEntriesKeepEntries` | src/caption_sink_json.rs:312-332 | a file holding only an entry list loads with fresh metadata and the same speakers |
| `CaptionSink.DateStamp` | src/caption_sink_json.rs:221-240 | the stamp is eight digits, `_`, six digits; its groups read back as the year, month, day, hour, minute and second of the time |
| `CaptionSink.DateStampInjective` | src/caption_sink_json.rs:221-240 | distinct times give distinct stamps |
| `CaptionSink.FileNameShape` | src/caption_sink_json.rs:221-240 | `<guild>_<channel>_<stamp>[_<slug>].json` |
| `CaptionSink.DigitsThenUnderscore` | src/caption_sink_json.rs:221-240 | a numeral followed by `_` can be split off uniquely |
| `CaptionSink.FileNameSeparatesChannels` | src/caption_sink_json.rs:221-240 | two sessions with the same file name are in the same guild and channel |
| `CaptionSink.TrimDashes` | src/caption_sink_json.rs:256 | the result neither starts nor ends with `-` |
| `CaptionSink.SlugRawShape` | src/caption_sink_json.rs:242-258 | the raw slug is at most 48 characters, all lowercase letters, digits or `-` |
| `CaptionSink.SlugifyShape` | src/caption_sink_json.rs:242-258 | a slug is non-empty, at most 48 characters, made of lowercase letters, digits and `-`, and does not start or end with `-` |
| `CaptionSink.NoAlphanumericNoSlug` | src/caption_sink_json.rs:242-258 | a title with no ASCII letter or digit has no slug |
| `CaptionSink.SlugSeparators` | src/caption_sink_json.rs:248-254 | white space always adds `-`; `-` and `_` add one only when the slug does not already end in `-` |
| `CaptionSink.SlugRawSaturates` | src/caption_sink_json.rs:245 | once 48 characters are reached, further input is ignored |
| `CaptionSink.SlugifyTitle` | src/caption_sink_json.rs:242-258 | the loop computes the slug function |
| `CaptionSink.CleanTitle` | src/caption_sink_json.rs:146-153 | a title is kept, trimmed, exactly when it is not blank |
| `CaptionSink.FormatDuration` | src/caption_sink_json.rs:385-391 | the text has the shape `HH:MM:SS`, with at least two hour digits |
| `CaptionSink.FormatDurationRoundTrip` | src/caption_sink_json.rs:385-391 | reading the fields back gives minutes and seconds below 60 that add up to the duration |
| `CaptionSink.RelabelAll` | src/caption_sink_json.rs:277-310 | relabelling keeps the number of entries |
| `CaptionSink.RelabelRewritesExactly` | src/caption_sink_json.rs:277-310 | exactly the placeholder entries get the new speaker; no placeholder entry is left; the list changes exactly when one was there |
| `CaptionSink.RelabelEntries` | src/caption_sink_json.rs:296-303 | the loop rewrites as the relabel function and reports whether any entry matched |
| `CaptionSink.SessionFileNameSpec` | src/caption_sink_json.rs:194-209 | a known session keeps its file name; otherwise one is created and recorded |
| `CaptionSink.SessionFileNameStable` | src/caption_sink_json.rs:194-209 | asking for the file name again gives the same name and no change |
| `CaptionSink.StartWritesFreshDocument` | src/caption_sink_json.rs:138-166 | starting records the session and writes an empty document with the cleaned title and start time |
| `CaptionSink.AppendAddsAtEnd` | src/caption_sink_json.rs:260-275 | appending adds the entry at the end, keeps the metadata and leaves other files alone |
| `CaptionSink.RelabelReportsChange` | src/caption_sink_json.rs:277-310 | reports an update exactly when the document had a placeholder entry, and writes only then |
| `CaptionSink.RelabelIdempotent` | src/caption_sink_json.rs:277-310 | a second relabel finds nothing to change |
| `CaptionSink.EndStampsMetadata` | src/caption_sink_json.rs:168-192 | ending forgets the session, keeps the entries and stamps the end time and duration |
| `CaptionSink.CaptionStore.constructor` | src/caption_sink_json.rs:131-136 | starts with no sessions and no files |
| `CaptionSink.CaptionStore.WriteSessionDocument` | src/caption_sink_json.rs:334-341 | stores the document under the name |
| `CaptionSink.CaptionStore.SessionFileName` | src/caption_sink_json.rs:194-209 | moves the session table as the file-name function says |
| `CaptionSink.CaptionStore.StartSession` | src/caption_sink_json.rs:138-166 | moves the state as the start function says |
| `CaptionSink.CaptionStore.EndSession` | src/caption_sink_json.rs:168-192 | moves the state as the end function says |
| `CaptionSink.CaptionStore.AppendJson` | src/caption_sink_json.rs:260-275 | moves the state as the append function says |
| `CaptionSink.CaptionStore.RelabelPlaceholder` | src/caption_sink_json.rs:277-310 | moves the state as the relabel function says |
| `Summaries.FirstText` | src/summaries/openai.rs:115-134 | any text found is trimmed and non-empty; scalars have none |
| `Summaries.FirstTextInOrder` | src/summaries/openai.rs:117 | an array yields the text of its first element that has one |
| `Summaries.BeforeFirstHit` | src/summaries/openai.rs:117 | no element before that one has text |
| `Summaries.TextMemberWins` | src/summaries/openai.rs:119-124 | a non-blank `text` string wins, trimmed |
| `Summaries.ContentBeatsOtherMembers` | src/summaries/openai.rs:125-129 | without usable `text`, text found under `content` wins |
| `Summaries.OtherMembersLast` | src/summaries/openai.rs:130 | otherwise the members are searched in order |
| `Summaries.ExtractSummaryText` | src/summaries/openai.rs:108-113 | the summary is trimmed non-empty text |
| `Summaries.ExtractPrefersOutput` | src/summaries/openai.rs:108-113 | text under `output` wins, then text under `content`; only objects have any |
| `Summaries.SessionLabel` | src/summaries/openai.rs:46-50 | the label is trimmed text, `Discord session` for a blank name |
| `Summaries.SessionLabelIdempotent` | src/summaries/openai.rs:46-50 | labelling a label changes nothing; a non-blank name is trimmed |
| `Summaries.HasCaptionIffSomeComment` | src/summaries/openai.rs:170-205 | a caption is written exactly when some entry has a non-blank comment |
| `Summaries.LinesAppend` | src/summaries/openai.rs:172-200 | the lines of consecutive entries are concatenated in order |
| `Summaries.FlattenFailsIffNoCaption` | src/summaries/openai.rs:203-205 | flattening fails exactly when every entry's comment is blank or missing |
| `Summaries.LinesKeepOrder` | src/summaries/openai.rs:188-190 | an entry with a blank comment contributes nothing |
| `Summaries.EntryKeptIffComment` | src/summaries/openai.rs:182-190 | an entry gets a line exactly when its comment is non-blank, and its comment is trimmed |
| `Summaries.TitleLineShape` | src/summaries/openai.rs:142-149 | a title line appears exactly for a non-blank title and ends with a newline |
| `Summaries.HeaderShape` | src/summaries/openai.rs:141-166 | without metadata there is no header; with it, the header starts with the title line and ends with a blank line |
| `Summaries.FlattenStep` | src/summaries/openai.rs:172-200 | one more entry adds its line, if any |
| `Summaries.WriteHeader` | src/summaries/openai.rs:141-166 | writes the header |
| `Summaries.WriteEntries` | src/summaries/openai.rs:170-201 | the loop writes the entry lines and whether any was written |
| `Summaries.FlattenTranscript` | src/summaries/openai.rs:136-208 | computes the flatten function |
| `Summaries.ByteLenAppend` | src/summaries/openai.rs:212 | UTF-8 length adds up over concatenation |
| `Summaries.ByteLenPrefixGrows` | src/summaries/openai.rs:216 | longer prefixes have strictly more bytes |
| `Summaries.CutIndex` | src/summaries/openai.rs:216 | the longest prefix within the byte limit |
| `Summaries.CutIndexUnique` | src/summaries/openai.rs:216 | that prefix is the only one with this property |
| `Summaries.TruncateAsWrittenFailsOffBoundary` | src/summaries/openai.rs:210-219 | the byte slice panics exactly when the input is long and byte 60 000 falls inside a character |
| `Summaries.TruncatePanicsMidCharacter` | src/summaries/openai.rs:216 | 59 999 `a` followed by `é` makes the slice panic |
| `Summaries.Truncate` | src/summaries/openai.rs:210-219 | a transcript within 60 000 bytes is kept as is |
| `Summaries.TruncateKeepsLongestPrefix` | src/summaries/openai.rs:210-219 | a long transcript is cut to its longest prefix within 60 000 bytes, plus the marker |
| `Summaries.TruncateAgreesOnBoundary` | src/summaries/openai.rs:210-219 | wherever the byte slice succeeds, it agrees with the corrected cut |
| `Summaries.AsciiTruncationSucceeds` | src/summaries/openai.rs:210-219 | ASCII transcripts never panic |
| `Summaries.BuildRequest` | src/summaries/openai.rs:45-70 | the request names the model and the prompt names the session label; the transcript sent is the corrected cut `Summaries.Truncate` |
| `Summaries.RequestTranscriptBounded` | src/summaries/openai.rs:51 | the transcript sent is at most 60 000 bytes plus the marker, and unchanged when it already fits |
| `Metrics.Inc` | src/telemetry/metrics.rs:64-89 | adds one to a counter, wrapping at 2^64 |
| `Metrics.CountersCountEvents` | src/telemetry/metrics.rs:64-89 | below the wrap, k increments add k |
| `Metrics.PruneShape` | src/telemetry/metrics.rs:156-164 | pruning drops only points older than the horizon, from the front, and keeps a suffix |
| `Metrics.PruneKeepsHorizonPoint` | src/telemetry/metrics.rs:158 | a point exactly at the horizon is kept |
| `Metrics.PruneIdempotent` | src/telemetry/metrics.rs:156-164 | pruning twice is pruning once |
| `Metrics.PrunedSortedWithinHorizon` | src/telemetry/metrics.rs:156-164 | after pruning a time-ordered window every point is within the horizon |
| `Metrics.RecordKeepsSorted` | src/telemetry/metrics.rs:144-148 | recording the current instant keeps the window in time order |
| `Metrics.PruneNested` | src/telemetry/metrics.rs:156-164 | pruning with a shorter horizon keeps a suffix of what a longer horizon keeps |
| `Metrics.NestedAfterPrune` | src/telemetry/metrics.rs:103-112 | pruning all six windows at one instant keeps each a suffix of the next longer one |
| `Metrics.NestedAfterRecord` | src/telemetry/metrics.rs:64-80 | recording a line in all six windows keeps them nested |
| `Metrics.NestedCounts` | src/telemetry/metrics.rs:103-112 | nested windows give counts that never decrease with the window length |
| `Metrics.LastTranscriptionAt` | src/telemetry/metrics.rs:114-122 | no time is reported exactly when nothing was transcribed |
| `Metrics.LineWindow.constructor` | src/telemetry/metrics.rs:137-142 | an empty window with the horizon |
| `Metrics.LineWindow.Prune` | src/telemetry/metrics.rs:156-164 | the loop prunes as the prune function says |
| `Metrics.LineWindow.Record` | src/telemetry/metrics.rs:144-148 | appends the instant and prunes |
| `Metrics.LineWindow.Count` | src/telemetry/metrics.rs:150-154 | prunes and returns the number of points left |
| `Metrics.AppMetrics.constructor` | src/telemetry/metrics.rs:48-62 | zero counters, the start time, and all six windows empty, with their horizons and nested |
| `Metrics.AppMetrics.RecordInWindows` | src/telemetry/metrics.rs:67-72 | records the instant in all six windows |
| `Metrics.AppMetrics.RecordTranscriptionLine` | src/telemetry/metrics.rs:64-80 | increments the line counter, stores the time and records in every window |
| `Metrics.AppMetrics.RecordSessionStarted` | src/telemetry/metrics.rs:82-84 | increments only the started counter, keeping the window invariant |
| `Metrics.AppMetrics.RecordSessionCompleted` | src/telemetry/metrics.rs:86-89 | increments only the completed counter, keeping the window invariant |
| `Metrics.AppMetrics.LineWindowCounts` | src/telemetry/metrics.rs:103-112 | prunes all six windows at the instant and reports exactly their sizes, which never decrease with the window length |
| `Metrics.AppMetrics.Snapshot` | src/telemetry/metrics.rs:91-101 | reports uptime in whole seconds, the counters, the last time, and exactly the six window sizes after pruning at the instant, which are nested |
| `Config.Lookup` | src/config.rs:29-30 | reads a variable exactly when it is set |
| `Config.ParseBool` | src/config.rs:144-150 | trimmed and lower-cased, `1/true/yes/on` are true, `0/false/no/off` are false, anything else is none |
| `Config.ParseBoolIgnoresPadding` | src/config.rs:145 | surrounding white space does not matter |
| `Config.ParseBoolIgnoresCase` | src/config.rs:145 | ASCII case does not matter |
| `Config.ParseBoolWords` | src/config.rs:146-147 | each of `1/true/yes/on` parses as true and each of `0/false/no/off` as false |
| `Config.ParseU32` | src/config.rs:44-48 | any parsed value fits in 32 unsigned bits |
| `Config.ParseI32` | src/config.rs:56-59 | any parsed value fits in 32 signed bits |
| `Config.ParseU32Decimal` | src/config.rs:44-48 | every in-range numeral parses back to its number |
| `Config.ParseI32Decimal` | src/config.rs:56-59 | every in-range numeral, with or without `-`, parses back |
| `Config.Join` | src/config.rs:127 | joining an absolute path, or any path onto an empty base, gives the path; otherwise the base is kept and the path appended after at most one `/` |
| `Config.AbsolutePath` | src/config.rs:121-128 | absolute paths are kept; relative ones need the working directory, and fail without it |
| `Config.SampleRate` | src/config.rs:44-48 | the rate is positive and fits in 32 bits |
| `Config.SampleRateFromEnv` | src/config.rs:44-48 | a positive in-range setting is used |
| `Config.SampleRateFallsBack` | src/config.rs:44-48 | a missing, unparsable or zero setting gives 16000 |
| `Config.ModelFileName` | src/config.rs:68 | the model file name is relative |
| `Config.ModelPathNamesModelFile` | src/config.rs:61-71 | without an explicit path the model path ends with `ggml-<name>.bin`, `ggml-base.bin` by default |
| `Config.ModelPathDefault` | src/config.rs:61-71 | with no settings the model is `<cwd>/models/ggml-base.bin` |
| `Config.WhisperCliPath` | src/config.rs:31-35 | no setting gives none; a setting is resolved against the working directory |
| `Config.FromEnvNeedsToken` | src/config.rs:29-30 | loading fails when `DISCORD_TOKEN` is missing |
| `Config.FromEnvSummaryFlowCheck` | src/config.rs:89-93 | loading fails exactly when there is no OpenAI key and transcripts are excluded |
| `Config.PathsResolve` | src/config.rs:61-76 | with a working directory every path resolves |
| `Config.FromEnvNeedsCwd` | src/config.rs:73-76 | without a working directory the default entry sound cannot be resolved |
| `Config.FromEnvProperties` | src/config.rs:28-112 | a loaded configuration has a positive sample rate, includes transcripts when there is no key, and has absolute paths |
| `Config.FromEnvDefaults` | src/config.rs:28-112 | with only a token set, every field takes its documented default |
| `Config.LocateWhisperCli` | src/config.rs:130-138 | the configured path wins, then the one found on `PATH`; failing both is an error |
| `Text.ParseNatToString` | src/voice/mod.rs:359 | a decimal numeral reads back as its number |
| `Text.NatToStringInjective` | src/voice/mod.rs:359 | distinct numbers have distinct numerals |
| `Text.TrimBlank` | src/summaries/openai.rs:120-121 | trimming leaves nothing exactly when the text is all white space |
| `Text.TrimIdempotent` | src/caption_sink_json.rs:146-153 | trimming twice is trimming once |
| `Text.TrimIgnoresPadding` | src/config.rs:145 | surrounding white space does not change the trim |
| `Text.TrimLowerCommute` | src/config.rs:145 | trimming and ASCII lower-casing commute |

## Left out

- Concurrency: `DashMap`, `Mutex` and `async` interleavings are not modelled. Each handler runs atomically. Iteration order over a map during disconnect and a voice tick is a ghost choice or a caller-given sequence.
- Transcription (`transcription.rs`, Whisper) is not part of this model. A submitted job is appended to a ghost log; queue errors are not modelled.
- Discord event decoding and name lookup are not modelled. Events arrive already decoded, and `resolve_user_name` is an uninterpreted function.
- Speaker notifications are a ghost log of published values.
- File-system and serde errors are not modelled. The caption directory is a map from file name to stored contents. A blank or unparsable file loads as a fresh document, as the code does.
- JSON text parsing is not modelled: `flatten_transcript` starts from an already parsed JSON value. Objects are lists of members in iteration order.
- The HTTP exchange with OpenAI is not modelled. The model builds the request and extracts text from a parsed response.
- Floating point is not modelled: `CAPTION_CHUNK_SECS`, `ENTRY_SOUND_VOLUME` and `chunk_samples` (the chunk size is a positive parameter here), and the idle test `as_secs_f32() > 1.0` of src/voice.rs:355, which `LegacyVoice` states as an integer comparison, more than 1000 ms.
- The RFC 3339 timestamp of `last_transcription_iso8601` is not formatted. `Metrics.LastTranscriptionAt` gives the stored epoch or nothing; chrono's rejection of out-of-range epochs is not modelled.
- Local dates in file names assume years 0 to 9999.
- Paths follow Unix semantics: absolute means starting with `/`, and joining inserts at most one `/`.
- `env::var` failing on non-Unicode values is not modelled: the environment maps strings to strings.
- The monotonic clock (`Instant`) and the wall clock are integers in milliseconds passed in by the caller.
- `session_info_snapshot` and `SessionDocument::new_with_info` are modelled inside `CaptionSink.LoadSessionDocument` and `StartSpec`; they have no contracts of their own.

## Findings

| source | as written | input that shows it | evidently intended | confidence | as-written member | corrected member |
|---|---|---|---|---|---|---|
| src/summaries/openai.rs:210-219 | `truncate_transcript` slices `transcript[..60000]` by bytes, which panics when byte 60 000 falls inside a multi-byte character | 59 999 `a` followed by `é` (60 001 bytes) | cut at the last character boundary within 60 000 bytes, then append the marker | not executed | `Summaries.TruncatePanicsMidCharacter` | `Summaries.TruncateKeepsLongestPrefix` |
