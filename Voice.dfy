/**
 * The audio aggregator of the caption pipeline: it demultiplexes the
 * per-stream (SSRC) PCM of each voice tick into stream buffers, cuts
 * fixed-size chunks, attributes every chunk to a speaker (the announced
 * user, a roster guess, or a "Speaker <ssrc>" placeholder), flushes
 * trailing audio on silence and disconnect, and asks for placeholder
 * captions to be relabelled once the real user of a stream is announced.
 *
 * Time is an explicit integer clock (milliseconds) passed to every
 * operation. Submitting a transcription job, the speaker notifier and the
 * relabel task are appended to ghost logs.
 */
module Voice {
  import opened Wrappers
  import opened Text
  import opened Chunking
  import opened Roster

  newtype i16 = x: int | -0x8000 <= x < 0x8000

  type Ssrc = nat

  /** The configured chunk size; the configuration never yields zero. */
  type ChunkSize = n: nat | n > 0 witness 1

  datatype SpeakerIdentity = Known(userId: UserId) | Placeholder(text: string)

  datatype AudioBuffer = AudioBuffer(samples: seq<i16>, speaker: SpeakerIdentity, lastActivity: int)

  datatype TranscriptionJob = TranscriptionJob(
    channelId: ChannelId,
    guildId: nat,
    speakerId: Option<UserId>,
    speakerName: string,
    pcm: seq<i16>,
    sampleRate: nat,
    startedAt: int)

  /** A request to rewrite stored captions of `placeholder` as `(userId, newName)`. */
  datatype RelabelRequest = RelabelRequest(placeholder: string, userId: UserId, newName: string)

  /** The part of the aggregator and roster state that identity resolution reads and writes. */
  datatype IdentityState = IdentityState(
    ssrcMap: map<Ssrc, UserId>,
    labels: map<Ssrc, string>,
    participants: map<UserId, ParticipantRecord>,
    pending: seq<PendingJoin>)

  /** `format!("Speaker {ssrc}")`. */
  function PlaceholderText(ssrc: Ssrc): string {
    "Speaker " + NatToString(ssrc)
  }

  /** Two streams never share a placeholder label. */
  lemma PlaceholderTextInjective(a: Ssrc, b: Ssrc)
    requires PlaceholderText(a) == PlaceholderText(b)
    ensures a == b
  {
    var p := "Speaker ";
    assert NatToString(a) == PlaceholderText(a)[|p|..];
    assert NatToString(b) == PlaceholderText(b)[|p|..];
    NatToStringInjective(a, b);
  }

  predicate LabelsCanonical(labels: map<Ssrc, string>) {
    forall s :: s in labels ==> labels[s] == PlaceholderText(s)
  }

  /**
   * `resolve_identity`: a buffered Known identity, else the announced
   * mapping, else a roster guess (written back into the map), else the
   * buffered placeholder, else the memoised placeholder label of the stream.
   */
  function ResolveIdentitySpec(st: IdentityState, channel: ChannelId, ssrc: Ssrc, existing: Option<SpeakerIdentity>)
    : (SpeakerIdentity, IdentityState)
  {
    if existing.Some? && existing.value.Known? then (existing.value, st)
    else if ssrc in st.ssrcMap then (Known(st.ssrcMap[ssrc]), st)
    else
      var (guess, rest) := Guess(st.participants, st.pending, channel);
      if guess.Some? then (Known(guess.value), st.(ssrcMap := st.ssrcMap[ssrc := guess.value], pending := rest))
      else if existing.Some? then (existing.value, st)
      else if ssrc in st.labels then (Placeholder(st.labels[ssrc]), st)
      else (Placeholder(PlaceholderText(ssrc)), st.(labels := st.labels[ssrc := PlaceholderText(ssrc)]))
  }

  // ---------------------------------------------------------------------
  // Properties of identity resolution
  // ---------------------------------------------------------------------

  /** A mapped stream resolves to its user, and the roster is not consulted. */
  lemma MappedStreamWins(st: IdentityState, channel: ChannelId, ssrc: Ssrc, existing: Option<SpeakerIdentity>)
    requires ssrc in st.ssrcMap
    requires existing.Some? ==> existing.value.Placeholder?
    ensures ResolveIdentitySpec(st, channel, ssrc, existing) == (Known(st.ssrcMap[ssrc]), st)
  {
  }

  /** A buffered Known identity is returned as it is, before the map or the roster is consulted. */
  lemma BufferedKnownWins(st: IdentityState, channel: ChannelId, ssrc: Ssrc, user: UserId)
    ensures ResolveIdentitySpec(st, channel, ssrc, Some(Known(user))) == (Known(user), st)
  {
  }

  /** With no mapping and no guess, a buffered placeholder is kept and nothing changes. */
  lemma BufferedPlaceholderKept(st: IdentityState, channel: ChannelId, ssrc: Ssrc, text: string)
    requires ssrc !in st.ssrcMap
    requires Guess(st.participants, st.pending, channel).0.None?
    ensures ResolveIdentitySpec(st, channel, ssrc, Some(Placeholder(text))) == (Placeholder(text), st)
  {
  }

  /** Resolution never drops a mapping and never changes the participant table. */
  lemma ResolutionOnlyGrowsMap(st: IdentityState, channel: ChannelId, ssrc: Ssrc, existing: Option<SpeakerIdentity>)
    ensures var (_, st') := ResolveIdentitySpec(st, channel, ssrc, existing);
      st'.participants == st.participants &&
      (forall s :: s in st.ssrcMap ==> s in st'.ssrcMap && st'.ssrcMap[s] == st.ssrcMap[s])
  {
  }

  /**
   * A successful roster guess is sticky: resolving the same stream again
   * returns the same user from the map, with no second guess.
   */
  lemma GuessIsSticky(st: IdentityState, channel: ChannelId, ssrc: Ssrc)
    requires ssrc !in st.ssrcMap
    requires Guess(st.participants, st.pending, channel).0.Some?
    ensures var (id1, st1) := ResolveIdentitySpec(st, channel, ssrc, None);
      id1 == Known(Guess(st.participants, st.pending, channel).0.value) &&
      ResolveIdentitySpec(st1, channel, ssrc, None) == (id1, st1)
  {
  }

  /**
   * Without a guess, an unmapped stream gets the label "Speaker <ssrc>",
   * and asking again returns the same label and changes nothing more.
   */
  lemma PlaceholderIsMemoised(st: IdentityState, channel: ChannelId, ssrc: Ssrc)
    requires LabelsCanonical(st.labels)
    requires ssrc !in st.ssrcMap
    requires Guess(st.participants, st.pending, channel).0.None?
    ensures var (id1, st1) := ResolveIdentitySpec(st, channel, ssrc, None);
      id1 == Placeholder(PlaceholderText(ssrc)) && LabelsCanonical(st1.labels) &&
      ResolveIdentitySpec(st1, channel, ssrc, None) == (id1, st1)
  {
  }

  /** A resolution keeps every stored label equal to its stream's "Speaker <ssrc>". */
  lemma ResolutionKeepsLabelsCanonical(st: IdentityState, channel: ChannelId, ssrc: Ssrc, existing: Option<SpeakerIdentity>)
    requires LabelsCanonical(st.labels)
    ensures LabelsCanonical(ResolveIdentitySpec(st, channel, ssrc, existing).1.labels)
  {
  }

  // ---------------------------------------------------------------------
  // Silence flush
  // ---------------------------------------------------------------------

  /** `flush_expired`'s test: idle longer than the threshold, with samples waiting. */
  predicate ShouldFlush(buffer: AudioBuffer, now: int, silenceFlush: nat) {
    now - buffer.lastActivity > silenceFlush && buffer.samples != []
  }

  /** The audio of a list of jobs, in submission order. */
  function Pcms(js: seq<TranscriptionJob>): (r: seq<seq<i16>>)
    ensures |r| == |js| && forall i :: 0 <= i < |js| ==> r[i] == js[i].pcm
  {
    seq(|js|, i requires 0 <= i < |js| => js[i].pcm)
  }

  lemma PcmsAppend(a: seq<TranscriptionJob>, b: seq<TranscriptionJob>)
    ensures Pcms(a + b) == Pcms(a) + Pcms(b)
  {
    assert forall i :: 0 <= i < |a + b| ==> Pcms(a + b)[i] == (Pcms(a) + Pcms(b))[i];
  }

  // ---------------------------------------------------------------------
  // The state the event handlers act on
  // ---------------------------------------------------------------------

  /**
   * A snapshot of everything the voice event handlers read or write: the
   * aggregator's three maps, the published speaker, the speaker updates
   * sent, the jobs submitted, and the roster's two tables.
   */
  datatype View = View(
    ssrcMap: map<Ssrc, UserId>,
    buffers: map<Ssrc, AudioBuffer>,
    labels: map<Ssrc, string>,
    current: Option<UserId>,
    notes: seq<Option<UserId>>,
    jobs: seq<TranscriptionJob>,
    participants: map<UserId, ParticipantRecord>,
    pending: seq<PendingJoin>)
  {
    function Identity(): IdentityState {
      IdentityState(ssrcMap, labels, participants, pending)
    }

    function WithIdentity(st: IdentityState): View {
      this.(ssrcMap := st.ssrcMap, labels := st.labels, participants := st.participants, pending := st.pending)
    }

    /** The samples buffered for a stream (none if it has no buffer). */
    function Buffered(ssrc: Ssrc): seq<i16> {
      if ssrc in buffers then buffers[ssrc].samples else []
    }
  }

  /** The streams announced as `user`. */
  function MappedTo(ssrcMap: map<Ssrc, UserId>, user: UserId): set<Ssrc> {
    set s | s in ssrcMap && ssrcMap[s] == user
  }

  predicate Distinct(s: seq<Ssrc>) {
    forall i, j :: 0 <= i < j < |s| ==> s[i] != s[j]
  }

  function Elems(s: seq<Ssrc>): set<Ssrc> {
    set x | x in s
  }

  lemma SnocDistinct(order: seq<Ssrc>, s: Ssrc)
    requires Distinct(order) && s !in Elems(order)
    ensures Distinct(order + [s]) && Elems(order + [s]) == Elems(order) + {s}
  {
  }

  lemma MinusSnoc<K, V>(m: map<K, V>, gone: set<K>, k: K)
    ensures m - gone - {k} == m - (gone + {k})
  {
  }

  /**
   * The `filter_map(..).collect()` of `on_disconnect`: the streams mapped
   * to `user`, each once, in an order the map's iteration chooses.
   */
  method CollectMapped(ssrcMap: map<Ssrc, UserId>, user: UserId) returns (ssrcs: seq<Ssrc>)
    ensures Distinct(ssrcs) && Elems(ssrcs) == MappedTo(ssrcMap, user)
  {
    var remaining := MappedTo(ssrcMap, user);
    ssrcs := [];
    while remaining != {}
      invariant Distinct(ssrcs) && remaining !! Elems(ssrcs)
      invariant remaining + Elems(ssrcs) == MappedTo(ssrcMap, user)
      decreases |remaining|
    {
      var s :| s in remaining;
      SnocDistinct(ssrcs, s);
      remaining := remaining - {s};
      ssrcs := ssrcs + [s];
    }
  }

  /** The non-empty buffers of `order`, in that order: what a disconnect flushes. */
  function Flushed(order: seq<Ssrc>, buffers: map<Ssrc, AudioBuffer>): seq<seq<i16>> {
    if order == [] then []
    else
      var s := order[|order| - 1];
      Flushed(order[..|order| - 1], buffers) + (if s in buffers && buffers[s].samples != [] then [buffers[s].samples] else [])
  }

  // ---------------------------------------------------------------------
  // The aggregator
  // ---------------------------------------------------------------------

  class AudioAggregator {
    const guildId: nat
    const channelId: ChannelId
    const chunkSamples: ChunkSize
    const sampleRate: nat
    const silenceFlush: nat
    /** Whether a speaker-update sender was configured. */
    const notifies: bool
    /** `resolve_user_name`: a display name for a user (cache or HTTP lookup). */
    const resolveName: UserId -> string
    const roster: VoiceRoster

    var ssrcMap: map<Ssrc, UserId>
    var buffers: map<Ssrc, AudioBuffer>
    var placeholderLabels: map<Ssrc, string>
    var currentSpeaker: Option<UserId>

    /** Values sent on the speaker-update channel. */
    ghost var notifications: seq<Option<UserId>>
    /** Jobs handed to the transcription queue. */
    ghost var jobs: seq<TranscriptionJob>
    /** Relabel requests handed to the caption store. */
    ghost var relabels: seq<RelabelRequest>

    ghost predicate Valid()
      reads this
    {
      && LabelsCanonical(placeholderLabels)
      // A buffer attributed to a known user belongs to a mapped stream.
      && (forall s :: s in buffers && buffers[s].speaker.Known? ==> s in ssrcMap)
      && (!notifies ==> currentSpeaker == None)
    }

    ghost function IdState(): IdentityState
      reads this, roster
    {
      IdentityState(ssrcMap, placeholderLabels, roster.participants, roster.pending)
    }

    ghost function Snapshot(): View
      reads this, roster
    {
      View(ssrcMap, buffers, placeholderLabels, currentSpeaker, notifications, jobs, roster.participants, roster.pending)
    }

    constructor (guildId: nat, channelId: ChannelId, chunkSamples: ChunkSize, sampleRate: nat,
                 silenceFlush: nat, notifies: bool, resolveName: UserId -> string, roster: VoiceRoster)
      ensures Valid()
      ensures this.guildId == guildId && this.channelId == channelId && this.chunkSamples == chunkSamples
      ensures this.sampleRate == sampleRate && this.silenceFlush == silenceFlush && this.notifies == notifies
      ensures this.resolveName == resolveName && this.roster == roster
      ensures ssrcMap == map[] && buffers == map[] && placeholderLabels == map[] && currentSpeaker == None
      ensures notifications == [] && jobs == [] && relabels == []
    {
      this.guildId := guildId;
      this.channelId := channelId;
      this.chunkSamples := chunkSamples;
      this.sampleRate := sampleRate;
      this.silenceFlush := silenceFlush;
      this.notifies := notifies;
      this.resolveName := resolveName;
      this.roster := roster;
      ssrcMap := map[];
      buffers := map[];
      placeholderLabels := map[];
      currentSpeaker := None;
      notifications := [];
      jobs := [];
      relabels := [];
    }

    // -------------------------------------------------------------------
    // Specification of the handlers, one step function each
    // -------------------------------------------------------------------

    /** The job `dispatch_chunk` builds: placeholder chunks carry no user id. */
    function JobOf(identity: SpeakerIdentity, pcm: seq<i16>, now: int): TranscriptionJob {
      match identity
      case Known(u) => TranscriptionJob(channelId, guildId, Some(u), resolveName(u), pcm, sampleRate, now)
      case Placeholder(tag) => TranscriptionJob(channelId, guildId, None, tag, pcm, sampleRate, now)
    }

    function JobsOf(identity: SpeakerIdentity, chunks: seq<seq<i16>>, now: int): (r: seq<TranscriptionJob>)
      ensures Pcms(r) == chunks
    {
      seq(|chunks|, i requires 0 <= i < |chunks| => JobOf(identity, chunks[i], now))
    }

    // The effect of dispatching `k` non-empty chunks under one identity.

    function SpeakerAfter(identity: SpeakerIdentity, k: nat, current: Option<UserId>): Option<UserId> {
      if identity.Known? && k > 0 && notifies then Some(identity.userId) else current
    }

    function NotesAfter(identity: SpeakerIdentity, k: nat, current: Option<UserId>, notes: seq<Option<UserId>>)
      : seq<Option<UserId>>
    {
      if identity.Known? && k > 0 && notifies && current != Some(identity.userId)
      then notes + [Some(identity.userId)] else notes
    }

    function ParticipantsAfter(identity: SpeakerIdentity, k: nat, participants: map<UserId, ParticipantRecord>, now: int)
      : map<UserId, ParticipantRecord>
    {
      if identity.Known? && k > 0 then Spoke(participants, identity.userId, now) else participants
    }

    function PendingAfter(identity: SpeakerIdentity, k: nat, pending: seq<PendingJoin>): seq<PendingJoin> {
      if identity.Known? then RemoveFirstN(pending, identity.userId, k) else pending
    }

    /** `dispatch_chunk`. */
    function DispatchStep(v: View, identity: SpeakerIdentity, samples: seq<i16>, now: int): View {
      if samples == [] then v
      else v.(current := SpeakerAfter(identity, 1, v.current),
              notes := NotesAfter(identity, 1, v.current, v.notes),
              jobs := v.jobs + [JobOf(identity, samples, now)],
              participants := ParticipantsAfter(identity, 1, v.participants, now),
              pending := PendingAfter(identity, 1, v.pending))
    }

    /** `consume_samples`. */
    function ConsumeStep(v: View, ssrc: Ssrc, identity: SpeakerIdentity, samples: seq<i16>, now: int): View {
      if samples == [] then v
      else
        var all := v.Buffered(ssrc) + samples;
        var chunks := Chunks(all, chunkSamples);
        v.(buffers := v.buffers[ssrc := AudioBuffer(Residue(all, chunkSamples), identity, now)],
           current := SpeakerAfter(identity, |chunks|, v.current),
           notes := NotesAfter(identity, |chunks|, v.current, v.notes),
           jobs := v.jobs + JobsOf(identity, chunks, now),
           participants := ParticipantsAfter(identity, |chunks|, v.participants, now),
           pending := PendingAfter(identity, |chunks|, v.pending))
    }

    /** `push_samples`. */
    function PushStep(v: View, ssrc: Ssrc, samples: seq<i16>, now: int): View {
      var (identity, st) := ResolveIdentitySpec(v.Identity(), channelId, ssrc, None);
      ConsumeStep(v.WithIdentity(st), ssrc, identity, samples, now)
    }

    /** `flush_stream`. */
    function FlushStreamStep(v: View, ssrc: Ssrc, now: int): View {
      if ssrc in v.buffers && v.buffers[ssrc].samples != [] then
        var entry := v.buffers[ssrc];
        var (identity, st) := ResolveIdentitySpec(v.Identity(), channelId, ssrc, Some(entry.speaker));
        DispatchStep(v.WithIdentity(st).(buffers := v.buffers - {ssrc}), identity, entry.samples, now)
      else v.(buffers := v.buffers - {ssrc})
    }

    /** `flush_expired`. */
    function FlushExpiredStep(v: View, ssrc: Ssrc, now: int): View {
      if ssrc in v.buffers && ShouldFlush(v.buffers[ssrc], now, silenceFlush) then
        var entry := v.buffers[ssrc];
        var (identity, st) := ResolveIdentitySpec(v.Identity(), channelId, ssrc, Some(entry.speaker));
        DispatchStep(v.WithIdentity(st).(buffers := v.buffers[ssrc := entry.(samples := [])]), identity, entry.samples, now)
      else v
    }

    /** `clear_current_speaker`. */
    function ClearStep(v: View, user: UserId): View {
      if notifies && v.current == Some(user) then v.(current := None, notes := v.notes + [None]) else v
    }

    /** One iteration of `on_disconnect`: flush the stream, forget its user, clear the speaker. */
    function DisconnectStep(v: View, ssrc: Ssrc, user: UserId, now: int): View {
      var f := FlushStreamStep(v, ssrc, now);
      ClearStep(f.(ssrcMap := f.ssrcMap - {ssrc}), user)
    }

    /** `on_disconnect`, visiting the user's streams in `order`. */
    function DisconnectSpec(v: View, order: seq<Ssrc>, user: UserId, now: int): View
      decreases |order|
    {
      if order == [] then v
      else DisconnectStep(DisconnectSpec(v, order[..|order| - 1], user, now), order[|order| - 1], user, now)
    }

    /** The first loop of `on_voice_tick`: push the decoded audio of every speaking stream. */
    function TickSpeakingSpec(v: View, speaking: seq<(Ssrc, Option<seq<i16>>)>, now: int): View
      decreases |speaking|
    {
      if speaking == [] then v
      else
        var v' := TickSpeakingSpec(v, speaking[..|speaking| - 1], now);
        var (ssrc, decoded) := speaking[|speaking| - 1];
        if decoded.Some? then PushStep(v', ssrc, decoded.value, now) else v'
    }

    /** The second loop of `on_voice_tick`: a silence flush for every silent stream. */
    function TickSilentSpec(v: View, silent: seq<Ssrc>, now: int): View
      decreases |silent|
    {
      if silent == [] then v
      else FlushExpiredStep(TickSilentSpec(v, silent[..|silent| - 1], now), silent[|silent| - 1], now)
    }

    function TickSpec(v: View, speaking: seq<(Ssrc, Option<seq<i16>>)>, silent: seq<Ssrc>, now: int): View {
      TickSilentSpec(TickSpeakingSpec(v, speaking, now), silent, now)
    }

    // -------------------------------------------------------------------
    // Properties of the handlers
    // -------------------------------------------------------------------

    /**
     * Consuming samples loses nothing and invents nothing: the chunks
     * submitted, followed by what stays buffered, are exactly the old
     * buffer followed by the new samples; every chunk has the configured
     * size and fewer samples than that stay behind.
     */
    lemma ConsumeConserves(v: View, ssrc: Ssrc, identity: SpeakerIdentity, samples: seq<i16>, now: int)
      requires samples != []
      ensures var r := ConsumeStep(v, ssrc, identity, samples, now);
        && v.jobs <= r.jobs
        && ssrc in r.buffers && r.buffers[ssrc].speaker == identity && r.buffers[ssrc].lastActivity == now
        && (forall i :: |v.jobs| <= i < |r.jobs| ==> |r.jobs[i].pcm| == chunkSamples)
        && |r.buffers[ssrc].samples| < chunkSamples
        && Concat(Pcms(r.jobs[|v.jobs|..])) + r.buffers[ssrc].samples == v.Buffered(ssrc) + samples
        && r.ssrcMap == v.ssrcMap && r.labels == v.labels
        && (forall s :: s != ssrc ==> (s in r.buffers <==> s in v.buffers) && (s in r.buffers ==> r.buffers[s] == v.buffers[s]))
    {
      var all := v.Buffered(ssrc) + samples;
      var r := ConsumeStep(v, ssrc, identity, samples, now);
      ChunksConserve(all, chunkSamples);
      ChunkSizes(all, chunkSamples);
      assert r.jobs[|v.jobs|..] == JobsOf(identity, Chunks(all, chunkSamples), now);
    }

    /** A stream whose user was announced is always attributed to that user, and the map is left as it was. */
    lemma PushAttributesMappedStream(v: View, ssrc: Ssrc, samples: seq<i16>, now: int)
      requires ssrc in v.ssrcMap && samples != []
      ensures var r := PushStep(v, ssrc, samples, now);
        r.buffers[ssrc].speaker == Known(v.ssrcMap[ssrc]) && r.ssrcMap == v.ssrcMap && r.labels == v.labels
    {
    }

    /** A push never forgets a stream's buffer or mapping, and only appends jobs. */
    lemma PushKeeps(v: View, ssrc: Ssrc, samples: seq<i16>, now: int)
      ensures var r := PushStep(v, ssrc, samples, now);
        && (forall s :: s in v.buffers ==> s in r.buffers)
        && (forall s :: s in v.ssrcMap ==> s in r.ssrcMap && r.ssrcMap[s] == v.ssrcMap[s])
        && v.jobs <= r.jobs
        && (samples != [] ==> ssrc in r.buffers)
    {
      var (identity, st) := ResolveIdentitySpec(v.Identity(), channelId, ssrc, None);
      ResolutionOnlyGrowsMap(v.Identity(), channelId, ssrc, None);
    }

    /** `flush_stream` drops the buffer and submits what it held, in one job. */
    lemma FlushStreamSubmitsBuffer(v: View, ssrc: Ssrc, now: int)
      ensures var r := FlushStreamStep(v, ssrc, now);
        && r.buffers == v.buffers - {ssrc}
        && Pcms(r.jobs) == Pcms(v.jobs) + (if v.Buffered(ssrc) != [] then [v.Buffered(ssrc)] else [])
    {
      var r := FlushStreamStep(v, ssrc, now);
      if v.Buffered(ssrc) != [] {
        var entry := v.buffers[ssrc];
        var (identity, st) := ResolveIdentitySpec(v.Identity(), channelId, ssrc, Some(entry.speaker));
        PcmsAppend(v.jobs, [JobOf(identity, entry.samples, now)]);
      }
    }

    /**
     * `flush_expired` on an idle stream submits its samples as one job and
     * keeps the emptied buffer (with its speaker and activity time); on any
     * other stream it changes nothing.
     */
    lemma FlushExpiredSubmitsIdle(v: View, ssrc: Ssrc, now: int)
      ensures var r := FlushExpiredStep(v, ssrc, now);
        if ssrc in v.buffers && ShouldFlush(v.buffers[ssrc], now, silenceFlush) then
          && r.buffers == v.buffers[ssrc := v.buffers[ssrc].(samples := [])]
          && Pcms(r.jobs) == Pcms(v.jobs) + [v.buffers[ssrc].samples]
        else r == v
    {
      if ssrc in v.buffers && ShouldFlush(v.buffers[ssrc], now, silenceFlush) {
        var entry := v.buffers[ssrc];
        var (identity, st) := ResolveIdentitySpec(v.Identity(), channelId, ssrc, Some(entry.speaker));
        PcmsAppend(v.jobs, [JobOf(identity, entry.samples, now)]);
      }
    }

    /** A second silence flush at the same instant finds nothing left to flush. */
    lemma FlushExpiredIdempotent(v: View, ssrc: Ssrc, now: int)
      ensures FlushExpiredStep(FlushExpiredStep(v, ssrc, now), ssrc, now) == FlushExpiredStep(v, ssrc, now)
    {
      FlushExpiredSubmitsIdle(v, ssrc, now);
    }

    lemma DisconnectSpecSnoc(v: View, order: seq<Ssrc>, s: Ssrc, user: UserId, now: int)
      ensures DisconnectSpec(v, order + [s], user, now) == DisconnectStep(DisconnectSpec(v, order, user, now), s, user, now)
    {
      assert (order + [s])[..|order|] == order;
    }

    /** One iteration of `on_disconnect`, on a stream announced as `user`. */
    lemma DisconnectStepForgets(w: View, s: Ssrc, user: UserId, now: int)
      requires s in w.ssrcMap && w.ssrcMap[s] == user
      ensures var r := DisconnectStep(w, s, user, now);
        && r.ssrcMap == w.ssrcMap - {s}
        && r.buffers == w.buffers - {s}
        && r.labels == w.labels
        && Pcms(r.jobs) == Pcms(w.jobs) + (if w.Buffered(s) != [] then [w.Buffered(s)] else [])
        && (notifies ==> r.current != Some(user))
        && (!notifies ==> r.current == w.current && r.notes == w.notes)
    {
      var f := FlushStreamStep(w, s, now);
      FlushStreamSubmitsBuffer(w, s, now);
      FlushMappedStream(w, s, now);
      ClearStepKeeps(f.(ssrcMap := f.ssrcMap - {s}), user);
    }

    /** Flushing an announced stream leaves the map and the labels alone, and publishes nothing without a sender. */
    lemma FlushMappedStream(w: View, s: Ssrc, now: int)
      requires s in w.ssrcMap
      ensures var f := FlushStreamStep(w, s, now);
        && f.ssrcMap == w.ssrcMap && f.labels == w.labels
        && (!notifies ==> f.current == w.current && f.notes == w.notes)
    {
      if s in w.buffers && w.buffers[s].samples != [] {
        assert ResolveIdentitySpec(w.Identity(), channelId, s, Some(w.buffers[s].speaker)).1 == w.Identity();
      }
    }

    /** `clear_current_speaker` touches only the published speaker, and leaves it other than `user`. */
    lemma ClearStepKeeps(v: View, user: UserId)
      ensures var r := ClearStep(v, user);
        && r.ssrcMap == v.ssrcMap && r.buffers == v.buffers && r.labels == v.labels && r.jobs == v.jobs
        && (notifies ==> r.current != Some(user))
        && (!notifies ==> r == v)
    {
    }

    /** The stream tables after `on_disconnect`: the user's streams are unmapped and unbuffered, labels survive. */
    lemma {:induction false} DisconnectDropsStreams(v: View, order: seq<Ssrc>, user: UserId, now: int)
      requires Distinct(order)
      requires forall s :: s in order ==> s in v.ssrcMap && v.ssrcMap[s] == user
      ensures var r := DisconnectSpec(v, order, user, now);
        && r.ssrcMap == v.ssrcMap - Elems(order)
        && r.buffers == v.buffers - Elems(order)
        && r.labels == v.labels
      decreases |order|
    {
      if order != [] {
        var p := order[..|order| - 1];
        var s := order[|order| - 1];
        assert forall x :: x in p ==> x in order;
        DisconnectDropsStreams(v, p, user, now);
        var w := DisconnectSpec(v, p, user, now);
        assert s !in Elems(p);
        DisconnectStepForgets(w, s, user, now);
        assert Elems(order) == Elems(p) + {s};
        MinusSnoc(v.ssrcMap, Elems(p), s);
        MinusSnoc(v.buffers, Elems(p), s);
      }
    }

    /** The jobs and speaker updates of `on_disconnect`: each buffered stream submitted once, in visiting order. */
    lemma {:induction false} DisconnectSubmitsBuffered(v: View, order: seq<Ssrc>, user: UserId, now: int)
      requires Distinct(order)
      requires forall s :: s in order ==> s in v.ssrcMap && v.ssrcMap[s] == user
      ensures var r := DisconnectSpec(v, order, user, now);
        && Pcms(r.jobs) == Pcms(v.jobs) + Flushed(order, v.buffers)
        && (notifies && order != [] ==> r.current != Some(user))
        && (!notifies ==> r.current == v.current && r.notes == v.notes)
      decreases |order|
    {
      if order != [] {
        var p := order[..|order| - 1];
        var s := order[|order| - 1];
        assert forall x :: x in p ==> x in order;
        DisconnectSubmitsBuffered(v, p, user, now);
        DisconnectDropsStreams(v, p, user, now);
        var w := DisconnectSpec(v, p, user, now);
        assert s !in Elems(p);
        DisconnectStepForgets(w, s, user, now);
        assert w.Buffered(s) == v.Buffered(s);
      }
    }

    /**
     * `on_disconnect` forgets every stream of the user: their mappings and
     * buffers are gone, anything still buffered was submitted (in visiting
     * order), the placeholder labels are untouched, and the user is no
     * longer the published speaker.
     */
    lemma DisconnectForgetsUser(v: View, order: seq<Ssrc>, user: UserId, now: int)
      requires Distinct(order)
      requires forall s :: s in order ==> s in v.ssrcMap && v.ssrcMap[s] == user
      ensures var r := DisconnectSpec(v, order, user, now);
        && r.ssrcMap == v.ssrcMap - Elems(order)
        && r.buffers == v.buffers - Elems(order)
        && r.labels == v.labels
        && Pcms(r.jobs) == Pcms(v.jobs) + Flushed(order, v.buffers)
        && (notifies && order != [] ==> r.current != Some(user))
        && (!notifies ==> r.current == v.current && r.notes == v.notes)
    {
      DisconnectDropsStreams(v, order, user, now);
      DisconnectSubmitsBuffered(v, order, user, now);
    }

    lemma {:induction false} TickSilentKeeps(v: View, silent: seq<Ssrc>, now: int)
      ensures var r := TickSilentSpec(v, silent, now);
        && (forall s :: s in v.buffers ==> s in r.buffers)
        && (forall s :: s in v.ssrcMap ==> s in r.ssrcMap && r.ssrcMap[s] == v.ssrcMap[s])
        && v.jobs <= r.jobs
      decreases |silent|
    {
      if silent != [] {
        var p := silent[..|silent| - 1];
        TickSilentKeeps(v, p, now);
        var w := TickSilentSpec(v, p, now);
        var s := silent[|silent| - 1];
        if s in w.buffers && ShouldFlush(w.buffers[s], now, silenceFlush) {
          ResolutionOnlyGrowsMap(w.Identity(), channelId, s, Some(w.buffers[s].speaker));
        }
      }
    }

    lemma {:induction false} TickSpeakingKeeps(v: View, speaking: seq<(Ssrc, Option<seq<i16>>)>, now: int)
      ensures var r := TickSpeakingSpec(v, speaking, now);
        && (forall s :: s in v.buffers ==> s in r.buffers)
        && (forall s :: s in v.ssrcMap ==> s in r.ssrcMap && r.ssrcMap[s] == v.ssrcMap[s])
        && v.jobs <= r.jobs
        && (forall i :: 0 <= i < |speaking| && speaking[i].1.Some? && speaking[i].1.value != [] ==> speaking[i].0 in r.buffers)
      decreases |speaking|
    {
      if speaking != [] {
        var p := speaking[..|speaking| - 1];
        TickSpeakingKeeps(v, p, now);
        var w := TickSpeakingSpec(v, p, now);
        var (s, decoded) := speaking[|speaking| - 1];
        if decoded.Some? {
          PushKeeps(w, s, decoded.value, now);
        }
        forall i | 0 <= i < |speaking| - 1 ensures speaking[i] == p[i] { }
      }
    }

    /**
     * A voice tick never drops a stream's buffer or mapping and only
     * appends jobs; every stream that delivered decoded audio has a
     * buffer afterwards.
     */
    lemma TickKeepsStreams(v: View, speaking: seq<(Ssrc, Option<seq<i16>>)>, silent: seq<Ssrc>, now: int)
      ensures var r := TickSpec(v, speaking, silent, now);
        && (forall s :: s in v.buffers ==> s in r.buffers)
        && (forall s :: s in v.ssrcMap ==> s in r.ssrcMap && r.ssrcMap[s] == v.ssrcMap[s])
        && v.jobs <= r.jobs
        && (forall i :: 0 <= i < |speaking| && speaking[i].1.Some? && speaking[i].1.value != [] ==> speaking[i].0 in r.buffers)
    {
      TickSpeakingKeeps(v, speaking, now);
      TickSilentKeeps(TickSpeakingSpec(v, speaking, now), silent, now);
    }

    // -------------------------------------------------------------------
    // The handlers
    // -------------------------------------------------------------------

    function LookupUser(ssrc: Ssrc): (r: Option<UserId>)
      reads this
      ensures r.Some? <==> ssrc in ssrcMap
      ensures r.Some? ==> r.value == ssrcMap[ssrc]
    {
      if ssrc in ssrcMap then Some(ssrcMap[ssrc]) else None
    }

    /** `resolve_speaking_user`: the announced user, else the mapped one. */
    function ResolveSpeakingUser(ssrc: Ssrc, user: Option<UserId>): (r: Option<UserId>)
      reads this
      ensures user.Some? ==> r == user
      ensures user.None? ==> r == LookupUser(ssrc)
    {
      if user.Some? then user else LookupUser(ssrc)
    }

    method SetCurrentSpeaker(speaker: UserId)
      requires Valid()
      modifies this
      ensures Valid()
      ensures currentSpeaker == if notifies then Some(speaker) else old(currentSpeaker)
      ensures notifications == old(notifications) +
        (if notifies && old(currentSpeaker) != Some(speaker) then [Some(speaker)] else [])
      ensures ssrcMap == old(ssrcMap) && buffers == old(buffers) && placeholderLabels == old(placeholderLabels)
      ensures jobs == old(jobs) && relabels == old(relabels)
    {
      if notifies {
        if currentSpeaker != Some(speaker) {
          currentSpeaker := Some(speaker);
          notifications := notifications + [Some(speaker)];
        }
      }
    }

    method ClearCurrentSpeaker(speaker: UserId)
      requires Valid()
      modifies this
      ensures Valid()
      ensures Snapshot() == ClearStep(old(Snapshot()), speaker)
      ensures relabels == old(relabels)
    {
      if notifies {
        if currentSpeaker == Some(speaker) {
          currentSpeaker := None;
          notifications := notifications + [None];
        }
      }
    }

    /** The stream's memoised placeholder label, minted as "Speaker <ssrc>" on first use. */
    method PlaceholderLabel(ssrc: Ssrc) returns (tag: string)
      requires Valid()
      modifies this
      ensures Valid()
      ensures tag == PlaceholderText(ssrc)
      ensures ssrc in old(placeholderLabels) ==> placeholderLabels == old(placeholderLabels)
      ensures ssrc !in old(placeholderLabels) ==> placeholderLabels == old(placeholderLabels)[ssrc := tag]
      ensures ssrcMap == old(ssrcMap) && buffers == old(buffers) && currentSpeaker == old(currentSpeaker)
      ensures notifications == old(notifications) && jobs == old(jobs) && relabels == old(relabels)
    {
      if ssrc in placeholderLabels {
        tag := placeholderLabels[ssrc];
      } else {
        tag := PlaceholderText(ssrc);
        placeholderLabels := placeholderLabels[ssrc := tag];
      }
    }

    method ResolveIdentity(ssrc: Ssrc, existing: Option<SpeakerIdentity>) returns (identity: SpeakerIdentity)
      requires Valid()
      modifies this, roster
      ensures Valid()
      ensures (identity, IdState()) == ResolveIdentitySpec(old(IdState()), channelId, ssrc, existing)
      ensures buffers == old(buffers) && currentSpeaker == old(currentSpeaker)
      ensures notifications == old(notifications) && jobs == old(jobs) && relabels == old(relabels)
    {
      if existing.Some? && existing.value.Known? {
        return existing.value;
      }
      var mapped := LookupUser(ssrc);
      if mapped.Some? {
        return Known(mapped.value);
      }
      ghost var st := IdState();
      var guess := roster.GuessSpeaker(channelId);
      assert (guess, roster.pending) == Guess(st.participants, st.pending, channelId);
      if guess.Some? {
        ssrcMap := ssrcMap[ssrc := guess.value];
        return Known(guess.value);
      }
      assert IdState() == st;
      if existing.Some? {
        return existing.value;
      }
      var tag := PlaceholderLabel(ssrc);
      identity := Placeholder(tag);
    }

    /** `dispatch_chunk`: skip empty chunks, publish a known speaker, note that they spoke, submit the job. */
    method DispatchChunk(identity: SpeakerIdentity, samples: seq<i16>, now: int)
      requires Valid()
      modifies this, roster
      ensures Valid()
      ensures var k := if samples == [] then 0 else 1;
        && jobs == old(jobs) + (if samples == [] then [] else [JobOf(identity, samples, now)])
        && currentSpeaker == SpeakerAfter(identity, k, old(currentSpeaker))
        && notifications == NotesAfter(identity, k, old(currentSpeaker), old(notifications))
        && roster.participants == ParticipantsAfter(identity, k, old(roster.participants), now)
        && roster.pending == PendingAfter(identity, k, old(roster.pending))
      ensures ssrcMap == old(ssrcMap) && buffers == old(buffers) && placeholderLabels == old(placeholderLabels)
      ensures relabels == old(relabels)
    {
      if samples == [] {
        return;
      }
      if identity.Known? {
        SetCurrentSpeaker(identity.userId);
      }
      var job := JobOf(identity, samples, now);
      if job.speakerId.Some? {
        assert job.speakerId.value == identity.userId;
        roster.NoteSpoke(job.speakerId.value, now);
        assert RemoveFirstN(old(roster.pending), identity.userId, 1) == RemoveFirst(old(roster.pending), identity.userId);
      }
      jobs := jobs + [job];
    }

    /** Dispatching `k + 1` chunks is dispatching `k` and then one more. */
    lemma AfterOneMore(identity: SpeakerIdentity, k: nat, current: Option<UserId>, notes: seq<Option<UserId>>,
                       participants: map<UserId, ParticipantRecord>, pending: seq<PendingJoin>, now: int)
      ensures SpeakerAfter(identity, k + 1, current) == SpeakerAfter(identity, 1, SpeakerAfter(identity, k, current))
      ensures NotesAfter(identity, k + 1, current, notes)
           == NotesAfter(identity, 1, SpeakerAfter(identity, k, current), NotesAfter(identity, k, current, notes))
      ensures ParticipantsAfter(identity, k + 1, participants, now)
           == ParticipantsAfter(identity, 1, ParticipantsAfter(identity, k, participants, now), now)
      ensures PendingAfter(identity, k + 1, pending) == PendingAfter(identity, 1, PendingAfter(identity, k, pending))
    {
      if identity.Known? {
        var u := identity.userId;
        assert RemoveFirstN(RemoveFirstN(pending, u, k), u, 1) == RemoveFirst(RemoveFirstN(pending, u, k), u);
        if k > 0 {
          SpokeTwice(participants, u, now);
        }
      }
    }

    /** The dispatch loop of `consume_samples`: every drained chunk, oldest first. */
    method DispatchAll(identity: SpeakerIdentity, chunks: seq<seq<i16>>, now: int)
      requires Valid()
      requires forall i :: 0 <= i < |chunks| ==> chunks[i] != []
      modifies this, roster
      ensures Valid()
      ensures jobs == old(jobs) + JobsOf(identity, chunks, now)
      ensures currentSpeaker == SpeakerAfter(identity, |chunks|, old(currentSpeaker))
      ensures notifications == NotesAfter(identity, |chunks|, old(currentSpeaker), old(notifications))
      ensures roster.participants == ParticipantsAfter(identity, |chunks|, old(roster.participants), now)
      ensures roster.pending == PendingAfter(identity, |chunks|, old(roster.pending))
      ensures ssrcMap == old(ssrcMap) && buffers == old(buffers) && placeholderLabels == old(placeholderLabels)
      ensures relabels == old(relabels)
    {
      for i := 0 to |chunks|
        invariant Valid()
        invariant ssrcMap == old(ssrcMap) && buffers == old(buffers)
        invariant placeholderLabels == old(placeholderLabels) && relabels == old(relabels)
        invariant jobs == old(jobs) + JobsOf(identity, chunks[..i], now)
        invariant currentSpeaker == SpeakerAfter(identity, i, old(currentSpeaker))
        invariant notifications == NotesAfter(identity, i, old(currentSpeaker), old(notifications))
        invariant roster.participants == ParticipantsAfter(identity, i, old(roster.participants), now)
        invariant roster.pending == PendingAfter(identity, i, old(roster.pending))
      {
        DispatchChunk(identity, chunks[i], now);
        AfterOneMore(identity, i, old(currentSpeaker), old(notifications), old(roster.participants), old(roster.pending), now);
        assert chunks[..i + 1] == chunks[..i] + [chunks[i]];
        assert JobsOf(identity, chunks[..i + 1], now) == JobsOf(identity, chunks[..i], now) + [JobOf(identity, chunks[i], now)];
      }
      assert chunks[..|chunks|] == chunks;
    }

    /**
     * `consume_samples`: append to the stream buffer, then drain and
     * dispatch every full chunk, oldest first.
     */
    method ConsumeSamples(ssrc: Ssrc, identity: SpeakerIdentity, samples: seq<i16>, now: int)
      requires Valid()
      requires identity.Known? ==> ssrc in ssrcMap
      modifies this, roster
      ensures Valid()
      ensures Snapshot() == ConsumeStep(old(Snapshot()), ssrc, identity, samples, now)
      ensures relabels == old(relabels)
    {
      if samples == [] {
        return;
      }
      var prior := if ssrc in buffers then buffers[ssrc].samples else [];
      var chunks, rest := DrainChunks(prior + samples, chunkSamples);
      buffers := buffers[ssrc := AudioBuffer(rest, identity, now)];
      forall i | 0 <= i < |chunks| ensures chunks[i] != [] {
        assert |chunks[i]| == chunkSamples;
      }
      DispatchAll(identity, chunks, now);
    }

    /** `push_samples`: resolve the stream's identity, then consume the samples under it. */
    method PushSamples(ssrc: Ssrc, samples: seq<i16>, now: int)
      requires Valid()
      modifies this, roster
      ensures Valid()
      ensures Snapshot() == PushStep(old(Snapshot()), ssrc, samples, now)
      ensures relabels == old(relabels)
    {
      var identity := ResolveIdentity(ssrc, None);
      ConsumeSamples(ssrc, identity, samples, now);
    }

    /** `flush_stream`: remove the stream buffer and dispatch what it held as one chunk. */
    method FlushStream(ssrc: Ssrc, now: int)
      requires Valid()
      modifies this, roster
      ensures Valid()
      ensures Snapshot() == FlushStreamStep(old(Snapshot()), ssrc, now)
      ensures relabels == old(relabels)
    {
      if ssrc in buffers {
        var entry := buffers[ssrc];
        buffers := buffers - {ssrc};
        if entry.samples != [] {
          var identity := ResolveIdentity(ssrc, Some(entry.speaker));
          DispatchChunk(identity, entry.samples, now);
        }
      }
    }

    /**
     * `flush_expired`: when the stream has been idle longer than the
     * silence threshold and holds samples, dispatch them as one chunk and
     * leave the entry in place, emptied.
     */
    method FlushExpired(ssrc: Ssrc, now: int)
      requires Valid()
      modifies this, roster
      ensures Valid()
      ensures Snapshot() == FlushExpiredStep(old(Snapshot()), ssrc, now)
      ensures relabels == old(relabels)
    {
      if ssrc in buffers {
        var entry := buffers[ssrc];
        var shouldFlush := now - entry.lastActivity > silenceFlush && entry.samples != [];
        if shouldFlush {
          buffers := buffers[ssrc := entry.(samples := [])];
          var identity := ResolveIdentity(ssrc, Some(entry.speaker));
          DispatchChunk(identity, entry.samples, now);
        }
      }
    }

    /**
     * `on_disconnect`: collect the streams mapped to the user, then for
     * each (in the map's iteration order, returned as `order`) flush it,
     * forget its mapping and clear the published speaker.
     */
    method OnDisconnect(user: UserId, now: int) returns (ghost order: seq<Ssrc>)
      requires Valid()
      modifies this, roster
      ensures Valid()
      ensures Distinct(order) && Elems(order) == MappedTo(old(ssrcMap), user)
      ensures Snapshot() == DisconnectSpec(old(Snapshot()), order, user, now)
      ensures relabels == old(relabels)
    {
      var ssrcs := CollectMapped(ssrcMap, user);
      order := ssrcs;
      ghost var v0 := Snapshot();
      for i := 0 to |ssrcs|
        invariant Valid()
        invariant Snapshot() == DisconnectSpec(v0, ssrcs[..i], user, now)
        invariant relabels == old(relabels)
      {
        DisconnectStream(ssrcs[i], user, now);
        DisconnectSpecSnoc(v0, ssrcs[..i], ssrcs[i], user, now);
        assert ssrcs[..i + 1] == ssrcs[..i] + [ssrcs[i]];
      }
      assert ssrcs[..|ssrcs|] == ssrcs;
    }

    /** The body of `on_disconnect`'s loop. */
    method DisconnectStream(ssrc: Ssrc, user: UserId, now: int)
      requires Valid()
      modifies this, roster
      ensures Valid()
      ensures Snapshot() == DisconnectStep(old(Snapshot()), ssrc, user, now)
      ensures relabels == old(relabels)
    {
      FlushStream(ssrc, now);
      ssrcMap := ssrcMap - {ssrc};
      ClearCurrentSpeaker(user);
    }

    /**
     * `on_voice_tick`: push the decoded audio of every speaking stream,
     * then give every silent stream a silence flush. Both collections are
     * taken in their iteration order.
     */
    method OnVoiceTick(speaking: seq<(Ssrc, Option<seq<i16>>)>, silent: seq<Ssrc>, now: int)
      requires Valid()
      modifies this, roster
      ensures Valid()
      ensures Snapshot() == TickSpec(old(Snapshot()), speaking, silent, now)
      ensures relabels == old(relabels)
    {
      ghost var v0 := Snapshot();
      for i := 0 to |speaking|
        invariant Valid()
        invariant Snapshot() == TickSpeakingSpec(v0, speaking[..i], now)
        invariant relabels == old(relabels)
      {
        assert speaking[..i + 1][..i] == speaking[..i];
        var (ssrc, decoded) := speaking[i];
        if decoded.Some? {
          PushSamples(ssrc, decoded.value, now);
        }
      }
      assert speaking[..|speaking|] == speaking;
      ghost var v1 := Snapshot();
      for j := 0 to |silent|
        invariant Valid()
        invariant Snapshot() == TickSilentSpec(v1, silent[..j], now)
        invariant relabels == old(relabels)
      {
        assert silent[..j + 1][..j] == silent[..j];
        FlushExpired(silent[j], now);
      }
      assert silent[..|silent|] == silent;
    }

    /** `relabel_placeholder_entries`: hand (label, user, display name) to the caption store. */
    method RelabelPlaceholderEntries(tag: string, user: UserId)
      modifies this
      ensures relabels == old(relabels) + [RelabelRequest(tag, user, resolveName(user))]
      ensures ssrcMap == old(ssrcMap) && buffers == old(buffers) && placeholderLabels == old(placeholderLabels)
      ensures currentSpeaker == old(currentSpeaker) && notifications == old(notifications) && jobs == old(jobs)
    {
      relabels := relabels + [RelabelRequest(tag, user, resolveName(user))];
    }

    /**
     * `on_speaking`: record an announced mapping (retiring the stream's
     * placeholder with exactly one relabel request), then publish the
     * speaker on mic-on or clear it on mic-off. Mic-off does not flush.
     */
    method OnSpeaking(ssrc: Ssrc, user: Option<UserId>, microphone: bool)
      requires Valid()
      modifies this
      ensures Valid()
      ensures ssrcMap == if user.Some? then old(ssrcMap)[ssrc := user.value] else old(ssrcMap)
      ensures user.Some? && ssrc in old(placeholderLabels) ==>
        && placeholderLabels == old(placeholderLabels) - {ssrc}
        && relabels == old(relabels) + [RelabelRequest(old(placeholderLabels)[ssrc], user.value, resolveName(user.value))]
      ensures !(user.Some? && ssrc in old(placeholderLabels)) ==>
        placeholderLabels == old(placeholderLabels) && relabels == old(relabels)
      ensures var speaking := if user.Some? then user else old(LookupUser(ssrc));
        && (speaking.None? ==> currentSpeaker == old(currentSpeaker) && notifications == old(notifications))
        && (speaking.Some? && microphone ==>
              && currentSpeaker == (if notifies then speaking else old(currentSpeaker))
              && notifications == old(notifications) +
                   (if notifies && old(currentSpeaker) != speaking then [speaking] else []))
        && (speaking.Some? && !microphone ==>
              && currentSpeaker == (if old(currentSpeaker) == speaking then None else old(currentSpeaker))
              && notifications == old(notifications) +
                   (if notifies && old(currentSpeaker) == speaking then [None] else []))
      ensures buffers == old(buffers) && jobs == old(jobs)
    {
      if user.Some? {
        ssrcMap := ssrcMap[ssrc := user.value];
        if ssrc in placeholderLabels {
          var tag := placeholderLabels[ssrc];
          placeholderLabels := placeholderLabels - {ssrc};
          RelabelPlaceholderEntries(tag, user.value);
        }
      }
      var speaking := ResolveSpeakingUser(ssrc, user);
      if microphone {
        if speaking.Some? {
          SetCurrentSpeaker(speaking.value);
        }
      } else if speaking.Some? {
        ClearCurrentSpeaker(speaking.value);
      }
    }
  }
}
