/**
 * The older audio aggregator. Audio from a stream whose user has not been
 * announced is parked in `pending_audio`; when the stream is announced the
 * parked audio is replayed through the chunker under that user. Every job
 * names a user: there are no placeholders and no roster. A mic-off event
 * flushes the stream, and a silence flush fires after one second.
 *
 * Time is an explicit integer clock (milliseconds). Submitting a job and
 * the speaker notifier are appended to ghost logs.
 */
module LegacyVoice {
  import opened Wrappers
  import opened Chunking
  import Voice

  type i16 = Voice.i16
  type Ssrc = Voice.Ssrc
  type UserId = nat
  type ChunkSize = Voice.ChunkSize

  /** `last_activity.elapsed().as_secs_f32() > 1.0`, on a millisecond clock. */
  const IdleFlushMillis: nat := 1000

  datatype AudioBuffer = AudioBuffer(samples: seq<i16>, speaker: UserId, lastActivity: int)

  datatype TranscriptionJob = TranscriptionJob(
    channelId: nat,
    guildId: nat,
    speakerId: UserId,
    speakerName: string,
    pcm: seq<i16>,
    sampleRate: nat,
    startedAt: int)

  function Pcms(js: seq<TranscriptionJob>): (r: seq<seq<i16>>)
    ensures |r| == |js| && forall i :: 0 <= i < |js| ==> r[i] == js[i].pcm
  {
    seq(|js|, i requires 0 <= i < |js| => js[i].pcm)
  }

  lemma PcmsAppend(a: seq<TranscriptionJob>, b: seq<TranscriptionJob>)
    ensures Pcms(a + b) == Pcms(a) + Pcms(b)
  {
    assert forall i :: 0 <= i < |a + b| ==> Pcms(a + b)[i] == (Pcms(a) + Pcms(b))[i];
  }

  /** Everything the handlers read or write. */
  datatype View = View(
    ssrcMap: map<Ssrc, UserId>,
    buffers: map<Ssrc, AudioBuffer>,
    pendingAudio: map<Ssrc, seq<i16>>,
    current: Option<UserId>,
    notes: seq<Option<UserId>>,
    jobs: seq<TranscriptionJob>)
  {
    function Buffered(ssrc: Ssrc): seq<i16> {
      if ssrc in buffers then buffers[ssrc].samples else []
    }

    function Pending(ssrc: Ssrc): seq<i16> {
      if ssrc in pendingAudio then pendingAudio[ssrc] else []
    }
  }

  /**
   * Parked audio belongs only to streams whose user is still unknown, and
   * a parked entry is never empty.
   */
  predicate PendingInvariant(v: View) {
    forall s :: s in v.pendingAudio ==> s !in v.ssrcMap && v.pendingAudio[s] != []
  }

  /** The non-empty buffers of `order`, in that order. */
  function Flushed(order: seq<Ssrc>, buffers: map<Ssrc, AudioBuffer>): seq<seq<i16>> {
    if order == [] then []
    else
      var s := order[|order| - 1];
      Flushed(order[..|order| - 1], buffers) + (if s in buffers && buffers[s].samples != [] then [buffers[s].samples] else [])
  }

  class AudioAggregator {
    const guildId: nat
    const channelId: nat
    const chunkSamples: ChunkSize
    const sampleRate: nat
    /** Whether a speaker-update sender was configured. */
    const notifies: bool
    /** `resolve_user_name`. */
    const resolveName: UserId -> string

    var ssrcMap: map<Ssrc, UserId>
    var buffers: map<Ssrc, AudioBuffer>
    var pendingAudio: map<Ssrc, seq<i16>>
    var currentSpeaker: Option<UserId>

    ghost var notifications: seq<Option<UserId>>
    ghost var jobs: seq<TranscriptionJob>

    ghost function Snapshot(): View
      reads this
    {
      View(ssrcMap, buffers, pendingAudio, currentSpeaker, notifications, jobs)
    }

    ghost predicate Valid()
      reads this
    {
      PendingInvariant(Snapshot()) && (!notifies ==> currentSpeaker == None)
    }

    constructor (guildId: nat, channelId: nat, chunkSamples: ChunkSize, sampleRate: nat,
                 notifies: bool, resolveName: UserId -> string)
      ensures Valid()
      ensures this.guildId == guildId && this.channelId == channelId && this.chunkSamples == chunkSamples
      ensures this.sampleRate == sampleRate && this.notifies == notifies && this.resolveName == resolveName
      ensures Snapshot() == View(map[], map[], map[], None, [], [])
    {
      this.guildId := guildId;
      this.channelId := channelId;
      this.chunkSamples := chunkSamples;
      this.sampleRate := sampleRate;
      this.notifies := notifies;
      this.resolveName := resolveName;
      ssrcMap := map[];
      buffers := map[];
      pendingAudio := map[];
      currentSpeaker := None;
      notifications := [];
      jobs := [];
    }

    // -------------------------------------------------------------------
    // Specification of the handlers
    // -------------------------------------------------------------------

    function JobOf(speaker: UserId, pcm: seq<i16>, now: int): TranscriptionJob {
      TranscriptionJob(channelId, guildId, speaker, resolveName(speaker), pcm, sampleRate, now)
    }

    function JobsOf(speaker: UserId, chunks: seq<seq<i16>>, now: int): (r: seq<TranscriptionJob>)
      ensures Pcms(r) == chunks
      ensures forall i :: 0 <= i < |r| ==> r[i].speakerId == speaker
    {
      seq(|chunks|, i requires 0 <= i < |chunks| => JobOf(speaker, chunks[i], now))
    }

    /** The published speaker after `k` non-empty chunks of `speaker`. */
    function SpeakerAfter(speaker: UserId, k: nat, current: Option<UserId>): Option<UserId> {
      if k > 0 && notifies then Some(speaker) else current
    }

    function NotesAfter(speaker: UserId, k: nat, current: Option<UserId>, notes: seq<Option<UserId>>): seq<Option<UserId>> {
      if k > 0 && notifies && current != Some(speaker) then notes + [Some(speaker)] else notes
    }

    /** `dispatch_chunk`. */
    function DispatchStep(v: View, speaker: UserId, samples: seq<i16>, now: int): View {
      if samples == [] then v
      else v.(current := SpeakerAfter(speaker, 1, v.current),
              notes := NotesAfter(speaker, 1, v.current, v.notes),
              jobs := v.jobs + [JobOf(speaker, samples, now)])
    }

    /** `consume_samples`. */
    function ConsumeStep(v: View, ssrc: Ssrc, user: UserId, samples: seq<i16>, now: int): View {
      if samples == [] then v
      else
        var all := v.Buffered(ssrc) + samples;
        var chunks := Chunks(all, chunkSamples);
        v.(buffers := v.buffers[ssrc := AudioBuffer(Residue(all, chunkSamples), user, now)],
           current := SpeakerAfter(user, |chunks|, v.current),
           notes := NotesAfter(user, |chunks|, v.current, v.notes),
           jobs := v.jobs + JobsOf(user, chunks, now))
    }

    /** `buffer_pending`. */
    function BufferPendingStep(v: View, ssrc: Ssrc, samples: seq<i16>): View {
      if samples == [] then v
      else v.(pendingAudio := v.pendingAudio[ssrc := v.Pending(ssrc) + samples])
    }

    /** `push_samples`: mapped streams are consumed, unmapped ones parked. */
    function PushStep(v: View, ssrc: Ssrc, samples: seq<i16>, now: int): View {
      if ssrc in v.ssrcMap then ConsumeStep(v, ssrc, v.ssrcMap[ssrc], samples, now)
      else BufferPendingStep(v, ssrc, samples)
    }

    /** `promote_pending_audio`. */
    function PromoteStep(v: View, ssrc: Ssrc, user: UserId, now: int): View {
      if ssrc in v.pendingAudio then
        var parked := v.pendingAudio[ssrc];
        var w := v.(pendingAudio := v.pendingAudio - {ssrc});
        if parked == [] then w else ConsumeStep(w, ssrc, user, parked, now)
      else v
    }

    /** `flush_stream`. */
    function FlushStreamStep(v: View, ssrc: Ssrc, now: int): View {
      if ssrc in v.buffers && v.buffers[ssrc].samples != [] then
        var entry := v.buffers[ssrc];
        DispatchStep(v.(buffers := v.buffers - {ssrc}), entry.speaker, entry.samples, now)
      else v.(buffers := v.buffers - {ssrc})
    }

    predicate Idle(entry: AudioBuffer, now: int) {
      now - entry.lastActivity > IdleFlushMillis && entry.samples != []
    }

    /** `flush_expired`. */
    function FlushExpiredStep(v: View, ssrc: Ssrc, now: int): View {
      if ssrc in v.buffers && Idle(v.buffers[ssrc], now) then
        var entry := v.buffers[ssrc];
        DispatchStep(v.(buffers := v.buffers[ssrc := entry.(samples := [])]), entry.speaker, entry.samples, now)
      else v
    }

    function SetStep(v: View, user: UserId): View {
      if notifies && v.current != Some(user) then v.(current := Some(user), notes := v.notes + [Some(user)]) else v
    }

    function ClearStep(v: View, user: UserId): View {
      if notifies && v.current == Some(user) then v.(current := None, notes := v.notes + [None]) else v
    }

    /** `on_speaking`: map and promote, then publish on mic-on, or flush and clear on mic-off. */
    function SpeakingStep(v: View, ssrc: Ssrc, user: Option<UserId>, microphone: bool, now: int): View {
      var v1 := if user.Some? then PromoteStep(v.(ssrcMap := v.ssrcMap[ssrc := user.value]), ssrc, user.value, now) else v;
      var speaking := if user.Some? then user else if ssrc in v1.ssrcMap then Some(v1.ssrcMap[ssrc]) else None;
      if microphone then
        if speaking.Some? then SetStep(v1, speaking.value) else v1
      else
        var v2 := FlushStreamStep(v1, ssrc, now);
        if speaking.Some? then ClearStep(v2, speaking.value) else v2
    }

    function DisconnectStep(v: View, ssrc: Ssrc, user: UserId, now: int): View {
      var f := FlushStreamStep(v, ssrc, now);
      ClearStep(f.(ssrcMap := f.ssrcMap - {ssrc}), user)
    }

    function DisconnectSpec(v: View, order: seq<Ssrc>, user: UserId, now: int): View
      decreases |order|
    {
      if order == [] then v
      else DisconnectStep(DisconnectSpec(v, order[..|order| - 1], user, now), order[|order| - 1], user, now)
    }

    function TickSpeakingSpec(v: View, speaking: seq<(Ssrc, Option<seq<i16>>)>, now: int): View
      decreases |speaking|
    {
      if speaking == [] then v
      else
        var v' := TickSpeakingSpec(v, speaking[..|speaking| - 1], now);
        var (ssrc, decoded) := speaking[|speaking| - 1];
        if decoded.Some? then PushStep(v', ssrc, decoded.value, now) else v'
    }

    function TickSilentSpec(v: View, silent: seq<Ssrc>, now: int): View
      decreases |silent|
    {
      if silent == [] then v
      else FlushExpiredStep(TickSilentSpec(v, silent[..|silent| - 1], now), silent[|silent| - 1], now)
    }

    function TickSpec(v: View, speaking: seq<(Ssrc, Option<seq<i16>>)>, silent: seq<Ssrc>, now: int): View {
      TickSilentSpec(TickSpeakingSpec(v, speaking, now), silent, now)
    }

    // -------------------------------------------------------------------
    // Properties
    // -------------------------------------------------------------------

    /** A non-empty chunk always publishes its user (when a notifier exists); an empty one changes nothing. */
    lemma DispatchPublishesSpeaker(v: View, speaker: UserId, samples: seq<i16>, now: int)
      ensures var r := DispatchStep(v, speaker, samples, now);
        && (samples == [] ==> r == v)
        && (samples != [] ==> r.jobs == v.jobs + [JobOf(speaker, samples, now)] && r.buffers == v.buffers)
        && (samples != [] && notifies ==> r.current == Some(speaker))
        && (!notifies ==> r.current == v.current && r.notes == v.notes)
    {
    }

    /** The chunker conserves audio, cuts exact chunks and keeps a short residue. */
    lemma ConsumeConserves(v: View, ssrc: Ssrc, user: UserId, samples: seq<i16>, now: int)
      requires samples != []
      ensures var r := ConsumeStep(v, ssrc, user, samples, now);
        && v.jobs <= r.jobs
        && ssrc in r.buffers && r.buffers[ssrc].speaker == user
        && (forall i :: |v.jobs| <= i < |r.jobs| ==> |r.jobs[i].pcm| == chunkSamples && r.jobs[i].speakerId == user)
        && |r.buffers[ssrc].samples| < chunkSamples
        && Concat(Pcms(r.jobs[|v.jobs|..])) + r.buffers[ssrc].samples == v.Buffered(ssrc) + samples
        && r.ssrcMap == v.ssrcMap && r.pendingAudio == v.pendingAudio
        && (forall s :: s != ssrc ==> (s in r.buffers <==> s in v.buffers) && (s in r.buffers ==> r.buffers[s] == v.buffers[s]))
    {
      var all := v.Buffered(ssrc) + samples;
      var r := ConsumeStep(v, ssrc, user, samples, now);
      ChunksConserve(all, chunkSamples);
      ChunkSizes(all, chunkSamples);
      assert r.jobs[|v.jobs|..] == JobsOf(user, Chunks(all, chunkSamples), now);
    }

    /** Audio of an unannounced stream is parked, in arrival order; nothing is buffered or dispatched. */
    lemma PushUnknownIsParked(v: View, ssrc: Ssrc, samples: seq<i16>, now: int)
      requires ssrc !in v.ssrcMap
      ensures var r := PushStep(v, ssrc, samples, now);
        && r.buffers == v.buffers && r.jobs == v.jobs && r.ssrcMap == v.ssrcMap
        && r.current == v.current && r.notes == v.notes
        && r.Pending(ssrc) == v.Pending(ssrc) + samples
        && (forall s :: s != ssrc ==> r.Pending(s) == v.Pending(s))
    {
    }

    /**
     * Promotion loses no parked sample and keeps their order: the chunks
     * submitted, followed by what stays buffered, are the old buffer
     * followed by the parked audio, all attributed to the announced user.
     */
    lemma PromoteConserves(v: View, ssrc: Ssrc, user: UserId, now: int)
      ensures var r := PromoteStep(v, ssrc, user, now);
        && ssrc !in r.pendingAudio
        && (forall s :: s != ssrc ==> r.Pending(s) == v.Pending(s))
        && v.jobs <= r.jobs
        && (forall i :: |v.jobs| <= i < |r.jobs| ==> r.jobs[i].speakerId == user)
        && Concat(Pcms(r.jobs[|v.jobs|..])) + r.Buffered(ssrc) == v.Buffered(ssrc) + v.Pending(ssrc)
    {
      var r := PromoteStep(v, ssrc, user, now);
      if ssrc in v.pendingAudio && v.pendingAudio[ssrc] != [] {
        var w := v.(pendingAudio := v.pendingAudio - {ssrc});
        ConsumeConserves(w, ssrc, user, v.pendingAudio[ssrc], now);
      } else {
        assert r.jobs[|v.jobs|..] == [];
      }
    }

    /**
     * A mic-off event flushes the stream before it clears the speaker:
     * afterwards the stream has no buffer, and the announced (or mapped)
     * user is no longer the published speaker, even when the flushed
     * audio was theirs.
     */
    lemma MicOffFlushesThenClears(v: View, ssrc: Ssrc, user: Option<UserId>, now: int)
      ensures var r := SpeakingStep(v, ssrc, user, false, now);
        var speaking := if user.Some? then user else if ssrc in v.ssrcMap then Some(v.ssrcMap[ssrc]) else None;
        && ssrc !in r.buffers
        && (notifies && speaking.Some? ==> r.current != speaking)
        && (user.None? ==> Pcms(r.jobs) == Pcms(v.jobs) + (if v.Buffered(ssrc) != [] then [v.Buffered(ssrc)] else []))
    {
      var r := SpeakingStep(v, ssrc, user, false, now);
      if user.None? && v.Buffered(ssrc) != [] {
        var entry := v.buffers[ssrc];
        PcmsAppend(v.jobs, [JobOf(entry.speaker, entry.samples, now)]);
      }
    }

    /** Once announced, a stream's parked audio is gone from the parking table. */
    lemma AnnouncePromotes(v: View, ssrc: Ssrc, user: UserId, microphone: bool, now: int)
      ensures var r := SpeakingStep(v, ssrc, Some(user), microphone, now);
        ssrc !in r.pendingAudio && ssrc in r.ssrcMap && r.ssrcMap[ssrc] == user
    {
      var v1 := PromoteStep(v.(ssrcMap := v.ssrcMap[ssrc := user]), ssrc, user, now);
      PromoteEmptiesParking(v.(ssrcMap := v.ssrcMap[ssrc := user]), ssrc, user, now);
      if !microphone {
        FlushStreamSubmitsBuffer(v1, ssrc, now);
      }
    }

    /** Promotion leaves the stream with nothing parked and does not touch the map. */
    lemma PromoteEmptiesParking(v: View, ssrc: Ssrc, user: UserId, now: int)
      ensures var r := PromoteStep(v, ssrc, user, now);
        r.pendingAudio == v.pendingAudio - {ssrc} && r.ssrcMap == v.ssrcMap
    {
    }

    /** `flush_expired` on an idle stream submits its samples and keeps the emptied buffer; otherwise nothing changes. */
    lemma FlushExpiredSubmitsIdle(v: View, ssrc: Ssrc, now: int)
      ensures var r := FlushExpiredStep(v, ssrc, now);
        if ssrc in v.buffers && Idle(v.buffers[ssrc], now) then
          && r.buffers == v.buffers[ssrc := v.buffers[ssrc].(samples := [])]
          && r.jobs == v.jobs + [JobOf(v.buffers[ssrc].speaker, v.buffers[ssrc].samples, now)]
        else r == v
    {
    }

    lemma FlushExpiredIdempotent(v: View, ssrc: Ssrc, now: int)
      ensures FlushExpiredStep(FlushExpiredStep(v, ssrc, now), ssrc, now) == FlushExpiredStep(v, ssrc, now)
    {
      FlushExpiredSubmitsIdle(v, ssrc, now);
    }

    lemma FlushStreamSubmitsBuffer(v: View, ssrc: Ssrc, now: int)
      ensures var r := FlushStreamStep(v, ssrc, now);
        && r.buffers == v.buffers - {ssrc}
        && r.ssrcMap == v.ssrcMap && r.pendingAudio == v.pendingAudio
        && Pcms(r.jobs) == Pcms(v.jobs) + (if v.Buffered(ssrc) != [] then [v.Buffered(ssrc)] else [])
    {
      if v.Buffered(ssrc) != [] {
        var entry := v.buffers[ssrc];
        PcmsAppend(v.jobs, [JobOf(entry.speaker, entry.samples, now)]);
      }
    }

    lemma DisconnectSpecSnoc(v: View, order: seq<Ssrc>, s: Ssrc, user: UserId, now: int)
      ensures DisconnectSpec(v, order + [s], user, now) == DisconnectStep(DisconnectSpec(v, order, user, now), s, user, now)
    {
      assert (order + [s])[..|order|] == order;
    }

    lemma DisconnectStepForgets(w: View, s: Ssrc, user: UserId, now: int)
      ensures var r := DisconnectStep(w, s, user, now);
        && r.ssrcMap == w.ssrcMap - {s}
        && r.buffers == w.buffers - {s}
        && r.pendingAudio == w.pendingAudio
        && Pcms(r.jobs) == Pcms(w.jobs) + (if w.Buffered(s) != [] then [w.Buffered(s)] else [])
        && (notifies ==> r.current != Some(user))
    {
      FlushStreamSubmitsBuffer(w, s, now);
    }

    /** The stream tables after `on_disconnect`: the user's streams are unmapped and unbuffered, parking is untouched. */
    lemma {:induction false} DisconnectDropsStreams(v: View, order: seq<Ssrc>, user: UserId, now: int)
      ensures var r := DisconnectSpec(v, order, user, now);
        && r.ssrcMap == v.ssrcMap - Voice.Elems(order)
        && r.buffers == v.buffers - Voice.Elems(order)
        && r.pendingAudio == v.pendingAudio
      decreases |order|
    {
      if order != [] {
        var p := order[..|order| - 1];
        var s := order[|order| - 1];
        DisconnectDropsStreams(v, p, user, now);
        var w := DisconnectSpec(v, p, user, now);
        DisconnectStepForgets(w, s, user, now);
        assert Voice.Elems(order) == Voice.Elems(p) + {s};
        Voice.MinusSnoc(v.ssrcMap, Voice.Elems(p), s);
        Voice.MinusSnoc(v.buffers, Voice.Elems(p), s);
      }
    }

    /** The jobs of `on_disconnect`: each buffered stream submitted once, in visiting order. */
    lemma {:induction false} DisconnectSubmitsBuffered(v: View, order: seq<Ssrc>, user: UserId, now: int)
      requires Voice.Distinct(order)
      ensures var r := DisconnectSpec(v, order, user, now);
        && Pcms(r.jobs) == Pcms(v.jobs) + Flushed(order, v.buffers)
        && (notifies && order != [] ==> r.current != Some(user))
      decreases |order|
    {
      if order != [] {
        var p := order[..|order| - 1];
        var s := order[|order| - 1];
        assert forall x :: x in p ==> x in order;
        DisconnectSubmitsBuffered(v, p, user, now);
        DisconnectDropsStreams(v, p, user, now);
        var w := DisconnectSpec(v, p, user, now);
        assert s !in Voice.Elems(p);
        DisconnectStepForgets(w, s, user, now);
        assert w.Buffered(s) == v.Buffered(s);
      }
    }

    /**
     * `on_disconnect` flushes and unmaps exactly the user's streams: their
     * mappings and buffers are gone, their buffered audio was submitted,
     * everything else is kept.
     */
    lemma DisconnectForgetsUser(v: View, order: seq<Ssrc>, user: UserId, now: int)
      requires Voice.Distinct(order)
      ensures var r := DisconnectSpec(v, order, user, now);
        && r.ssrcMap == v.ssrcMap - Voice.Elems(order)
        && r.buffers == v.buffers - Voice.Elems(order)
        && r.pendingAudio == v.pendingAudio
        && Pcms(r.jobs) == Pcms(v.jobs) + Flushed(order, v.buffers)
        && (notifies && order != [] ==> r.current != Some(user))
    {
      DisconnectDropsStreams(v, order, user, now);
      DisconnectSubmitsBuffered(v, order, user, now);
    }

    /** Every handler step keeps parked audio confined to unannounced streams. */
    lemma PushKeepsInvariant(v: View, ssrc: Ssrc, samples: seq<i16>, now: int)
      requires PendingInvariant(v)
      ensures PendingInvariant(PushStep(v, ssrc, samples, now))
    {
    }

    lemma SpeakingKeepsInvariant(v: View, ssrc: Ssrc, user: Option<UserId>, microphone: bool, now: int)
      requires PendingInvariant(v)
      ensures PendingInvariant(SpeakingStep(v, ssrc, user, microphone, now))
    {
      var v1 := v;
      if user.Some? {
        var w := v.(ssrcMap := v.ssrcMap[ssrc := user.value]);
        PromoteEmptiesParking(w, ssrc, user.value, now);
        v1 := PromoteStep(w, ssrc, user.value, now);
      }
      assert PendingInvariant(v1);
      if !microphone {
        FlushStreamSubmitsBuffer(v1, ssrc, now);
      }
    }

    lemma FlushKeepsInvariant(v: View, ssrc: Ssrc, user: UserId, now: int)
      requires PendingInvariant(v)
      ensures PendingInvariant(FlushExpiredStep(v, ssrc, now))
      ensures PendingInvariant(DisconnectStep(v, ssrc, user, now))
    {
    }

    // -------------------------------------------------------------------
    // The handlers
    // -------------------------------------------------------------------

    function LookupUser(ssrc: Ssrc): (r: Option<UserId>)
      reads this
      ensures r.Some? <==> ssrc in ssrcMap
      ensures r.Some? ==> r.value == ssrcMap[ssrc]
    {
      if ssrc in ssrcMap then Some(ssrcMap[ssrc]) else None
    }

    method SetCurrentSpeaker(speaker: UserId)
      requires Valid()
      modifies this
      ensures Valid()
      ensures Snapshot() == SetStep(old(Snapshot()), speaker)
    {
      if notifies {
        if currentSpeaker != Some(speaker) {
          currentSpeaker := Some(speaker);
          notifications := notifications + [Some(speaker)];
        }
      }
    }

    method ClearCurrentSpeaker(speaker: UserId)
      requires Valid()
      modifies this
      ensures Valid()
      ensures Snapshot() == ClearStep(old(Snapshot()), speaker)
    {
      if notifies {
        if currentSpeaker == Some(speaker) {
          currentSpeaker := None;
          notifications := notifications + [None];
        }
      }
    }

    /** `dispatch_chunk`: skip empty chunks; otherwise publish the speaker and submit the job. */
    method DispatchChunk(speaker: UserId, samples: seq<i16>, now: int)
      requires Valid()
      modifies this
      ensures Valid()
      ensures Snapshot() == DispatchStep(old(Snapshot()), speaker, samples, now)
    {
      if samples == [] {
        return;
      }
      SetCurrentSpeaker(speaker);
      jobs := jobs + [JobOf(speaker, samples, now)];
    }

    /** The dispatch loop of `consume_samples`. */
    method DispatchAll(speaker: UserId, chunks: seq<seq<i16>>, now: int)
      requires Valid()
      requires forall i :: 0 <= i < |chunks| ==> chunks[i] != []
      modifies this
      ensures Valid()
      ensures jobs == old(jobs) + JobsOf(speaker, chunks, now)
      ensures currentSpeaker == SpeakerAfter(speaker, |chunks|, old(currentSpeaker))
      ensures notifications == NotesAfter(speaker, |chunks|, old(currentSpeaker), old(notifications))
      ensures ssrcMap == old(ssrcMap) && buffers == old(buffers) && pendingAudio == old(pendingAudio)
    {
      for i := 0 to |chunks|
        invariant Valid()
        invariant ssrcMap == old(ssrcMap) && buffers == old(buffers) && pendingAudio == old(pendingAudio)
        invariant jobs == old(jobs) + JobsOf(speaker, chunks[..i], now)
        invariant currentSpeaker == SpeakerAfter(speaker, i, old(currentSpeaker))
        invariant notifications == NotesAfter(speaker, i, old(currentSpeaker), old(notifications))
      {
        DispatchChunk(speaker, chunks[i], now);
        assert chunks[..i + 1] == chunks[..i] + [chunks[i]];
        assert JobsOf(speaker, chunks[..i + 1], now) == JobsOf(speaker, chunks[..i], now) + [JobOf(speaker, chunks[i], now)];
      }
      assert chunks[..|chunks|] == chunks;
    }

    /** `consume_samples`: append, drain full chunks, dispatch them in order. */
    method ConsumeSamples(ssrc: Ssrc, user: UserId, samples: seq<i16>, now: int)
      requires Valid()
      modifies this
      ensures Valid()
      ensures Snapshot() == ConsumeStep(old(Snapshot()), ssrc, user, samples, now)
    {
      if samples == [] {
        return;
      }
      var prior := if ssrc in buffers then buffers[ssrc].samples else [];
      var chunks, rest := DrainChunks(prior + samples, chunkSamples);
      buffers := buffers[ssrc := AudioBuffer(rest, user, now)];
      forall i | 0 <= i < |chunks| ensures chunks[i] != [] {
        assert |chunks[i]| == chunkSamples;
      }
      DispatchAll(user, chunks, now);
    }

    /** `buffer_pending`: park non-empty audio of an unannounced stream. */
    method BufferPending(ssrc: Ssrc, samples: seq<i16>)
      requires Valid()
      requires ssrc !in ssrcMap
      modifies this
      ensures Valid()
      ensures Snapshot() == BufferPendingStep(old(Snapshot()), ssrc, samples)
    {
      if samples == [] {
        return;
      }
      var parked := if ssrc in pendingAudio then pendingAudio[ssrc] else [];
      pendingAudio := pendingAudio[ssrc := parked + samples];
    }

    method PushSamples(ssrc: Ssrc, samples: seq<i16>, now: int)
      requires Valid()
      modifies this
      ensures Valid()
      ensures Snapshot() == PushStep(old(Snapshot()), ssrc, samples, now)
    {
      var user := LookupUser(ssrc);
      if user.Some? {
        ConsumeSamples(ssrc, user.value, samples, now);
      } else {
        BufferPending(ssrc, samples);
      }
    }

    /** `promote_pending_audio`: replay a stream's parked audio under its announced user. */
    method PromotePendingAudio(ssrc: Ssrc, user: UserId, now: int)
      requires PendingInvariant(Snapshot().(pendingAudio := pendingAudio - {ssrc}))
      requires !notifies ==> currentSpeaker == None
      modifies this
      ensures Valid()
      ensures Snapshot() == PromoteStep(old(Snapshot()), ssrc, user, now)
    {
      if ssrc in pendingAudio {
        var parked := pendingAudio[ssrc];
        pendingAudio := pendingAudio - {ssrc};
        if parked == [] {
          return;
        }
        ConsumeSamples(ssrc, user, parked, now);
      } else {
        assert pendingAudio - {ssrc} == pendingAudio;
      }
    }

    method FlushStream(ssrc: Ssrc, now: int)
      requires Valid()
      modifies this
      ensures Valid()
      ensures Snapshot() == FlushStreamStep(old(Snapshot()), ssrc, now)
    {
      if ssrc in buffers {
        var entry := buffers[ssrc];
        buffers := buffers - {ssrc};
        if entry.samples != [] {
          DispatchChunk(entry.speaker, entry.samples, now);
        }
      }
    }

    method FlushExpired(ssrc: Ssrc, now: int)
      requires Valid()
      modifies this
      ensures Valid()
      ensures Snapshot() == FlushExpiredStep(old(Snapshot()), ssrc, now)
    {
      if ssrc in buffers {
        var entry := buffers[ssrc];
        var shouldFlush := now - entry.lastActivity > IdleFlushMillis && entry.samples != [];
        if shouldFlush {
          buffers := buffers[ssrc := entry.(samples := [])];
          DispatchChunk(entry.speaker, entry.samples, now);
        }
      }
    }

    /**
     * `on_speaking`: an announced user maps the stream and promotes its
     * parked audio; then mic-on publishes the speaker, and mic-off flushes
     * the stream and clears the speaker.
     */
    method OnSpeaking(ssrc: Ssrc, user: Option<UserId>, microphone: bool, now: int)
      requires Valid()
      modifies this
      ensures Valid()
      ensures Snapshot() == SpeakingStep(old(Snapshot()), ssrc, user, microphone, now)
    {
      if user.Some? {
        ssrcMap := ssrcMap[ssrc := user.value];
        PromotePendingAudio(ssrc, user.value, now);
      }
      var speaking := if user.Some? then user else LookupUser(ssrc);
      if microphone {
        if speaking.Some? {
          SetCurrentSpeaker(speaking.value);
        }
      } else {
        FlushStream(ssrc, now);
        if speaking.Some? {
          ClearCurrentSpeaker(speaking.value);
        }
      }
    }

    method DisconnectStream(ssrc: Ssrc, user: UserId, now: int)
      requires Valid()
      modifies this
      ensures Valid()
      ensures Snapshot() == DisconnectStep(old(Snapshot()), ssrc, user, now)
    {
      FlushStream(ssrc, now);
      ssrcMap := ssrcMap - {ssrc};
      ClearCurrentSpeaker(user);
    }

    /** `on_disconnect`: flush and unmap every stream of the user, in the map's iteration order. */
    method OnDisconnect(user: UserId, now: int) returns (ghost order: seq<Ssrc>)
      requires Valid()
      modifies this
      ensures Valid()
      ensures Voice.Distinct(order) && Voice.Elems(order) == Voice.MappedTo(old(ssrcMap), user)
      ensures Snapshot() == DisconnectSpec(old(Snapshot()), order, user, now)
    {
      var ssrcs := Voice.CollectMapped(ssrcMap, user);
      order := ssrcs;
      ghost var v0 := Snapshot();
      for i := 0 to |ssrcs|
        invariant Valid()
        invariant Snapshot() == DisconnectSpec(v0, ssrcs[..i], user, now)
      {
        DisconnectStream(ssrcs[i], user, now);
        DisconnectSpecSnoc(v0, ssrcs[..i], ssrcs[i], user, now);
        assert ssrcs[..i + 1] == ssrcs[..i] + [ssrcs[i]];
      }
      assert ssrcs[..|ssrcs|] == ssrcs;
    }

    /** `on_voice_tick`: push every speaking stream's decoded audio, then silence-flush every silent stream. */
    method OnVoiceTick(speaking: seq<(Ssrc, Option<seq<i16>>)>, silent: seq<Ssrc>, now: int)
      requires Valid()
      modifies this
      ensures Valid()
      ensures Snapshot() == TickSpec(old(Snapshot()), speaking, silent, now)
    {
      ghost var v0 := Snapshot();
      for i := 0 to |speaking|
        invariant Valid()
        invariant Snapshot() == TickSpeakingSpec(v0, speaking[..i], now)
      {
        assert speaking[..i + 1][..i] == speaking[..i];
        var (ssrc, decoded) := speaking[i];
        if decoded.Some? {
          PushSamples(ssrc, decoded.value, now);
        }
      }
      assert speaking[..|speaking|] == speaking;
      ghost var v1 := Snapshot();
      for j := 0 to |silent|
        invariant Valid()
        invariant Snapshot() == TickSilentSpec(v1, silent[..j], now)
      {
        assert silent[..j + 1][..j] == silent[..j];
        FlushExpired(silent[j], now);
      }
      assert silent[..|silent|] == silent;
    }
  }
}
