/**
 * The JSON caption store: one session document per (guild, channel)
 * session, holding the session metadata and the caption entries in
 * arrival order. The directory is a map from file name to what the file
 * holds; a document is written back whole after each change. Clock
 * readings (`Local::now()`, `Instant::now()`) are parameters.
 */
module CaptionSink {
  import opened Wrappers
  import opened Text

  // ---------------------------------------------------------------------
  // Data model
  // ---------------------------------------------------------------------

  /** A local date and time, as chrono's `%Y%m%d` and `hour()`/`minute()`/`second()` see it. */
  datatype DateTime = DateTime(year: nat, month: nat, day: nat, hour: nat, minute: nat, second: nat)

  type LocalTime = t: DateTime | t.year < 10000 && 1 <= t.month <= 12 && 1 <= t.day <= 31
    && t.hour < 24 && t.minute < 60 && t.second < 60
    witness DateTime(1970, 1, 1, 0, 0, 0)

  type SessionKey = (nat, nat)

  datatype SpeakerInfo = SpeakerInfo(id: Option<nat>, name: string)

  datatype CaptionEntry = CaptionEntry(speaker: SpeakerInfo, comment: string, timestamp: string)

  datatype SessionMetadata = SessionMetadata(
    title: Option<string>,
    startedAt: LocalTime,
    endedAt: Option<LocalTime>,
    durationSeconds: Option<nat>,
    durationFormatted: Option<string>)

  datatype SessionDocument = SessionDocument(metadata: SessionMetadata, transcriptions: seq<CaptionEntry>)

  datatype SessionInfo = SessionInfo(fileName: string, title: Option<string>, startedAt: LocalTime, startedInstant: int)

  datatype SessionSummary = SessionSummary(fileName: string, title: Option<string>, startedAt: LocalTime, durationSeconds: nat)

  /** A speaker as it may appear on disk: the current object form, or a bare user id from older files. */
  datatype RawSpeaker = Detailed(info: SpeakerInfo) | Legacy(userId: nat)

  datatype RawEntry = RawEntry(speaker: RawSpeaker, comment: string, timestamp: string)

  /** What reading and parsing a session file yields. */
  datatype StoredFile =
    | Blank
    | Unparseable
    | FullDocument(metadata: SessionMetadata, entries: seq<RawEntry>)
    | BareEntries(entries: seq<RawEntry>)

  datatype CaptionState = CaptionState(sessions: map<SessionKey, SessionInfo>, files: map<string, StoredFile>)

  // ---------------------------------------------------------------------
  // Speakers and (de)serialisation
  // ---------------------------------------------------------------------

  /** `speaker_field::deserialize`: a bare id `n` becomes `{ id: n, name: "User n" }`. */
  function DecodeSpeaker(raw: RawSpeaker): SpeakerInfo {
    match raw
    case Detailed(info) => info
    case Legacy(id) => SpeakerInfo(Some(id), "User " + NatToString(id))
  }

  lemma LegacySpeakerMapping(id: nat)
    ensures DecodeSpeaker(Legacy(id)).id == Some(id)
    ensures DecodeSpeaker(Legacy(id)).name == "User " + NatToString(id)
    ensures DecodeSpeaker(Legacy(id)).name[..5] == "User "
  {
  }

  function DecodeEntries(raws: seq<RawEntry>): (r: seq<CaptionEntry>)
    ensures |r| == |raws|
    ensures forall i :: 0 <= i < |raws| ==>
      r[i] == CaptionEntry(DecodeSpeaker(raws[i].speaker), raws[i].comment, raws[i].timestamp)
  {
    seq(|raws|, i requires 0 <= i < |raws| => CaptionEntry(DecodeSpeaker(raws[i].speaker), raws[i].comment, raws[i].timestamp))
  }

  /** Serialisation always writes the object form of a speaker. */
  function EncodeEntries(entries: seq<CaptionEntry>): (r: seq<RawEntry>)
    ensures |r| == |entries|
    ensures forall i :: 0 <= i < |r| ==> r[i].speaker.Detailed?
  {
    seq(|entries|, i requires 0 <= i < |entries| => RawEntry(Detailed(entries[i].speaker), entries[i].comment, entries[i].timestamp))
  }

  lemma DecodeEncode(entries: seq<CaptionEntry>)
    ensures DecodeEntries(EncodeEntries(entries)) == entries
  {
  }

  /** `write_session_document`: the file holds the whole document. */
  function Store(doc: SessionDocument): StoredFile {
    FullDocument(doc.metadata, EncodeEntries(doc.transcriptions))
  }

  function NewDocument(info: SessionInfo): SessionDocument {
    SessionDocument(SessionMetadata(info.title, info.startedAt, None, None, None), [])
  }

  function NewDocumentWithInfo(info: Option<SessionInfo>, now: LocalTime): SessionDocument {
    match info
    case Some(i) => NewDocument(i)
    case None => SessionDocument(SessionMetadata(None, now, None, None, None), [])
  }

  /**
   * `load_session_document`: a missing, blank or unparseable file gives a
   * fresh document; a full document is taken as it is; a bare array of
   * entries gets fresh metadata.
   */
  function LoadSessionDocument(files: map<string, StoredFile>, name: string, info: Option<SessionInfo>, now: LocalTime)
    : SessionDocument
  {
    var blank := NewDocumentWithInfo(info, now);
    if name !in files then blank
    else match files[name]
      case Blank => blank
      case FullDocument(metadata, entries) => SessionDocument(metadata, DecodeEntries(entries))
      case BareEntries(entries) => blank.(transcriptions := DecodeEntries(entries))
      case Unparseable => blank
  }

  /** A document the store wrote loads back unchanged. */
  lemma LoadAfterStore(files: map<string, StoredFile>, name: string, doc: SessionDocument, info: Option<SessionInfo>, now: LocalTime)
    ensures LoadSessionDocument(files[name := Store(doc)], name, info, now) == doc
  {
    DecodeEncode(doc.transcriptions);
  }

  /** Older files holding only an entry array keep their entries, with legacy speakers mapped. */
  lemma BareEntriesKeepEntries(files: map<string, StoredFile>, name: string, info: Option<SessionInfo>, now: LocalTime)
    requires name in files && files[name].BareEntries?
    ensures var doc := LoadSessionDocument(files, name, info, now);
      && doc.metadata == NewDocumentWithInfo(info, now).metadata
      && |doc.transcriptions| == |files[name].entries|
      && forall i :: 0 <= i < |doc.transcriptions| ==>
           doc.transcriptions[i].speaker == DecodeSpeaker(files[name].entries[i].speaker)
  {
  }

  // ---------------------------------------------------------------------
  // File names
  // ---------------------------------------------------------------------

  /** `%Y%m%d_%H%M%S` (hours, minutes and seconds zero-padded to two digits). */
  function DateStamp(t: LocalTime): (s: string)
    ensures |s| == 15 && s[8] == '_'
    ensures AllDigits(s[..8]) && AllDigits(s[9..])
    ensures ParseDecimal(s[..4]) == t.year && ParseDecimal(s[4..6]) == t.month && ParseDecimal(s[6..8]) == t.day
    ensures ParseDecimal(s[9..11]) == t.hour && ParseDecimal(s[11..13]) == t.minute && ParseDecimal(s[13..]) == t.second
  {
    var s := Pad4(t.year) + Pad2(t.month) + Pad2(t.day) + "_" + Pad2(t.hour) + Pad2(t.minute) + Pad2(t.second);
    assert s[..8] == Pad4(t.year) + Pad2(t.month) + Pad2(t.day);
    assert s[9..] == Pad2(t.hour) + Pad2(t.minute) + Pad2(t.second);
    assert s[..4] == Pad4(t.year) && s[4..6] == Pad2(t.month) && s[6..8] == Pad2(t.day);
    assert s[9..11] == Pad2(t.hour) && s[11..13] == Pad2(t.minute) && s[13..] == Pad2(t.second);
    s
  }

  /** The stamp determines the date and time it was made from. */
  lemma DateStampInjective(t1: LocalTime, t2: LocalTime)
    requires DateStamp(t1) == DateStamp(t2)
    ensures t1 == t2
  {
  }

  /** `build_file_name`: `{guild}_{channel}_{YYYYMMDD}_{HHMMSS}[_{slug}].json`. */
  function BuildFileName(guild: nat, channel: nat, t: LocalTime, slug: Option<string>): string {
    NatToString(guild) + "_" + (NatToString(channel) + "_" + (DateStamp(t) + SlugSuffix(slug)))
  }

  function SlugSuffix(slug: Option<string>): string {
    (if slug.Some? then "_" + slug.value else "") + ".json"
  }

  lemma FileNameShape(guild: nat, channel: nat, t: LocalTime, slug: Option<string>)
    ensures var n := BuildFileName(guild, channel, t, slug);
      var head := NatToString(guild) + "_" + NatToString(channel) + "_";
      && |n| >= |head| + 15 + 5
      && n[..|head|] == head
      && n[|head|..|head| + 15] == DateStamp(t)
      && n[|n| - 5..] == ".json"
      && (slug.Some? ==> n[|head| + 15..|n| - 5] == "_" + slug.value)
      && (slug.None? ==> |n| == |head| + 20)
  {
    FileNameParts(NatToString(guild), NatToString(channel), DateStamp(t), SlugSuffix(slug));
    SlugSuffixShape(slug);
  }

  lemma FileNameParts(a: string, b: string, d: string, suffix: string)
    requires |d| == 15
    ensures var n := a + "_" + (b + "_" + (d + suffix));
      var head := a + "_" + b + "_";
      && |n| == |head| + 15 + |suffix|
      && n[..|head|] == head
      && n[|head|..|head| + 15] == d
      && n[|head| + 15..] == suffix
  {
    var n := a + "_" + (b + "_" + (d + suffix));
    var head := a + "_" + b + "_";
    assert n == head + d + suffix;
  }

  lemma SlugSuffixShape(slug: Option<string>)
    ensures var x := SlugSuffix(slug);
      && |x| >= 5 && x[|x| - 5..] == ".json"
      && (slug.Some? ==> x[..|x| - 5] == "_" + slug.value)
      && (slug.None? ==> |x| == 5)
  {
  }

  /** Position of the first underscore, or the length when there is none. */
  function UnderscoreAt(s: string): (k: nat)
    ensures k <= |s|
  {
    if s == [] || s[0] == '_' then 0 else 1 + UnderscoreAt(s[1..])
  }

  lemma {:induction false} UnderscoreAfterDigits(a: string, x: string)
    requires AllDigits(a)
    ensures UnderscoreAt(a + "_" + x) == |a|
  {
    if a != [] {
      assert (a + "_" + x)[1..] == a[1..] + "_" + x;
      UnderscoreAfterDigits(a[1..], x);
    }
  }

  /** Splitting at the first underscore after a run of digits. */
  lemma DigitsThenUnderscore(a: string, x: string, b: string, y: string)
    requires AllDigits(a) && AllDigits(b)
    requires a + "_" + x == b + "_" + y
    ensures a == b && x == y
  {
    var l := a + "_" + x;
    UnderscoreAfterDigits(a, x);
    UnderscoreAfterDigits(b, y);
    assert a == l[..|a|] && b == l[..|b|];
    assert x == l[|a| + 1..] && y == l[|b| + 1..];
  }

  /** Sessions of different channels never share a file name. */
  lemma FileNameSeparatesChannels(g1: nat, c1: nat, t1: LocalTime, s1: Option<string>,
                                  g2: nat, c2: nat, t2: LocalTime, s2: Option<string>)
    requires BuildFileName(g1, c1, t1, s1) == BuildFileName(g2, c2, t2, s2)
    ensures g1 == g2 && c1 == c2
  {
    var tail1 := DateStamp(t1) + SlugSuffix(s1);
    var tail2 := DateStamp(t2) + SlugSuffix(s2);
    DigitsThenUnderscore(NatToString(g1), NatToString(c1) + "_" + tail1, NatToString(g2), NatToString(c2) + "_" + tail2);
    DigitsThenUnderscore(NatToString(c1), tail1, NatToString(c2), tail2);
    NatToStringInjective(g1, g2);
    NatToStringInjective(c1, c2);
  }

  // ---------------------------------------------------------------------
  // Title slugs
  // ---------------------------------------------------------------------

  /** The longest slug `slugify_title` builds before trimming. */
  const SlugLimit: nat := 48

  predicate IsSlugChar(c: char) {
    IsAsciiLower(c) || IsDigit(c) || c == '-'
  }

  /** One iteration of `slugify_title`'s loop (a full slug ignores the rest of the input). */
  function SlugStep(slug: string, ch: char): string {
    if |slug| >= SlugLimit then slug
    else if IsAsciiAlphanumeric(ch) then slug + [ToAsciiLowerChar(ch)]
    else if IsAsciiWhitespace(ch) || ((ch == '-' || ch == '_') && slug != [] && slug[|slug| - 1] != '-') then slug + ['-']
    else slug
  }

  function SlugRaw(s: string): string {
    if s == [] then [] else SlugStep(SlugRaw(s[..|s| - 1]), s[|s| - 1])
  }

  function TrimDashStart(s: string): (r: string)
    ensures |r| <= |s| && r == s[|s| - |r|..]
    ensures r == [] || r[0] != '-'
    ensures forall i :: 0 <= i < |s| - |r| ==> s[i] == '-'
  {
    if s != [] && s[0] == '-' then TrimDashStart(s[1..]) else s
  }

  function TrimDashEnd(s: string): (r: string)
    ensures |r| <= |s| && r == s[..|r|]
    ensures r == [] || r[|r| - 1] != '-'
    ensures forall i :: |r| <= i < |s| ==> s[i] == '-'
  {
    if s != [] && s[|s| - 1] == '-' then TrimDashEnd(s[..|s| - 1]) else s
  }

  lemma {:induction false} TrimDashStartAllDashes(s: string)
    requires forall i :: 0 <= i < |s| ==> s[i] == '-'
    ensures TrimDashStart(s) == []
  {
    if s != [] {
      TrimDashStartAllDashes(s[1..]);
    }
  }

  /** `trim_matches('-')`. */
  function TrimDashes(s: string): (r: string)
    ensures |r| <= |s|
    ensures r == [] || (r[0] != '-' && r[|r| - 1] != '-')
    ensures |r| <= |TrimDashStart(s)| && r == s[|s| - |TrimDashStart(s)|..][..|r|]
  {
    TrimDashEnd(TrimDashStart(s))
  }

  /** `slugify_title`. */
  function Slugify(input: string): Option<string> {
    var t := TrimDashes(SlugRaw(input));
    if t == [] then None else Some(t)
  }

  lemma {:induction false} SlugRawShape(s: string)
    ensures |SlugRaw(s)| <= SlugLimit
    ensures forall i :: 0 <= i < |SlugRaw(s)| ==> IsSlugChar(SlugRaw(s)[i])
  {
    if s != [] {
      SlugRawShape(s[..|s| - 1]);
    }
  }

  /** The slug holds only `[a-z0-9-]`, neither starts nor ends with `-`, and has at most 48 characters. */
  lemma SlugifyShape(input: string)
    ensures var r := Slugify(input);
      r.Some? ==> && r.value != []
                  && |r.value| <= SlugLimit
                  && r.value[0] != '-' && r.value[|r.value| - 1] != '-'
                  && forall i :: 0 <= i < |r.value| ==> IsSlugChar(r.value[i])
  {
    SlugRawShape(input);
    var raw := SlugRaw(input);
    var r := TrimDashes(raw);
    var k := |raw| - |TrimDashStart(raw)|;
    assert forall i :: 0 <= i < |r| ==> r[i] == raw[k + i];
  }

  lemma {:induction false} SlugRawOnlyDashes(s: string)
    requires forall i :: 0 <= i < |s| ==> !IsAsciiAlphanumeric(s[i])
    ensures forall i :: 0 <= i < |SlugRaw(s)| ==> SlugRaw(s)[i] == '-'
  {
    if s != [] {
      SlugRawOnlyDashes(s[..|s| - 1]);
    }
  }

  /** A title with no ASCII letter or digit has no slug. */
  lemma NoAlphanumericNoSlug(input: string)
    requires forall i :: 0 <= i < |input| ==> !IsAsciiAlphanumeric(input[i])
    ensures Slugify(input) == None
  {
    SlugRawOnlyDashes(input);
    TrimDashStartAllDashes(SlugRaw(input));
  }

  /** White space always adds a hyphen; a hyphen or underscore adds one only after a non-hyphen. */
  lemma SlugSeparators(slug: string, ch: char)
    requires |slug| < SlugLimit && !IsAsciiAlphanumeric(ch)
    ensures IsAsciiWhitespace(ch) ==> SlugStep(slug, ch) == slug + ['-']
    ensures (ch == '-' || ch == '_') ==>
      (SlugStep(slug, ch) == slug + ['-'] <==> slug != [] && slug[|slug| - 1] != '-')
  {
  }

  lemma {:induction false} SlugRawSaturates(p: string, q: string)
    requires |SlugRaw(p)| >= SlugLimit
    ensures SlugRaw(p + q) == SlugRaw(p)
    decreases |q|
  {
    if q == [] {
      assert p + q == p;
    } else {
      var q' := q[..|q| - 1];
      assert (p + q)[..|p + q| - 1] == p + q';
      SlugRawSaturates(p, q');
    }
  }

  /** The loop of `slugify_title`, which stops once the slug reaches 48 characters. */
  method SlugifyTitle(input: string) returns (r: Option<string>)
    ensures r == Slugify(input)
  {
    var slug := "";
    var i := 0;
    while i < |input|
      invariant 0 <= i <= |input|
      invariant slug == SlugRaw(input[..i])
    {
      if |slug| >= SlugLimit {
        break;
      }
      var ch := input[i];
      assert input[..i + 1][..i] == input[..i];
      if IsAsciiAlphanumeric(ch) {
        slug := slug + [ToAsciiLowerChar(ch)];
      } else if IsAsciiWhitespace(ch) || ((ch == '-' || ch == '_') && slug != [] && slug[|slug| - 1] != '-') {
        slug := slug + ['-'];
      }
      i := i + 1;
    }
    if i < |input| {
      SlugRawSaturates(input[..i], input[i..]);
      assert input[..i] + input[i..] == input;
    } else {
      assert input[..i] == input;
    }
    var trimmed := TrimDashes(slug);
    r := if trimmed == [] then None else Some(trimmed);
  }

  /** The title kept for a session: trimmed, and absent when blank. */
  function CleanTitle(title: Option<string>): (r: Option<string>)
    ensures r.Some? ==> title.Some? && r.value == Trim(title.value) && r.value != []
    ensures r.None? ==> title.None? || AllWhitespace(title.value)
  {
    match title
    case None => None
    case Some(t) =>
      TrimBlank(t);
      if Trim(t) != [] then Some(Trim(t)) else None
  }

  // ---------------------------------------------------------------------
  // Durations
  // ---------------------------------------------------------------------

  /** `{:02}:{:02}:{:02}`. */
  function Clock(h: nat, m: nat, sec: nat): (s: string)
    requires m < 100 && sec < 100
    ensures |s| >= 8 && s[|s| - 3] == ':' && s[|s| - 6] == ':'
  {
    Pad2(h) + ":" + Pad2(m) + ":" + Pad2(sec)
  }

  /** `format_duration`: `HH:MM:SS`, hours unbounded. */
  function FormatDuration(totalSecs: nat): (s: string)
    ensures |s| >= 8 && s[|s| - 3] == ':' && s[|s| - 6] == ':'
  {
    Clock(totalSecs / 3600, totalSecs % 3600 / 60, totalSecs % 60)
  }

  /** Digits, a colon, two digits, a colon, two digits. */
  predicate DurationShaped(s: string) {
    && |s| >= 8 && s[|s| - 3] == ':' && s[|s| - 6] == ':'
    && AllDigits(s[..|s| - 6]) && AllDigits(s[|s| - 5..|s| - 3]) && AllDigits(s[|s| - 2..])
  }

  /** Reads `H..H:MM:SS` back: hours, minutes and seconds. */
  function DurationFields(s: string): (nat, nat, nat)
    requires DurationShaped(s)
  {
    (ParseDecimal(s[..|s| - 6]), ParseDecimal(s[|s| - 5..|s| - 3]), ParseDecimal(s[|s| - 2..]))
  }

  lemma HoursMinutesSeconds(t: nat)
    ensures t % 3600 / 60 < 60 && t % 60 < 60
    ensures (t / 3600) * 3600 + (t % 3600 / 60) * 60 + t % 60 == t
  {
    var q, r := t / 3600, t % 3600;
    var m, sec := r / 60, r % 60;
    assert t == q * 3600 + r;
    assert r == m * 60 + sec;
    assert t == (q * 60 + m) * 60 + sec;
    assert t % 60 == sec;
  }

  lemma ClockRoundTrip(h: nat, m: nat, sec: nat)
    requires m < 100 && sec < 100
    ensures DurationShaped(Clock(h, m, sec)) && DurationFields(Clock(h, m, sec)) == (h, m, sec)
  {
    var s := Clock(h, m, sec);
    assert s[..|s| - 6] == Pad2(h);
    assert s[|s| - 5..|s| - 3] == Pad2(m);
    assert s[|s| - 2..] == Pad2(sec);
  }

  /**
   * The formatted duration reads back as hours, minutes in 0..59 and
   * seconds in 0..59 with `H*3600 + M*60 + S` equal to the total.
   */
  lemma FormatDurationRoundTrip(totalSecs: nat)
    ensures DurationShaped(FormatDuration(totalSecs))
    ensures var (h, m, sec) := DurationFields(FormatDuration(totalSecs));
      m < 60 && sec < 60 && h * 3600 + m * 60 + sec == totalSecs
  {
    var h, m, sec := totalSecs / 3600, totalSecs % 3600 / 60, totalSecs % 60;
    HoursMinutesSeconds(totalSecs);
    ClockRoundTrip(h, m, sec);
    assert FormatDuration(totalSecs) == Clock(h, m, sec);
  }

  /** `duration.as_secs()` of `started_instant.elapsed()` on a millisecond clock (never negative). */
  function ElapsedSecs(startedInstant: int, instant: int): nat {
    if instant >= startedInstant then (instant - startedInstant) / 1000 else 0
  }

  // ---------------------------------------------------------------------
  // Placeholder relabelling
  // ---------------------------------------------------------------------

  predicate IsPlaceholderEntry(e: CaptionEntry, placeholder: string) {
    e.speaker.id.None? && e.speaker.name == placeholder
  }

  predicate AnyPlaceholder(entries: seq<CaptionEntry>, placeholder: string) {
    exists i :: 0 <= i < |entries| && IsPlaceholderEntry(entries[i], placeholder)
  }

  function RelabelEntry(e: CaptionEntry, placeholder: string, newId: nat, newName: string): CaptionEntry {
    if IsPlaceholderEntry(e, placeholder) then e.(speaker := SpeakerInfo(Some(newId), newName)) else e
  }

  function RelabelAll(entries: seq<CaptionEntry>, placeholder: string, newId: nat, newName: string): (r: seq<CaptionEntry>)
    ensures |r| == |entries|
  {
    seq(|entries|, i requires 0 <= i < |entries| => RelabelEntry(entries[i], placeholder, newId, newName))
  }

  /**
   * Relabelling rewrites exactly the entries with no id whose name is the
   * placeholder, to the new id and name; every other entry, the order and
   * count, and every comment and timestamp stay as they were.
   */
  lemma RelabelRewritesExactly(entries: seq<CaptionEntry>, placeholder: string, newId: nat, newName: string)
    ensures var r := RelabelAll(entries, placeholder, newId, newName);
      && |r| == |entries|
      && (forall i :: 0 <= i < |r| ==>
            && r[i].comment == entries[i].comment && r[i].timestamp == entries[i].timestamp
            && (IsPlaceholderEntry(entries[i], placeholder) ==> r[i].speaker == SpeakerInfo(Some(newId), newName))
            && (!IsPlaceholderEntry(entries[i], placeholder) ==> r[i] == entries[i]))
      && !AnyPlaceholder(r, placeholder)
      && (r != entries <==> AnyPlaceholder(entries, placeholder))
  {
    var r := RelabelAll(entries, placeholder, newId, newName);
    if AnyPlaceholder(entries, placeholder) {
      var i :| 0 <= i < |entries| && IsPlaceholderEntry(entries[i], placeholder);
      assert r[i] != entries[i];
    } else {
      assert r == entries;
    }
  }

  /** The `for entry in &mut document.transcriptions` loop, with its `updated` flag. */
  method RelabelEntries(entries: seq<CaptionEntry>, placeholder: string, newId: nat, newName: string)
    returns (out: seq<CaptionEntry>, updated: bool)
    ensures out == RelabelAll(entries, placeholder, newId, newName)
    ensures updated <==> AnyPlaceholder(entries, placeholder)
  {
    out := entries;
    updated := false;
    for i := 0 to |entries|
      invariant |out| == |entries|
      invariant forall k :: 0 <= k < i ==> out[k] == RelabelEntry(entries[k], placeholder, newId, newName)
      invariant forall k :: i <= k < |entries| ==> out[k] == entries[k]
      invariant updated <==> exists k :: 0 <= k < i && IsPlaceholderEntry(entries[k], placeholder)
    {
      if out[i].speaker.id.None? && out[i].speaker.name == placeholder {
        out := out[i := out[i].(speaker := SpeakerInfo(Some(newId), newName))];
        updated := true;
      }
    }
  }

  // ---------------------------------------------------------------------
  // The store's operations, as functions of its state
  // ---------------------------------------------------------------------

  /** `session_file_name`: the session's file, registering an untitled session when there is none. */
  function SessionFileNameSpec(sessions: map<SessionKey, SessionInfo>, key: SessionKey, now: LocalTime, instant: int)
    : (r: (string, map<SessionKey, SessionInfo>))
    ensures key in r.1 && r.1[key].fileName == r.0
    ensures key in sessions ==> r == (sessions[key].fileName, sessions)
  {
    if key in sessions then (sessions[key].fileName, sessions)
    else
      var name := BuildFileName(key.0, key.1, now, None);
      (name, sessions[key := SessionInfo(name, None, now, instant)])
  }

  function StartSpec(st: CaptionState, key: SessionKey, title: Option<string>, now: LocalTime, instant: int)
    : (string, CaptionState)
  {
    var clean := CleanTitle(title);
    var slug := if clean.Some? then Slugify(clean.value) else None;
    var name := BuildFileName(key.0, key.1, now, slug);
    var info := SessionInfo(name, clean, now, instant);
    (name, CaptionState(st.sessions[key := info], st.files[name := Store(NewDocument(info))]))
  }

  function EndSpec(st: CaptionState, key: SessionKey, now: LocalTime, instant: int)
    : (Option<SessionSummary>, CaptionState)
  {
    if key !in st.sessions then (None, st)
    else
      var info := st.sessions[key];
      var doc := LoadSessionDocument(st.files, info.fileName, Some(info), now);
      var secs := ElapsedSecs(info.startedInstant, instant);
      var metadata := doc.metadata.(title := info.title, startedAt := info.startedAt, endedAt := Some(now),
                                    durationSeconds := Some(secs), durationFormatted := Some(FormatDuration(secs)));
      (Some(SessionSummary(info.fileName, info.title, info.startedAt, secs)),
       CaptionState(st.sessions - {key}, st.files[info.fileName := Store(doc.(metadata := metadata))]))
  }

  function AppendSpec(st: CaptionState, key: SessionKey, entry: CaptionEntry, now: LocalTime, instant: int): CaptionState {
    var (name, sessions) := SessionFileNameSpec(st.sessions, key, now, instant);
    var doc := LoadSessionDocument(st.files, name, Some(sessions[key]), now);
    CaptionState(sessions, st.files[name := Store(doc.(transcriptions := doc.transcriptions + [entry]))])
  }

  function RelabelSpec(st: CaptionState, key: SessionKey, placeholder: string, newId: nat, newName: string,
                       now: LocalTime, instant: int): (bool, CaptionState)
  {
    var (name, sessions) := SessionFileNameSpec(st.sessions, key, now, instant);
    if name !in st.files then (false, CaptionState(sessions, st.files))
    else
      var doc := LoadSessionDocument(st.files, name, Some(sessions[key]), now);
      if AnyPlaceholder(doc.transcriptions, placeholder) then
        var entries := RelabelAll(doc.transcriptions, placeholder, newId, newName);
        (true, CaptionState(sessions, st.files[name := Store(doc.(transcriptions := entries))]))
      else (false, CaptionState(sessions, st.files))
  }

  // ---------------------------------------------------------------------
  // Properties of the store
  // ---------------------------------------------------------------------

  /** A session's file name is fixed once registered. */
  lemma SessionFileNameStable(sessions: map<SessionKey, SessionInfo>, key: SessionKey,
                              now1: LocalTime, i1: int, now2: LocalTime, i2: int)
    ensures var (n1, s1) := SessionFileNameSpec(sessions, key, now1, i1);
      SessionFileNameSpec(s1, key, now2, i2) == (n1, s1)
  {
  }

  /** A started session's file holds a fresh document with its cleaned title and no entries. */
  lemma StartWritesFreshDocument(st: CaptionState, key: SessionKey, title: Option<string>, now: LocalTime, instant: int,
                                 later: LocalTime)
    ensures var (name, st') := StartSpec(st, key, title, now, instant);
      && key in st'.sessions && st'.sessions[key].fileName == name
      && var doc := LoadSessionDocument(st'.files, name, Some(st'.sessions[key]), later);
         doc.transcriptions == [] && doc.metadata.title == CleanTitle(title) && doc.metadata.startedAt == now
         && doc.metadata.endedAt == None
  {
    var (name, st') := StartSpec(st, key, title, now, instant);
    LoadAfterStore(st.files, name, NewDocument(st'.sessions[key]), Some(st'.sessions[key]), later);
  }

  /** `append_json` adds the entry at the end of the session's entries and keeps the metadata. */
  lemma AppendAddsAtEnd(st: CaptionState, key: SessionKey, entry: CaptionEntry, now: LocalTime, instant: int)
    ensures var (name, sessions) := SessionFileNameSpec(st.sessions, key, now, instant);
      var before := LoadSessionDocument(st.files, name, Some(sessions[key]), now);
      var st' := AppendSpec(st, key, entry, now, instant);
      var after := LoadSessionDocument(st'.files, name, Some(sessions[key]), now);
      && st'.sessions == sessions
      && after.transcriptions == before.transcriptions + [entry]
      && after.metadata == before.metadata
      && (forall f :: f in st.files && f != name ==> f in st'.files && st'.files[f] == st.files[f])
  {
    var (name, sessions) := SessionFileNameSpec(st.sessions, key, now, instant);
    var before := LoadSessionDocument(st.files, name, Some(sessions[key]), now);
    LoadAfterStore(st.files, name, before.(transcriptions := before.transcriptions + [entry]), Some(sessions[key]), now);
  }

  /**
   * `relabel_placeholder` returns true iff some entry was a placeholder
   * entry, and writes the file only then; a missing file gives false and
   * creates nothing.
   */
  lemma RelabelReportsChange(st: CaptionState, key: SessionKey, placeholder: string, newId: nat, newName: string,
                             now: LocalTime, instant: int)
    ensures var (name, sessions) := SessionFileNameSpec(st.sessions, key, now, instant);
      var (updated, st') := RelabelSpec(st, key, placeholder, newId, newName, now, instant);
      && st'.sessions == sessions
      && (name !in st.files ==> !updated && st'.files == st.files)
      && (name in st.files ==>
            var doc := LoadSessionDocument(st.files, name, Some(sessions[key]), now);
            && (updated <==> AnyPlaceholder(doc.transcriptions, placeholder))
            && (!updated ==> st'.files == st.files)
            && (updated ==> LoadSessionDocument(st'.files, name, Some(sessions[key]), now).transcriptions
                              == RelabelAll(doc.transcriptions, placeholder, newId, newName)))
  {
    var (name, sessions) := SessionFileNameSpec(st.sessions, key, now, instant);
    if name in st.files {
      var doc := LoadSessionDocument(st.files, name, Some(sessions[key]), now);
      var entries := RelabelAll(doc.transcriptions, placeholder, newId, newName);
      LoadAfterStore(st.files, name, doc.(transcriptions := entries), Some(sessions[key]), now);
    }
  }

  /** Repeating a relabel finds nothing more to change: it returns false and changes nothing. */
  lemma RelabelIdempotent(st: CaptionState, key: SessionKey, placeholder: string, newId: nat, newName: string,
                          now1: LocalTime, i1: int, now2: LocalTime, i2: int)
    ensures var (_, st1) := RelabelSpec(st, key, placeholder, newId, newName, now1, i1);
      RelabelSpec(st1, key, placeholder, newId, newName, now2, i2) == (false, st1)
  {
    var (name, sessions) := SessionFileNameSpec(st.sessions, key, now1, i1);
    var (updated, st1) := RelabelSpec(st, key, placeholder, newId, newName, now1, i1);
    SessionFileNameStable(st.sessions, key, now1, i1, now2, i2);
    if name in st.files {
      var doc := LoadSessionDocument(st.files, name, Some(sessions[key]), now1);
      var entries := RelabelAll(doc.transcriptions, placeholder, newId, newName);
      RelabelRewritesExactly(doc.transcriptions, placeholder, newId, newName);
      if updated {
        LoadAfterStore(st.files, name, doc.(transcriptions := entries), Some(sessions[key]), now2);
      } else {
        assert LoadSessionDocument(st1.files, name, Some(sessions[key]), now2).transcriptions == doc.transcriptions;
      }
    }
  }

  /** Ending a session unregisters it and stamps the end, the elapsed seconds and their `HH:MM:SS` form. */
  lemma EndStampsMetadata(st: CaptionState, key: SessionKey, now: LocalTime, instant: int, later: LocalTime)
    requires key in st.sessions
    ensures var info := st.sessions[key];
      var (summary, st') := EndSpec(st, key, now, instant);
      var before := LoadSessionDocument(st.files, info.fileName, Some(info), now);
      var after := LoadSessionDocument(st'.files, info.fileName, None, later);
      && key !in st'.sessions
      && summary == Some(SessionSummary(info.fileName, info.title, info.startedAt, ElapsedSecs(info.startedInstant, instant)))
      && after.transcriptions == before.transcriptions
      && after.metadata.endedAt == Some(now)
      && after.metadata.durationSeconds == Some(summary.value.durationSeconds)
      && after.metadata.durationFormatted == Some(FormatDuration(summary.value.durationSeconds))
  {
    var info := st.sessions[key];
    var (summary, st') := EndSpec(st, key, now, instant);
    var doc := LoadSessionDocument(st.files, info.fileName, Some(info), now);
    var secs := ElapsedSecs(info.startedInstant, instant);
    var metadata := doc.metadata.(title := info.title, startedAt := info.startedAt, endedAt := Some(now),
                                  durationSeconds := Some(secs), durationFormatted := Some(FormatDuration(secs)));
    LoadAfterStore(st.files, info.fileName, doc.(metadata := metadata), None, later);
  }

  // ---------------------------------------------------------------------
  // The store
  // ---------------------------------------------------------------------

  class CaptionStore {
    var sessions: map<SessionKey, SessionInfo>
    var files: map<string, StoredFile>

    function State(): CaptionState
      reads this
    {
      CaptionState(sessions, files)
    }

    constructor ()
      ensures sessions == map[] && files == map[]
    {
      sessions := map[];
      files := map[];
    }

    method WriteSessionDocument(name: string, doc: SessionDocument)
      modifies this
      ensures files == old(files)[name := Store(doc)] && sessions == old(sessions)
    {
      files := files[name := Store(doc)];
    }

    method SessionFileName(key: SessionKey, now: LocalTime, instant: int) returns (name: string)
      modifies this
      ensures (name, sessions) == SessionFileNameSpec(old(sessions), key, now, instant)
      ensures files == old(files)
    {
      if key in sessions {
        name := sessions[key].fileName;
      } else {
        name := BuildFileName(key.0, key.1, now, None);
        sessions := sessions[key := SessionInfo(name, None, now, instant)];
      }
    }

    method StartSession(key: SessionKey, title: Option<string>, now: LocalTime, instant: int) returns (name: string)
      modifies this
      ensures (name, State()) == StartSpec(old(State()), key, title, now, instant)
    {
      var clean := CleanTitle(title);
      var slug: Option<string> := None;
      if clean.Some? {
        slug := SlugifyTitle(clean.value);
      }
      name := BuildFileName(key.0, key.1, now, slug);
      var info := SessionInfo(name, clean, now, instant);
      WriteSessionDocument(name, NewDocument(info));
      sessions := sessions[key := info];
    }

    method EndSession(key: SessionKey, now: LocalTime, instant: int) returns (summary: Option<SessionSummary>)
      modifies this
      ensures (summary, State()) == EndSpec(old(State()), key, now, instant)
    {
      if key !in sessions {
        return None;
      }
      var info := sessions[key];
      sessions := sessions - {key};
      var doc := LoadSessionDocument(files, info.fileName, Some(info), now);
      var secs := ElapsedSecs(info.startedInstant, instant);
      var metadata := doc.metadata.(title := info.title, startedAt := info.startedAt, endedAt := Some(now),
                                    durationSeconds := Some(secs), durationFormatted := Some(FormatDuration(secs)));
      WriteSessionDocument(info.fileName, doc.(metadata := metadata));
      summary := Some(SessionSummary(info.fileName, info.title, info.startedAt, secs));
    }

    method AppendJson(key: SessionKey, entry: CaptionEntry, now: LocalTime, instant: int)
      modifies this
      ensures State() == AppendSpec(old(State()), key, entry, now, instant)
    {
      var name := SessionFileName(key, now, instant);
      var info := sessions[key];
      var doc := LoadSessionDocument(files, name, Some(info), now);
      WriteSessionDocument(name, doc.(transcriptions := doc.transcriptions + [entry]));
    }

    method RelabelPlaceholder(key: SessionKey, placeholder: string, newId: nat, newName: string,
                              now: LocalTime, instant: int) returns (updated: bool)
      modifies this
      ensures (updated, State()) == RelabelSpec(old(State()), key, placeholder, newId, newName, now, instant)
    {
      var name := SessionFileName(key, now, instant);
      if name !in files {
        return false;
      }
      var info := sessions[key];
      var doc := LoadSessionDocument(files, name, Some(info), now);
      var entries;
      entries, updated := RelabelEntries(doc.transcriptions, placeholder, newId, newName);
      if updated {
        WriteSessionDocument(name, doc.(transcriptions := entries));
      }
    }
  }
}
