/**
 * Preparing a session transcript for the summary service and reading the
 * summary back: flattening a caption document into plain text, bounding
 * its size, defaulting the session label, and finding the first text in
 * a response body. JSON values are a datatype; an object is its list of
 * members in iteration order.
 */
module Summaries {
  import opened Wrappers
  import opened Text
  import Chunking

  datatype Json =
    | Null
    | Bool(b: bool)
    | Number(n: int)
    | Str(s: string)
    | Array(items: seq<Json>)
    // Member i is keys[i]: values[i]. A parsed serde_json object has as many
    // keys as values and no repeated key; the lemmas below hold for every
    // value of this type, so in particular for those.
    | Object(keys: seq<string>, values: seq<Json>)

  /** Position of the first occurrence of `key`, or the key count when there is none. */
  function KeyIndex(keys: seq<string>, key: string): (i: nat)
    ensures i <= |keys|
    ensures i < |keys| ==> keys[i] == key
    ensures forall j :: 0 <= j < i ==> keys[j] != key
  {
    if keys == [] then 0
    else if keys[0] == key then 0
    else 1 + KeyIndex(keys[1..], key)
  }

  /** `Value::get(key)`: the member of an object; nothing for other values. */
  function Get(v: Json, key: string): Option<Json> {
    if v.Object? && KeyIndex(v.keys, key) < |v.values| then Some(v.values[KeyIndex(v.keys, key)]) else None
  }

  /** `.get(key).and_then(Value::as_str)`. */
  function StrField(v: Json, key: string): Option<string> {
    var f := Get(v, key);
    if f.Some? && f.value.Str? then Some(f.value.s) else None
  }

  predicate IsTrimmedText(t: string) {
    t != [] && Trim(t) == t
  }

  // ---------------------------------------------------------------------
  // first_text / extract_summary_text
  // ---------------------------------------------------------------------

  /**
   * `first_text`: the first non-blank text, trimmed. An array is searched
   * in order; an object offers its `text` string, then whatever its
   * `content` yields, then its member values in order; scalars give none.
   */
  function FirstText(v: Json): (r: Option<string>)
    ensures r.Some? ==> IsTrimmedText(r.value)
    ensures (v.Null? || v.Bool? || v.Number? || v.Str?) ==> r.None?
    decreases v
  {
    match v
    case Array(items) => FirstTextIn(items)
    case Object(keys, values) =>
      var text := StrField(v, "text");
      if text.Some? && Trim(text.value) != [] then
        TrimIdempotent(text.value);
        Some(Trim(text.value))
      else
        var ci := KeyIndex(keys, "content");
        var fromContent := if ci < |values| then FirstText(values[ci]) else None;
        if fromContent.Some? then fromContent else FirstTextIn(values)
    case _ => None
  }

  /** `iter().find_map(first_text)` over array elements or object member values. */
  function FirstTextIn(items: seq<Json>): (r: Option<string>)
    ensures r.Some? ==> IsTrimmedText(r.value)
    decreases items
  {
    if items == [] then None
    else
      var t := FirstText(items[0]);
      if t.Some? then t else FirstTextIn(items[1..])
  }

  /** Which elements have a text. */
  function HitFlags(items: seq<Json>): (r: seq<bool>)
    ensures |r| == |items|
  {
    seq(|items|, i requires 0 <= i < |items| => FirstText(items[i]).Some?)
  }

  /** The index of the first true flag, or the length when there is none. */
  function FirstTrue(bs: seq<bool>): (i: nat)
    ensures i <= |bs|
    ensures i < |bs| ==> bs[i]
    ensures forall j :: 0 <= j < i ==> !bs[j]
  {
    if bs == [] then 0
    else if bs[0] then 0
    else
      var k := FirstTrue(bs[1..]);
      assert forall j :: 1 <= j < k + 1 ==> bs[j] == bs[1..][j - 1];
      1 + k
  }

  /** The position `find_map` stops at. */
  function FirstHit(items: seq<Json>): nat {
    FirstTrue(HitFlags(items))
  }

  /** The search yields the text of the first element that has one, and nothing when none has. */
  lemma {:induction false} FirstTextInOrder(items: seq<Json>)
    ensures FirstHit(items) <= |items|
    ensures FirstTextIn(items) == (if FirstHit(items) < |items| then FirstText(items[FirstHit(items)]) else None)
  {
    if items != [] && FirstText(items[0]).None? {
      var flags := HitFlags(items);
      assert !flags[0];
      assert flags[1..] == HitFlags(items[1..]);
      FirstTextInOrder(items[1..]);
      assert FirstHit(items) == 1 + FirstHit(items[1..]);
      assert FirstHit(items) < |items| ==> items[FirstHit(items)] == items[1..][FirstHit(items[1..])];
    } else if items != [] {
      assert HitFlags(items)[0];
    }
  }

  /** No element before the first hit has a text. */
  lemma BeforeFirstHit(items: seq<Json>, j: nat)
    requires j < FirstHit(items)
    ensures j < |items| && FirstText(items[j]).None?
  {
    assert !HitFlags(items)[j];
  }

  /** A non-blank `text` member wins over `content` and every other member. */
  lemma TextMemberWins(keys: seq<string>, values: seq<Json>, t: string)
    requires Get(Object(keys, values), "text") == Some(Str(t)) && Trim(t) != []
    ensures FirstText(Object(keys, values)) == Some(Trim(t))
  {
  }

  /** Without a usable `text`, whatever `content` yields wins over the other members. */
  lemma ContentBeatsOtherMembers(keys: seq<string>, values: seq<Json>, c: Json)
    requires StrField(Object(keys, values), "text").None? || AllWhitespace(StrField(Object(keys, values), "text").value)
    requires Get(Object(keys, values), "content") == Some(c) && FirstText(c).Some?
    ensures FirstText(Object(keys, values)) == FirstText(c)
  {
    var text := StrField(Object(keys, values), "text");
    assert !(text.Some? && Trim(text.value) != []) by {
      if text.Some? {
        TrimBlank(text.value);
      }
    }
    var ci := KeyIndex(keys, "content");
    assert ci < |values| && values[ci] == c;
  }

  /** With neither, the member values are searched in order. */
  lemma OtherMembersLast(keys: seq<string>, values: seq<Json>)
    requires StrField(Object(keys, values), "text").None? || AllWhitespace(StrField(Object(keys, values), "text").value)
    requires Get(Object(keys, values), "content").None? || FirstText(Get(Object(keys, values), "content").value).None?
    ensures FirstText(Object(keys, values)) == FirstTextIn(values)
  {
    var text := StrField(Object(keys, values), "text");
    assert !(text.Some? && Trim(text.value) != []) by {
      if text.Some? {
        TrimBlank(text.value);
      }
    }
  }

  /** `extract_summary_text`: the first text under `output`, else under `content`. */
  function ExtractSummaryText(body: Json): (r: Option<string>)
    ensures r.Some? ==> IsTrimmedText(r.value)
  {
    var fromOutput := if Get(body, "output").Some? then FirstText(Get(body, "output").value) else None;
    if fromOutput.Some? then fromOutput
    else if Get(body, "content").Some? then FirstText(Get(body, "content").value)
    else None
  }

  /** `output` is preferred; `content` is consulted only when `output` yields nothing. */
  lemma ExtractPrefersOutput(body: Json)
    ensures Get(body, "output").Some? && FirstText(Get(body, "output").value).Some? ==>
      ExtractSummaryText(body) == FirstText(Get(body, "output").value)
    ensures (Get(body, "output").None? || FirstText(Get(body, "output").value).None?) ==>
      ExtractSummaryText(body) == (if Get(body, "content").Some? then FirstText(Get(body, "content").value) else None)
    ensures ExtractSummaryText(body).Some? ==> body.Object?
  {
  }

  // ---------------------------------------------------------------------
  // Session label
  // ---------------------------------------------------------------------

  const DefaultSessionLabel: string := "Discord session"

  /** The label in `request_summary`: the trimmed label, or "Discord session" when blank. */
  function SessionLabel(name: string): (r: string)
    ensures IsTrimmedText(r)
    ensures AllWhitespace(name) ==> r == DefaultSessionLabel
  {
    TrimBlank(name);
    if Trim(name) == [] then
      TrimKeepsClean(DefaultSessionLabel);
      DefaultSessionLabel
    else
      TrimIdempotent(name);
      Trim(name)
  }

  /** A label that is already clean is kept, so defaulting is idempotent. */
  lemma SessionLabelIdempotent(name: string)
    ensures SessionLabel(SessionLabel(name)) == SessionLabel(name)
    ensures !AllWhitespace(name) ==> SessionLabel(name) == Trim(name)
  {
    TrimBlank(name);
    var r := SessionLabel(name);
    assert Trim(r) == r && r != [];
  }

  // ---------------------------------------------------------------------
  // flatten_transcript
  // ---------------------------------------------------------------------

  const TitlePrefix: string := "Session Title: "
  const TranscriptHeading: string := "Transcript:\n"
  const NoEntriesError: string := "transcript JSON did not contain any caption entries"

  function FieldLine(metadata: Json, key: string, prefix: string): string {
    match StrField(metadata, key)
    case Some(s) => prefix + s + "\n"
    case None => ""
  }

  function TitleLine(metadata: Json): string {
    match StrField(metadata, "title")
    case Some(t) => if Trim(t) != [] then TitlePrefix + Trim(t) + "\n" else ""
    case None => ""
  }

  /** The metadata header: present only for an object `metadata`, always closed by an empty line. */
  function Header(value: Json): string {
    var md := Get(value, "metadata");
    if md.Some? && md.value.Object? then HeaderOf(md.value) else ""
  }

  /** The header lines of a metadata object. */
  function HeaderOf(m: Json): string {
    TitleLine(m) + FieldLine(m, "started_at", "Started At: ")
      + FieldLine(m, "ended_at", "Ended At: ") + FieldLine(m, "duration_formatted", "Duration: ") + "\n"
  }

  /** The entries of `transcriptions` when it is an array. */
  function Entries(value: Json): seq<Json> {
    var t := Get(value, "transcriptions");
    if t.Some? && t.value.Array? then t.value.items else []
  }

  function CommentOf(entry: Json): string {
    Trim(StrField(entry, "comment").GetOr(""))
  }

  function SpeakerNameOf(entry: Json): string {
    var sp := Get(entry, "speaker");
    (if sp.Some? then StrField(sp.value, "name") else None).GetOr("Unknown Speaker")
  }

  function TimestampOf(entry: Json): string {
    StrField(entry, "timestamp").GetOr("unknown time")
  }

  /** `[timestamp] speaker: comment`, or nothing for an entry whose trimmed comment is empty. */
  function EntryLine(entry: Json): Option<string> {
    var c := CommentOf(entry);
    if c == [] then None else Some("[" + TimestampOf(entry) + "] " + SpeakerNameOf(entry) + ": " + c + "\n")
  }

  /** The rendered line of every entry, empty for skipped entries. */
  function Rendered(entries: seq<Json>): (r: seq<string>)
    ensures |r| == |entries|
  {
    seq(|entries|, i requires 0 <= i < |entries| => EntryLine(entries[i]).GetOr(""))
  }

  function Lines(entries: seq<Json>): string {
    Chunking.Concat(Rendered(entries))
  }

  /** Which entries are kept. */
  function KeptFlags(entries: seq<Json>): (r: seq<bool>)
    ensures |r| == |entries|
  {
    seq(|entries|, i requires 0 <= i < |entries| => EntryLine(entries[i]).Some?)
  }

  predicate AnyTrue(bs: seq<bool>) {
    bs != [] && (AnyTrue(bs[..|bs| - 1]) || bs[|bs| - 1])
  }

  lemma {:induction false} AnyTrueIff(bs: seq<bool>)
    ensures AnyTrue(bs) <==> exists i :: 0 <= i < |bs| && bs[i]
  {
    if bs != [] {
      var init := bs[..|bs| - 1];
      AnyTrueIff(init);
      assert forall i :: 0 <= i < |init| ==> init[i] == bs[i];
    }
  }

  /** Whether some entry is kept. */
  predicate HasCaption(entries: seq<Json>) {
    AnyTrue(KeptFlags(entries))
  }

  lemma HasCaptionSnoc(entries: seq<Json>, e: Json)
    ensures HasCaption(entries + [e]) <==> HasCaption(entries) || EntryLine(e).Some?
  {
    var fs := KeptFlags(entries + [e]);
    assert fs[..|entries|] == KeptFlags(entries);
    assert fs[|entries|] == EntryLine(e).Some?;
  }

  /** Some entry is kept exactly when one of them has a non-blank comment. */
  lemma HasCaptionIffSomeComment(entries: seq<Json>)
    ensures HasCaption(entries) <==> exists i :: 0 <= i < |entries| && EntryLine(entries[i]).Some?
  {
    AnyTrueIff(KeptFlags(entries));
    var fs := KeptFlags(entries);
    assert forall i :: 0 <= i < |entries| ==> (fs[i] <==> EntryLine(entries[i]).Some?);
  }

  function FlattenSpec(value: Json): Result<string, string> {
    if HasCaption(Entries(value)) then Ok(Header(value) + TranscriptHeading + Lines(Entries(value)))
    else Err(NoEntriesError)
  }

  lemma LinesAppend(a: seq<Json>, b: seq<Json>)
    ensures Lines(a + b) == Lines(a) + Lines(b)
  {
    assert Rendered(a + b) == Rendered(a) + Rendered(b);
    Chunking.ConcatAppend(Rendered(a), Rendered(b));
  }

  lemma LinesOne(e: Json)
    ensures Lines([e]) == EntryLine(e).GetOr("")
  {
    var x := EntryLine(e).GetOr("");
    assert Rendered([e]) == [x];
    Chunking.ConcatOne(x);
  }

  /** Flattening fails exactly when no entry has a comment that is non-blank after trimming. */
  lemma FlattenFailsIffNoCaption(value: Json)
    ensures FlattenSpec(value).Err? <==>
      forall i :: 0 <= i < |Entries(value)| ==> AllWhitespace(StrField(Entries(value)[i], "comment").GetOr(""))
  {
    var es := Entries(value);
    HasCaptionIffSomeComment(es);
    forall i | 0 <= i < |es|
      ensures EntryLine(es[i]).Some? <==> !AllWhitespace(StrField(es[i], "comment").GetOr(""))
    {
      EntryKeptIffComment(es[i]);
    }
  }

  /** Blank entries contribute nothing; a kept entry contributes its line, after the earlier ones. */
  lemma LinesKeepOrder(entries: seq<Json>, e: Json)
    ensures Lines([e] + entries) == EntryLine(e).GetOr("") + Lines(entries)
    ensures EntryLine(e).None? ==> Lines([e] + entries) == Lines(entries)
  {
    LinesAppend([e], entries);
    LinesOne(e);
  }

  /** An entry is kept iff its comment is not blank, and its comment is then trimmed. */
  lemma EntryKeptIffComment(entry: Json)
    ensures EntryLine(entry).Some? <==> !AllWhitespace(StrField(entry, "comment").GetOr(""))
    ensures EntryLine(entry).Some? ==> IsTrimmedText(CommentOf(entry))
  {
    TrimBlank(StrField(entry, "comment").GetOr(""));
    TrimIdempotent(StrField(entry, "comment").GetOr(""));
  }

  /** The title line is present exactly when the title is a string that is not blank. */
  lemma TitleLineShape(m: Json)
    ensures TitleLine(m) != "" <==> StrField(m, "title").Some? && !AllWhitespace(StrField(m, "title").value)
    ensures TitleLine(m) == "" || TitleLine(m)[|TitleLine(m)| - 1] == '\n'
  {
    if StrField(m, "title").Some? {
      TrimBlank(StrField(m, "title").value);
    }
  }

  lemma FieldLineShape(m: Json, key: string, prefix: string)
    ensures FieldLine(m, key, prefix) == "" || FieldLine(m, key, prefix)[|FieldLine(m, key, prefix)| - 1] == '\n'
  {
  }

  /**
   * The header is empty without a metadata object; otherwise it starts
   * with the title line (see `TitleLineShape`) and ends with an empty line.
   */
  lemma HeaderShape(value: Json)
    ensures var h := Header(value); var md := Get(value, "metadata");
      && (!(md.Some? && md.value.Object?) ==> h == "")
      && (md.Some? && md.value.Object? ==>
            && |h| >= |TitleLine(md.value)| + 1 && h[..|TitleLine(md.value)|] == TitleLine(md.value)
            && h[|h| - 1] == '\n' && (|h| >= 2 ==> h[|h| - 2] == '\n'))
  {
    var md := Get(value, "metadata");
    if md.Some? && md.value.Object? {
      HeaderOfShape(md.value);
    }
  }

  lemma HeaderOfShape(m: Json)
    ensures var h := HeaderOf(m);
      && |h| >= |TitleLine(m)| + 1 && h[..|TitleLine(m)|] == TitleLine(m)
      && h[|h| - 1] == '\n' && (|h| >= 2 ==> h[|h| - 2] == '\n')
  {
    TitleLineShape(m);
    FieldLineShape(m, "started_at", "Started At: ");
    FieldLineShape(m, "ended_at", "Ended At: ");
    FieldLineShape(m, "duration_formatted", "Duration: ");
    HeaderEnds(TitleLine(m), FieldLine(m, "started_at", "Started At: "),
      FieldLine(m, "ended_at", "Ended At: "), FieldLine(m, "duration_formatted", "Duration: "));
  }

  /** Lines that each end in a newline, closed by one more, end in two newlines. */
  lemma HeaderEnds(t: string, l1: string, l2: string, l3: string)
    requires t == [] || t[|t| - 1] == '\n'
    requires l1 == [] || l1[|l1| - 1] == '\n'
    requires l2 == [] || l2[|l2| - 1] == '\n'
    requires l3 == [] || l3[|l3| - 1] == '\n'
    ensures var h := t + l1 + l2 + l3 + "\n";
      h[|h| - 1] == '\n' && (|h| >= 2 ==> h[|h| - 2] == '\n')
    ensures var h := t + l1 + l2 + l3 + "\n";
      |h| >= |t| + 1 && h[..|t|] == t
  {
    LastIsNewline(t, l1);
    LastIsNewline(t + l1, l2);
    LastIsNewline(t + l1 + l2, l3);
    var body := t + l1 + l2 + l3;
    var h := body + "\n";
    assert h[|h| - 1] == '\n';
    if |h| >= 2 {
      assert h[|h| - 2] == body[|body| - 1];
    }
    assert body[..|t|] == t;
    assert h[..|t|] == body[..|t|];
  }

  lemma LastIsNewline(a: string, b: string)
    requires a == [] || a[|a| - 1] == '\n'
    requires b == [] || b[|b| - 1] == '\n'
    ensures a + b == [] || (a + b)[|a + b| - 1] == '\n'
  {
    if b == [] {
      assert a + b == a;
    }
  }

  /** One more entry: its line, if any, follows the earlier ones. */
  lemma FlattenStep(entries: seq<Json>, i: nat)
    requires i < |entries|
    ensures Lines(entries[..i + 1]) == Lines(entries[..i]) + EntryLine(entries[i]).GetOr("")
    ensures EntryLine(entries[i]).None? ==> Lines(entries[..i + 1]) == Lines(entries[..i])
    ensures HasCaption(entries[..i + 1]) <==> HasCaption(entries[..i]) || EntryLine(entries[i]).Some?
  {
    assert entries[..i + 1] == entries[..i] + [entries[i]];
    LinesAppend(entries[..i], [entries[i]]);
    LinesOne(entries[i]);
    HasCaptionSnoc(entries[..i], entries[i]);
    assert Lines(entries[..i]) + "" == Lines(entries[..i]);
  }

  /** The metadata part of `flatten_transcript`, pushing one line per present field. */
  method WriteHeader(value: Json) returns (buffer: string)
    ensures buffer == Header(value)
  {
    buffer := "";
    var md := Get(value, "metadata");
    if md.Some? && md.value.Object? {
      var m := md.value;
      var title := StrField(m, "title");
      if title.Some? {
        var trimmed := Trim(title.value);
        if trimmed != [] {
          buffer := TitlePrefix + trimmed + "\n";
        }
      }
      var started := StrField(m, "started_at");
      if started.Some? {
        buffer := buffer + ("Started At: " + started.value + "\n");
      } else {
        assert buffer + "" == buffer;
      }
      var ended := StrField(m, "ended_at");
      if ended.Some? {
        buffer := buffer + ("Ended At: " + ended.value + "\n");
      } else {
        assert buffer + "" == buffer;
      }
      var duration := StrField(m, "duration_formatted");
      if duration.Some? {
        buffer := buffer + ("Duration: " + duration.value + "\n");
      } else {
        assert buffer + "" == buffer;
      }
      buffer := buffer + "\n";
    }
  }

  /** The entry loop of `flatten_transcript`: one line per kept entry, and whether any was written. */
  method WriteEntries(entries: seq<Json>) returns (buffer: string, wroteAny: bool)
    ensures buffer == Lines(entries)
    ensures wroteAny == HasCaption(entries)
  {
    buffer := "";
    wroteAny := false;
    for i := 0 to |entries|
      invariant buffer == Lines(entries[..i])
      invariant wroteAny == HasCaption(entries[..i])
    {
      var entry := entries[i];
      FlattenStep(entries, i);
      var timestamp := TimestampOf(entry);
      var speaker := SpeakerNameOf(entry);
      var comment := CommentOf(entry);
      if comment == [] {
        continue;
      }
      buffer := buffer + ("[" + timestamp + "] " + speaker + ": " + comment + "\n");
      wroteAny := true;
    }
    assert entries[..|entries|] == entries;
  }

  /** `flatten_transcript`: the header, the heading, then the entries; an error when no entry was written. */
  method FlattenTranscript(value: Json) returns (r: Result<string, string>)
    ensures r == FlattenSpec(value)
  {
    var buffer := WriteHeader(value);
    buffer := buffer + TranscriptHeading;
    var lines, wroteAny := WriteEntries(Entries(value));
    buffer := buffer + lines;
    if !wroteAny {
      return Err(NoEntriesError);
    }
    return Ok(buffer);
  }

  // ---------------------------------------------------------------------
  // truncate_transcript
  // ---------------------------------------------------------------------

  /** The cap on the uploaded transcript, in UTF-8 bytes. */
  const MaxTranscriptBytes: nat := 60000

  const TruncationMarker: string := "\n\n[Transcript truncated]"

  /** The number of bytes of one character in UTF-8. */
  function Utf8Len(c: char): (n: nat)
    ensures 1 <= n <= 4
  {
    if c as int < 0x80 then 1
    else if c as int < 0x800 then 2
    else if c as int < 0x10000 then 3
    else 4
  }

  /** `str::len`: the UTF-8 length in bytes. */
  function ByteLen(s: string): nat {
    if s == [] then 0 else Utf8Len(s[0]) + ByteLen(s[1..])
  }

  lemma {:induction false} ByteLenAppend(a: string, b: string)
    ensures ByteLen(a + b) == ByteLen(a) + ByteLen(b)
  {
    if a != [] {
      assert (a + b)[0] == a[0];
      assert (a + b)[1..] == a[1..] + b;
      ByteLenAppend(a[1..], b);
    } else {
      assert a + b == b;
    }
  }

  lemma {:induction false} ByteLenAtLeastLength(s: string)
    ensures ByteLen(s) >= |s|
  {
    if s != [] {
      ByteLenAtLeastLength(s[1..]);
    }
  }

  lemma ByteLenSnoc(s: string, k: nat)
    requires k < |s|
    ensures ByteLen(s[..k + 1]) == ByteLen(s[..k]) + Utf8Len(s[k])
  {
    assert s[..k + 1] == s[..k] + [s[k]];
    ByteLenAppend(s[..k], [s[k]]);
    assert [s[k]][1..] == [];
  }

  /** Byte offsets of prefixes grow strictly with the prefix. */
  lemma ByteLenPrefixGrows(s: string, i: nat, j: nat)
    requires i <= |s| && j <= |s|
    ensures i < j ==> ByteLen(s[..i]) < ByteLen(s[..j])
  {
    if i < j {
      assert s[..j] == s[..i] + s[i..j];
      ByteLenAppend(s[..i], s[i..j]);
      ByteLenAtLeastLength(s[i..j]);
    }
  }

  /** The number of leading characters that fit in `limit` bytes. */
  function CutIndex(s: string, limit: nat): (k: nat)
    ensures k <= |s| && ByteLen(s[..k]) <= limit
    ensures k < |s| ==> ByteLen(s[..k + 1]) > limit
  {
    if s == [] || Utf8Len(s[0]) > limit then
      assert s != [] ==> s[..1] == [s[0]] && ByteLen(s[..1]) == Utf8Len(s[0]) + ByteLen([]);
      0
    else
      var k' := CutIndex(s[1..], limit - Utf8Len(s[0]));
      assert s[..k' + 1] == [s[0]] + s[1..][..k'];
      assert k' + 1 < |s| ==> s[..k' + 2] == [s[0]] + s[1..][..k' + 1];
      k' + 1
  }

  lemma CutIndexWithinLongInput(s: string, limit: nat)
    requires ByteLen(s) > limit
    ensures CutIndex(s, limit) < |s|
  {
    assert s[..|s|] == s;
  }

  /** A prefix ending exactly at byte `limit` ends at `CutIndex`. */
  lemma CutIndexUnique(s: string, limit: nat, j: nat)
    requires j <= |s| && ByteLen(s[..j]) <= limit
    requires j < |s| ==> ByteLen(s[..j + 1]) > limit
    ensures j == CutIndex(s, limit)
  {
    var k := CutIndex(s, limit);
    if j < |s| {
      ByteLenPrefixGrows(s, j + 1, k);
    }
    if k < |s| {
      ByteLenPrefixGrows(s, k + 1, j);
    }
  }

  predicate IsCharBoundary(s: string, b: nat) {
    exists k :: 0 <= k <= |s| && ByteLen(s[..k]) == b
  }

  /**
   * `truncate_transcript` as written: `&transcript[..60000]` slices at a
   * byte offset, which panics (here: no result) when that offset falls
   * inside a multi-byte character.
   */
  function TruncateAsWritten(s: string): Option<string> {
    if ByteLen(s) <= MaxTranscriptBytes then Some(s)
    else
      var k := CutIndex(s, MaxTranscriptBytes);
      if ByteLen(s[..k]) == MaxTranscriptBytes then Some(s[..k] + TruncationMarker) else None
  }

  /** The as-written truncation fails exactly when byte 60000 is not a character boundary of a longer input. */
  lemma TruncateAsWrittenFailsOffBoundary(s: string)
    ensures TruncateAsWritten(s).None? <==> ByteLen(s) > MaxTranscriptBytes && !IsCharBoundary(s, MaxTranscriptBytes)
  {
    if ByteLen(s) > MaxTranscriptBytes && IsCharBoundary(s, MaxTranscriptBytes) {
      var j :| 0 <= j <= |s| && ByteLen(s[..j]) == MaxTranscriptBytes;
      if j < |s| {
        ByteLenPrefixGrows(s, j, j + 1);
      }
      CutIndexUnique(s, MaxTranscriptBytes, j);
    }
  }

  lemma {:induction false} AsciiByteLen(s: string)
    requires forall i :: 0 <= i < |s| ==> s[i] as int < 0x80
    ensures ByteLen(s) == |s|
  {
    if s != [] {
      AsciiByteLen(s[1..]);
    }
  }

  /** 59999 ASCII letters followed by one two-byte letter: byte 60000 is the middle of the last character. */
  lemma TruncatePanicsMidCharacter()
    ensures var s := seq(59999, _ => 'a') + ['é'];
      ByteLen(s) == 60001 && TruncateAsWritten(s).None?
  {
    var a := seq(59999, _ => 'a');
    var s := a + ['é'];
    AsciiByteLen(a);
    ByteLenAppend(a, ['é']);
    assert ByteLen(['é']) == 2;
    assert s[..59999] == a && s[..60000] == s;
    CutIndexUnique(s, MaxTranscriptBytes, 59999);
  }

  /** The corrected truncation: cut at the last character boundary at or before byte 60000. */
  function Truncate(s: string): (r: string)
    ensures ByteLen(s) <= MaxTranscriptBytes ==> r == s
  {
    if ByteLen(s) <= MaxTranscriptBytes then s
    else s[..CutIndex(s, MaxTranscriptBytes)] + TruncationMarker
  }

  /**
   * A long transcript keeps its longest prefix of at most 60000 bytes,
   * which is more than 59996 bytes, followed by the marker.
   */
  lemma TruncateKeepsLongestPrefix(s: string)
    requires ByteLen(s) > MaxTranscriptBytes
    ensures var k := CutIndex(s, MaxTranscriptBytes);
      && k < |s| && Truncate(s) == s[..k] + TruncationMarker
      && MaxTranscriptBytes < ByteLen(s[..k]) + 4 && ByteLen(s[..k]) <= MaxTranscriptBytes
      && ByteLen(s[..k + 1]) > MaxTranscriptBytes
  {
    CutKeepsLongestPrefix(s, MaxTranscriptBytes);
  }

  /** On a longer input the cut falls inside it, less than one character short of the limit. */
  lemma CutKeepsLongestPrefix(s: string, limit: nat)
    requires ByteLen(s) > limit
    ensures var k := CutIndex(s, limit);
      k < |s| && limit < ByteLen(s[..k]) + 4 && ByteLen(s[..k]) <= limit && ByteLen(s[..k + 1]) > limit
  {
    var k := CutIndex(s, limit);
    CutIndexWithinLongInput(s, limit);
    ByteLenSnoc(s, k);
  }

  /** Whenever the as-written truncation succeeds, the corrected one agrees with it. */
  lemma TruncateAgreesOnBoundary(s: string)
    requires TruncateAsWritten(s).Some?
    ensures TruncateAsWritten(s).value == Truncate(s)
  {
  }

  /** An ASCII transcript never hits the failing slice. */
  lemma AsciiTruncationSucceeds(s: string)
    requires forall i :: 0 <= i < |s| ==> s[i] as int < 0x80
    ensures TruncateAsWritten(s).Some?
  {
    AsciiByteLen(s);
    if |s| > MaxTranscriptBytes {
      AsciiByteLen(s[..MaxTranscriptBytes]);
      assert IsCharBoundary(s, MaxTranscriptBytes);
      TruncateAsWrittenFailsOffBoundary(s);
    }
  }

  // ---------------------------------------------------------------------
  // The request
  // ---------------------------------------------------------------------

  datatype SummaryRequest = SummaryRequest(model: string, prompt: string, transcript: string)

  /**
   * The user-visible parts of the request payload built by `request_summary`.
   * The transcript sent is the corrected cut `Truncate`, which also covers the
   * inputs on which the byte slice of `truncate_transcript` panics.
   */
  function BuildRequest(model: string, transcript: string, name: string): (r: SummaryRequest)
    ensures r.model == model
    ensures r.prompt == "Summarize the session titled '" + SessionLabel(name) + "'."
  {
    SummaryRequest(model, "Summarize the session titled '" + SessionLabel(name) + "'.", Truncate(transcript))
  }

  /** The uploaded transcript never exceeds 60000 bytes plus the marker, and a short one is sent whole. */
  lemma RequestTranscriptBounded(model: string, transcript: string, name: string)
    ensures var t := BuildRequest(model, transcript, name).transcript;
      && ByteLen(t) <= MaxTranscriptBytes + ByteLen(TruncationMarker)
      && (ByteLen(transcript) <= MaxTranscriptBytes ==> t == transcript)
  {
    if ByteLen(transcript) > MaxTranscriptBytes {
      var k := CutIndex(transcript, MaxTranscriptBytes);
      ByteLenAppend(transcript[..k], TruncationMarker);
    }
  }
}
