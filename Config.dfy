/**
 * Bot configuration read from the environment. The environment is a
 * map from variable names to values; the current directory (which the
 * operating system may fail to report) and the result of searching PATH
 * for `whisper` are parameters. Paths follow Unix rules: a path is
 * absolute when it starts with '/'.
 */
module Config {
  import opened Wrappers
  import opened Text

  type Env = map<string, string>

  function Lookup(env: Env, key: string): (r: Option<string>)
    ensures r.Some? <==> key in env
    ensures r.Some? ==> r.value == env[key]
  {
    if key in env then Some(env[key]) else None
  }

  // ---------------------------------------------------------------------
  // parse_bool
  // ---------------------------------------------------------------------

  const TrueWords: set<string> := {"1", "true", "yes", "on"}
  const FalseWords: set<string> := {"0", "false", "no", "off"}

  /** The form `parse_bool` matches on: trimmed, then ASCII-lowercased. */
  function Normalise(raw: string): string {
    ToAsciiLower(Trim(raw))
  }

  function ParseBool(raw: string): (r: Option<bool>)
    ensures r == Some(true) <==> Normalise(raw) in TrueWords
    ensures r == Some(false) ==> Normalise(raw) in FalseWords
    ensures r == None <==> Normalise(raw) !in TrueWords && Normalise(raw) !in FalseWords
  {
    var n := Normalise(raw);
    if n in TrueWords then Some(true)
    else if n in FalseWords then Some(false)
    else None
  }

  /** Surrounding whitespace does not change the answer. */
  lemma ParseBoolIgnoresPadding(w1: string, raw: string, w2: string)
    requires AllWhitespace(w1) && AllWhitespace(w2)
    ensures ParseBool(w1 + raw + w2) == ParseBool(raw)
  {
    TrimIgnoresPadding(w1, raw, w2);
  }

  /** ASCII case does not change the answer. */
  lemma ParseBoolIgnoresCase(raw: string)
    ensures ParseBool(ToAsciiLower(raw)) == ParseBool(raw)
  {
    TrimLowerCommute(raw);
    LowerIdempotent(Trim(raw));
  }

  predicate NoAsciiUpper(s: string) {
    forall i :: 0 <= i < |s| ==> !IsAsciiUpper(s[i])
  }

  lemma {:induction false} LowerKeepsLowercase(s: string)
    requires NoAsciiUpper(s)
    ensures ToAsciiLower(s) == s
  {
    if s != [] {
      assert NoAsciiUpper(s[1..]);
      LowerKeepsLowercase(s[1..]);
    }
  }

  /** A word with no surrounding whitespace and no upper-case letters is its own normal form. */
  lemma NormalisedWord(s: string)
    requires s != [] && !IsWhitespace(s[0]) && !IsWhitespace(s[|s| - 1])
    requires NoAsciiUpper(s)
    ensures Normalise(s) == s
  {
    assert TrimStart(s) == s;
    assert TrimEnd(s) == s;
    LowerKeepsLowercase(s);
  }

  /** A word already in normal form is read by the list it belongs to. */
  lemma KnownWord(w: string, b: bool)
    requires w != [] && !IsWhitespace(w[0]) && !IsWhitespace(w[|w| - 1]) && NoAsciiUpper(w)
    requires if b then w in TrueWords else w in FalseWords && w !in TrueWords
    ensures ParseBool(w) == Some(b)
  {
    NormalisedWord(w);
  }

  /** The eight words `parse_bool` matches: "1", "true", "yes" and "on" mean true, "0", "false", "no" and "off" false. */
  lemma ParseBoolWords(w: string)
    requires w in TrueWords || w in FalseWords
    ensures ParseBool(w) == Some(w in TrueWords)
  {
    if w == "1" { KnownWord(w, true); }
    else if w == "true" { KnownWord(w, true); }
    else if w == "yes" { KnownWord(w, true); }
    else if w == "on" { KnownWord(w, true); }
    else if w == "0" { KnownWord(w, false); }
    else if w == "false" { KnownWord(w, false); }
    else if w == "no" { KnownWord(w, false); }
    else { KnownWord(w, false); }
  }

  // ---------------------------------------------------------------------
  // Integer parsing (`str::parse::<u32>` and `str::parse::<i32>`)
  // ---------------------------------------------------------------------

  const U32Limit: nat := 0x1_0000_0000
  const I32Limit: nat := 0x8000_0000

  /** An optional '+', then at least one digit, within the range of u32. */
  function ParseU32(s: string): (r: Option<nat>)
    ensures r.Some? ==> r.value < U32Limit
  {
    var digits := if |s| > 0 && s[0] == '+' then s[1..] else s;
    if digits == [] || !AllDigits(digits) then None
    else
      var v := ParseDecimal(digits);
      if v < U32Limit then Some(v) else None
  }

  /** An optional sign, then at least one digit, within the range of i32. */
  function ParseI32(s: string): (r: Option<int>)
    ensures r.Some? ==> -(I32Limit as int) <= r.value < I32Limit as int
  {
    var negative := |s| > 0 && s[0] == '-';
    var digits := if |s| > 0 && (s[0] == '+' || s[0] == '-') then s[1..] else s;
    if digits == [] || !AllDigits(digits) then None
    else
      var v: int := ParseDecimal(digits);
      if negative then (if v <= I32Limit then Some(-v) else None)
      else if v < I32Limit then Some(v) else None
  }

  /** The decimal rendering of every u32 parses back to it. */
  lemma ParseU32Decimal(n: nat)
    requires n < U32Limit
    ensures ParseU32(NatToString(n)) == Some(n)
  {
    ParseNatToString(n);
  }

  lemma ParseI32Decimal(n: nat)
    requires n < I32Limit
    ensures ParseI32(NatToString(n)) == Some(n)
    ensures ParseI32("-" + NatToString(n)) == Some(-(n as int))
  {
    ParseNatToString(n);
    assert ("-" + NatToString(n))[1..] == NatToString(n);
  }

  // ---------------------------------------------------------------------
  // Paths
  // ---------------------------------------------------------------------

  predicate IsAbsolute(p: string) {
    |p| > 0 && p[0] == '/'
  }

  /**
   * `PathBuf::join`: an absolute path, or any path onto an empty base, replaces
   * the base; otherwise it is appended after a separator.
   */
  function Join(base: string, p: string): (r: string)
    ensures IsAbsolute(p) || base == [] ==> r == p
    ensures !IsAbsolute(p) ==> |r| >= |p| && r[|r| - |p|..] == p
    ensures !IsAbsolute(p) ==> |r| >= |base| && r[..|base|] == base && |r| <= |base| + 1 + |p|
    ensures !IsAbsolute(p) && IsAbsolute(base) ==> IsAbsolute(r)
  {
    if IsAbsolute(p) || base == [] then p
    else if base[|base| - 1] == '/' then base + p
    else base + "/" + p
  }

  const CwdError := "Unable to read current directory"

  /** `absolute_path`: absolute paths are kept; relative ones are joined onto the current directory. */
  function AbsolutePath(cwd: Option<string>, p: string): (r: Result<string, string>)
    ensures IsAbsolute(p) ==> r == Ok(p)
    ensures r.Err? <==> !IsAbsolute(p) && cwd.None?
    ensures r.Err? ==> r.error == CwdError
    ensures r.Ok? && cwd.Some? && IsAbsolute(cwd.value) ==> IsAbsolute(r.value)
  {
    if IsAbsolute(p) then Ok(p)
    else match cwd
      case None => Err(CwdError)
      case Some(dir) => Ok(Join(dir, p))
  }

  // ---------------------------------------------------------------------
  // from_env
  // ---------------------------------------------------------------------

  const DefaultSampleRate: nat := 16000
  const DefaultModelName := "base"
  const DefaultModelDir := "models"
  const DefaultCaptionDir := "captions"
  const DefaultEntrySound := "resources/announce.mp3"
  const DefaultOpenAiModel := "gpt-4o-mini"
  const MissingTokenError := "Missing DISCORD_TOKEN in environment"
  const SummaryFlowError := "INCLUDE_TRANSCRIPTS_WITH_SUMMARY=false requires OPENAPI_KEY; summary-only flow is not possible without an OpenAI key"
  const WhisperNotFoundError := "Whisper CLI not found. Set WHISPER_CLI_PATH or add `whisper` to PATH"

  datatype BotConfig = BotConfig(
    discordToken: string,
    whisperModelPath: string,
    captionDir: string,
    sampleRate: nat,
    whisperLanguage: Option<string>,
    whisperCliPath: Option<string>,
    whisperModelName: string,
    whisperUseGpu: bool,
    whisperGpuDevice: int,
    entrySoundPath: string,
    openAiApiKey: Option<string>,
    openAiModel: string,
    includeTranscriptsWithSummary: bool)

  /** DECODE_SAMPLE_RATE when it parses as a positive u32, else 16000. */
  function SampleRate(env: Env): (r: nat)
    ensures 0 < r < U32Limit
  {
    match Lookup(env, "DECODE_SAMPLE_RATE")
      case Some(raw) =>
        (match ParseU32(raw)
           case Some(rate) => if rate > 0 then rate else DefaultSampleRate
           case None => DefaultSampleRate)
      case None => DefaultSampleRate
  }

  lemma SampleRateFromEnv(env: Env, n: nat)
    requires 0 < n < U32Limit
    requires "DECODE_SAMPLE_RATE" in env && env["DECODE_SAMPLE_RATE"] == NatToString(n)
    ensures SampleRate(env) == n
  {
    ParseU32Decimal(n);
  }

  /** A missing, malformed or zero rate falls back to 16000. */
  lemma SampleRateFallsBack(env: Env)
    requires "DECODE_SAMPLE_RATE" in env ==> ParseU32(env["DECODE_SAMPLE_RATE"]) in {None, Some(0)}
    ensures SampleRate(env) == DefaultSampleRate
  {
  }

  function WhisperModelName(env: Env): string {
    Lookup(env, "WHISPER_MODEL_NAME").GetOr(DefaultModelName)
  }

  function ModelFileName(name: string): (r: string)
    ensures !IsAbsolute(r)
  {
    "ggml-" + name + ".bin"
  }

  /** WHISPER_MODEL_PATH made absolute, or `ggml-{name}.bin` inside the (absolute) model directory. */
  function WhisperModelPath(env: Env, cwd: Option<string>): Result<string, string> {
    match Lookup(env, "WHISPER_MODEL_PATH")
      case Some(raw) => AbsolutePath(cwd, raw)
      case None =>
        var dir := Lookup(env, "WHISPER_MODEL_DIR").GetOr(DefaultModelDir);
        match AbsolutePath(cwd, dir)
          case Err(e) => Err(e)
          case Ok(resolved) => Ok(Join(resolved, ModelFileName(WhisperModelName(env))))
  }

  /** Without an explicit model path, the model file is `ggml-{name}.bin`, the name defaulting to "base". */
  lemma ModelPathNamesModelFile(env: Env, cwd: Option<string>)
    requires "WHISPER_MODEL_PATH" !in env
    requires WhisperModelPath(env, cwd).Ok?
    ensures var p := WhisperModelPath(env, cwd).value;
      var f := ModelFileName(WhisperModelName(env));
      |p| >= |f| && p[|p| - |f|..] == f
    ensures "WHISPER_MODEL_NAME" !in env ==> ModelFileName(WhisperModelName(env)) == "ggml-base.bin"
  {
    var dir := Lookup(env, "WHISPER_MODEL_DIR").GetOr(DefaultModelDir);
    var resolved := AbsolutePath(cwd, dir).value;
    var f := ModelFileName(WhisperModelName(env));
    assert WhisperModelPath(env, cwd) == Ok(Join(resolved, f));
    JoinEndsWith(resolved, f);
    if "WHISPER_MODEL_NAME" !in env {
      DefaultModelFile();
    }
  }

  lemma DefaultModelFile()
    ensures ModelFileName(DefaultModelName) == "ggml-base.bin"
  {
  }

  lemma JoinEndsWith(base: string, p: string)
    requires !IsAbsolute(p)
    ensures var r := Join(base, p); |r| >= |p| && r[|r| - |p|..] == p
  {
  }

  lemma ModelPathDefault(env: Env, dir: string)
    requires "WHISPER_MODEL_PATH" !in env && "WHISPER_MODEL_DIR" !in env && "WHISPER_MODEL_NAME" !in env
    requires IsAbsolute(dir) && dir[|dir| - 1] != '/'
    ensures WhisperModelPath(env, Some(dir)) == Ok(dir + "/models/ggml-base.bin")
  {
    var models := dir + "/" + DefaultModelDir;
    assert models[|models| - 1] == 's';
    assert ModelFileName(DefaultModelName) == "ggml-base.bin";
    assert models + "/" + "ggml-base.bin" == dir + "/models/ggml-base.bin";
  }

  /** WHISPER_CLI_PATH, made absolute when it is set. */
  function WhisperCliPath(env: Env, cwd: Option<string>): (r: Result<Option<string>, string>)
    ensures "WHISPER_CLI_PATH" !in env ==> r == Ok(None)
    ensures "WHISPER_CLI_PATH" in env ==> (r.Ok? <==> AbsolutePath(cwd, env["WHISPER_CLI_PATH"]).Ok?)
  {
    match Lookup(env, "WHISPER_CLI_PATH")
      case None => Ok(None)
      case Some(raw) =>
        match AbsolutePath(cwd, raw)
          case Err(e) => Err(e)
          case Ok(p) => Ok(Some(p))
  }

  function IncludeTranscripts(env: Env): bool {
    match Lookup(env, "INCLUDE_TRANSCRIPTS_WITH_SUMMARY")
      case Some(raw) => ParseBool(raw).GetOr(true)
      case None => true
  }

  function GpuDevice(env: Env): int {
    match Lookup(env, "WHISPER_GPU_DEVICE")
      case Some(raw) => ParseI32(raw).GetOr(0)
      case None => 0
  }

  function UseGpu(env: Env, cudaBuild: bool): bool {
    match Lookup(env, "WHISPER_USE_GPU")
      case Some(raw) => ParseBool(raw).GetOr(cudaBuild)
      case None => cudaBuild
  }

  /**
   * `from_env`. The first failure wins, in the order the source reads
   * the variables: the token, the CLI path, the model path, the entry
   * sound path, then the summary-flow check.
   */
  function FromEnv(env: Env, cwd: Option<string>, cudaBuild: bool): Result<BotConfig, string> {
    if "DISCORD_TOKEN" !in env then Err(MissingTokenError)
    else
      var cli := WhisperCliPath(env, cwd);
      if cli.Err? then Err(cli.error)
      else
        var model := WhisperModelPath(env, cwd);
        if model.Err? then Err(model.error)
        else
          var sound := AbsolutePath(cwd, Lookup(env, "ENTRY_SOUND_PATH").GetOr(DefaultEntrySound));
          if sound.Err? then Err(sound.error)
          else
            var key := Lookup(env, "OPENAPI_KEY");
            var withTranscripts := IncludeTranscripts(env);
            if key.None? && !withTranscripts then Err(SummaryFlowError)
            else Ok(BotConfig(
              env["DISCORD_TOKEN"],
              model.value,
              Lookup(env, "CAPTION_OUTPUT_DIR").GetOr(DefaultCaptionDir),
              SampleRate(env),
              Lookup(env, "WHISPER_LANGUAGE"),
              cli.value,
              WhisperModelName(env),
              UseGpu(env, cudaBuild),
              GpuDevice(env),
              sound.value,
              key,
              Lookup(env, "OPENAPI_MODEL").GetOr(DefaultOpenAiModel),
              withTranscripts))
  }

  lemma FromEnvNeedsToken(env: Env, cwd: Option<string>, cudaBuild: bool)
    requires "DISCORD_TOKEN" !in env
    ensures FromEnv(env, cwd, cudaBuild) == Err(MissingTokenError)
  {
  }

  /**
   * With a token and a readable current directory, configuration fails
   * exactly when there is no OpenAI key and transcripts are not to be
   * included, and the failure names the summary-only flow.
   */
  lemma FromEnvSummaryFlowCheck(env: Env, dir: string, cudaBuild: bool)
    requires "DISCORD_TOKEN" in env
    ensures var r := FromEnv(env, Some(dir), cudaBuild);
      && (r.Err? <==> "OPENAPI_KEY" !in env && !IncludeTranscripts(env))
      && (r.Err? ==> r.error == SummaryFlowError)
  {
    PathsResolve(env, dir);
  }

  /** With a readable current directory every path setting resolves. */
  lemma PathsResolve(env: Env, dir: string)
    ensures WhisperCliPath(env, Some(dir)).Ok?
    ensures WhisperModelPath(env, Some(dir)).Ok?
    ensures AbsolutePath(Some(dir), Lookup(env, "ENTRY_SOUND_PATH").GetOr(DefaultEntrySound)).Ok?
  {
  }

  /** The default entry sound is relative, so an unreadable current directory is fatal unless ENTRY_SOUND_PATH is absolute. */
  lemma FromEnvNeedsCwd(env: Env, cudaBuild: bool)
    requires "DISCORD_TOKEN" in env && "ENTRY_SOUND_PATH" !in env
    ensures FromEnv(env, None, cudaBuild) == Err(CwdError)
  {
  }

  /** A successful configuration carries the settings the source promises. */
  lemma FromEnvProperties(env: Env, cwd: Option<string>, cudaBuild: bool)
    requires FromEnv(env, cwd, cudaBuild).Ok?
    ensures var c := FromEnv(env, cwd, cudaBuild).value;
      && c.sampleRate > 0
      && (c.openAiApiKey.None? ==> c.includeTranscriptsWithSummary)
      && (cwd.Some? && IsAbsolute(cwd.value) ==> IsAbsolute(c.whisperModelPath) && IsAbsolute(c.entrySoundPath))
      && (c.whisperCliPath.Some? && cwd.Some? && IsAbsolute(cwd.value) ==> IsAbsolute(c.whisperCliPath.value))
  {
  }

  /** None of the optional variables is set (OPENAPI_KEY may or may not be). */
  predicate NoOptionalSettings(env: Env) {
    && "WHISPER_CLI_PATH" !in env && "CAPTION_OUTPUT_DIR" !in env && "DECODE_SAMPLE_RATE" !in env
    && "WHISPER_LANGUAGE" !in env && "WHISPER_MODEL_NAME" !in env && "WHISPER_USE_GPU" !in env
    && "WHISPER_GPU_DEVICE" !in env && "WHISPER_MODEL_PATH" !in env && "WHISPER_MODEL_DIR" !in env
    && "ENTRY_SOUND_PATH" !in env && "OPENAPI_MODEL" !in env && "INCLUDE_TRANSCRIPTS_WITH_SUMMARY" !in env
  }

  /** With only the token set, configuration succeeds and every other setting takes its default. */
  lemma FromEnvDefaults(env: Env, dir: string, cudaBuild: bool)
    requires "DISCORD_TOKEN" in env && NoOptionalSettings(env)
    requires IsAbsolute(dir) && dir[|dir| - 1] != '/'
    ensures var r := FromEnv(env, Some(dir), cudaBuild);
      && r.Ok?
      && r.value.discordToken == env["DISCORD_TOKEN"]
      && r.value.sampleRate == 16000
      && r.value.whisperModelName == "base"
      && r.value.whisperModelPath == dir + "/models/ggml-base.bin"
      && r.value.captionDir == "captions"
      && r.value.entrySoundPath == dir + "/" + DefaultEntrySound
      && r.value.whisperCliPath.None? && r.value.whisperLanguage.None?
      && r.value.whisperUseGpu == cudaBuild
      && r.value.whisperGpuDevice == 0
      && r.value.openAiModel == "gpt-4o-mini"
      && r.value.includeTranscriptsWithSummary
  {
    ModelPathDefault(env, dir);
  }

  /** `locate_whisper_cli`: the configured path, else the one found on PATH, else an error. */
  function LocateWhisperCli(config: BotConfig, onPath: Option<string>): (r: Result<string, string>)
    ensures config.whisperCliPath.Some? ==> r == Ok(config.whisperCliPath.value)
    ensures config.whisperCliPath.None? && onPath.Some? ==> r == Ok(onPath.value)
    ensures r.Err? <==> config.whisperCliPath.None? && onPath.None?
  {
    match config.whisperCliPath
      case Some(p) => Ok(p)
      case None =>
        match onPath
          case Some(p) => Ok(p)
          case None => Err(WhisperNotFoundError)
  }
}
