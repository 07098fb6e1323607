/** server/server/config.py: reading settings from the process environment, converted to
    the type of each setting's default, and the settings object built from them. */
module Settings {
  import opened Text

  /** The process environment after the `.env` file was loaded. */
  type Env = map<string, string>

  /** The three kinds of default the settings use; a lookup keeps the raw string when an
      integer setting does not parse, so a value may differ in kind from its default. */
  datatype EnvValue = BoolValue(b: bool) | IntValue(i: int) | StrValue(s: string)

  /** The spellings that make a boolean setting true, once lower-cased. */
  predicate IsTrueSpelling(v: string) {
    var l := Lower(v);
    l == "true" || l == "1" || l == "yes"
  }

  /** `get_env_var(key, default)`: an unset variable gives the default; otherwise the
      value is converted by the kind of the default, and a failed integer conversion gives
      the raw string. The boolean test comes first, so a boolean default never goes
      through the generic conversion. */
  function GetEnvVar(env: Env, key: string, default: EnvValue): (r: EnvValue)
    ensures key !in env ==> r == default
    ensures key in env && default.BoolValue? ==> r.BoolValue? && (r.b <==> IsTrueSpelling(env[key]))
    ensures key in env && default.StrValue? ==> r == StrValue(env[key])
    ensures key in env && default.IntValue? ==>
      match ParseInt(env[key])
      case Some(n) => r == IntValue(n)
      case None => r == StrValue(env[key])
    ensures default.BoolValue? ==> r.BoolValue?
  {
    if key !in env then default
    else
      var value := env[key];
      match default
      case BoolValue(_) => BoolValue(IsTrueSpelling(value))
      case IntValue(_) =>
        (match ParseInt(value)
         case Some(n) => IntValue(n)
         case None => StrValue(value))
      case StrValue(_) => StrValue(value)
  }

  /** A boolean setting ignores letter case: `TRUE`, `Yes` and `true` all read as true. */
  lemma BoolSettingIgnoresCase(env: Env, key: string, v: string, d: bool)
    ensures GetEnvVar(env[key := v], key, BoolValue(d)) == GetEnvVar(env[key := Lower(v)], key, BoolValue(d))
  {
    LowerIdempotent(v);
  }

  /** An integer setting holding a rendered integer reads back as that integer, whatever the default. */
  lemma IntSettingRoundTrip(env: Env, key: string, n: int, d: int)
    ensures GetEnvVar(env[key := IntToString(n)], key, IntValue(d)) == IntValue(n)
  {
    IntRoundTrip(n);
  }

  /** An integer setting whose value holds an ASCII letter or other stray ASCII character
      (not a digit, space, sign or `_`) is kept as the raw string instead of raising. */
  lemma IntSettingKeepsGarbage(env: Env, key: string, d: int, k: nat)
    requires key in env && k < |env[key]|
    requires var c := env[key][k]; c as int < 128 && !IsDigit(c) && !IsSpace(c) && c != '-' && c != '+' && c != '_'
    ensures GetEnvVar(env, key, IntValue(d)) == StrValue(env[key])
  {
    ParseIntRejects(env[key], k);
  }

  /** The `Config` class attributes. */
  datatype Config = Config(
    voskServerUri: EnvValue,
    audioSampleRate: EnvValue,
    audioBlockSize: EnvValue,
    audioChannels: EnvValue,
    audioTimeout: EnvValue,
    audioLanguage: EnvValue,
    logLevel: EnvValue,
    logFormat: EnvValue)

  const DefaultLogFormat: string := "%(asctime)s - %(name)s - %(levelname)s - %(message)s"

  /** The configuration computed once, when the module is imported, from `env`. */
  function LoadConfig(env: Env): (c: Config)
    ensures c.voskServerUri == StrValue(if "VOSK_SERVER_URI" in env then env["VOSK_SERVER_URI"] else "ws://localhost:2700")
    ensures c.audioLanguage == StrValue(if "AUDIO_LANGUAGE" in env then env["AUDIO_LANGUAGE"] else "es")
    ensures c.logLevel == StrValue(if "LOG_LEVEL" in env then env["LOG_LEVEL"] else "INFO")
    ensures c.logFormat == StrValue(if "LOG_FORMAT" in env then env["LOG_FORMAT"] else DefaultLogFormat)
    ensures "AUDIO_SAMPLERATE" !in env ==> c.audioSampleRate == IntValue(16000)
    ensures "AUDIO_BLOCKSIZE" !in env ==> c.audioBlockSize == IntValue(4000)
    ensures "AUDIO_CHANNELS" !in env ==> c.audioChannels == IntValue(1)
    ensures "AUDIO_TIMEOUT" !in env ==> c.audioTimeout == IntValue(30)
  {
    Config(
      GetEnvVar(env, "VOSK_SERVER_URI", StrValue("ws://localhost:2700")),
      GetEnvVar(env, "AUDIO_SAMPLERATE", IntValue(16000)),
      GetEnvVar(env, "AUDIO_BLOCKSIZE", IntValue(4000)),
      GetEnvVar(env, "AUDIO_CHANNELS", IntValue(1)),
      GetEnvVar(env, "AUDIO_TIMEOUT", IntValue(30)),
      GetEnvVar(env, "AUDIO_LANGUAGE", StrValue("es")),
      GetEnvVar(env, "LOG_LEVEL", StrValue("INFO")),
      GetEnvVar(env, "LOG_FORMAT", StrValue(DefaultLogFormat)))
  }

  /** With none of the variables set, every setting has its listed default. */
  lemma EmptyEnvironmentGivesDefaults(env: Env)
    requires forall k :: k in env ==> k !in {"VOSK_SERVER_URI", "AUDIO_SAMPLERATE", "AUDIO_BLOCKSIZE",
      "AUDIO_CHANNELS", "AUDIO_TIMEOUT", "AUDIO_LANGUAGE", "LOG_LEVEL", "LOG_FORMAT"}
    ensures LoadConfig(env) == Config(StrValue("ws://localhost:2700"), IntValue(16000), IntValue(4000),
      IntValue(1), IntValue(30), StrValue("es"), StrValue("INFO"), StrValue(DefaultLogFormat))
  {
  }

  /** Setting `AUDIO_BLOCKSIZE` to a rendered number changes that setting alone. */
  lemma BlockSizeOverride(env: Env, n: int)
    ensures var c := LoadConfig(env["AUDIO_BLOCKSIZE" := IntToString(n)]);
      c == LoadConfig(env).(audioBlockSize := IntValue(n))
  {
    IntRoundTrip(n);
  }
}
