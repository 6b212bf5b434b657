/**
 * The configuration fallbacks `getEnv` and `getEnvAsInt`. The process
 * environment is a map from variable names to values; a variable that is
 * absent and one whose value is empty are treated alike, as unset.
 */
module Env {
  import opened Wrappers
  import opened Decimal

  type Environment = map<string, string>

  /** `os.Getenv`: the value of `key`, or the empty string when it is absent. */
  function Getenv(env: Environment, key: string): string {
    if key in env then env[key] else ""
  }

  /** `key` is present with a non-empty value. */
  predicate IsSet(env: Environment, key: string) {
    key in env && env[key] != ""
  }

  /** `getEnv`: the variable's value when it is set, otherwise `defaultValue`. */
  function GetEnv(env: Environment, key: string, defaultValue: string): (v: string)
    ensures IsSet(env, key) ==> v == env[key]
    ensures !IsSet(env, key) ==> v == defaultValue
  {
    var value := Getenv(env, key);
    if value != "" then value else defaultValue
  }

  /**
   * `getEnvAsInt`: the variable's value parsed by `strconv.Atoi` when it is
   * set and parses, otherwise `defaultValue`; it never fails.
   */
  function GetEnvAsInt(env: Environment, key: string, defaultValue: int): (v: int)
    ensures IsSet(env, key) && Atoi(env[key]).Some? ==> v == Atoi(env[key]).value
    ensures !IsSet(env, key) || Atoi(env[key]).None? ==> v == defaultValue
    ensures v == defaultValue || InIntRange(v)
  {
    var value := Getenv(env, key);
    if value != "" then
      match Atoi(value)
      case Some(intValue) => intValue
      case None => defaultValue
    else defaultValue
  }

  /** A non-empty default makes `GetEnv` return a non-empty string. */
  lemma GetEnvNonEmpty(env: Environment, key: string, defaultValue: string)
    requires defaultValue != ""
    ensures GetEnv(env, key, defaultValue) != ""
  {
  }

  /** Mapping a variable to the empty string is the same as leaving it out. */
  lemma EmptyIsUnset(env: Environment, key: string, defaultValue: string, defaultInt: int)
    ensures GetEnv(env[key := ""], key, defaultValue) == GetEnv(env - {key}, key, defaultValue) == defaultValue
    ensures GetEnvAsInt(env[key := ""], key, defaultInt) == GetEnvAsInt(env - {key}, key, defaultInt) == defaultInt
  {
  }

  /**
   * `getEnvAsInt` is the uniform parse-with-fallback combinator applied to the
   * string lookup: parse what `getEnv` would return with an empty default,
   * and keep `defaultValue` when that does not parse.
   */
  lemma GetEnvAsIntIsParseWithFallback(env: Environment, key: string, defaultValue: int)
    ensures GetEnvAsInt(env, key, defaultValue) == Atoi(GetEnv(env, key, "")).GetOr(defaultValue)
  {
  }

  /** A variable holding the decimal rendering of an `int` yields that `int`. */
  lemma GetEnvAsIntOfRendering(env: Environment, key: string, n: int, defaultValue: int)
    requires key in env && env[key] == IntToString(n)
    ensures GetEnvAsInt(env, key, defaultValue) == if InIntRange(n) then n else defaultValue
  {
    AtoiOfIntToString(n);
  }

  /** A value holding a character that is neither a digit nor a leading sign is ignored. */
  lemma GetEnvAsIntIgnoresMalformed(env: Environment, key: string, defaultValue: int, i: int)
    requires key in env && 0 <= i < |env[key]| && !IsDigit(env[key][i])
    requires i > 0 || (env[key][i] != '+' && env[key][i] != '-')
    ensures GetEnvAsInt(env, key, defaultValue) == defaultValue
  {
  }

  /** For instance, `MIN_TIMEOUT=abc` leaves the default in force. */
  lemma GetEnvAsIntOfLetters(defaultValue: int)
    ensures GetEnvAsInt(map["MIN_TIMEOUT" := "abc"], "MIN_TIMEOUT", defaultValue) == defaultValue
  {
  }
}
