/** Derivation of the gateway configuration from the process environment
    (`Config::from_envs`). */
module Config {
  import opened Wrappers
  import opened Text

  /** The value of one environment variable: text, or bytes that are not
      valid Unicode. A name absent from the environment map is unset. */
  datatype VarValue = Unicode(text: string) | NonUnicode

  type Env = map<string, VarValue>

  /** `std::env::VarError`. */
  datatype VarError = NotPresent | NotUnicode

  /** `std::env::var`. */
  function Var(env: Env, name: string): (r: Result<string, VarError>)
    ensures r.Success? <==> name in env && env[name].Unicode?
    ensures r.Success? ==> env[name] == Unicode(r.value)
    ensures r == Failure(NotPresent) <==> name !in env
  {
    if name !in env then Failure(NotPresent)
    else match env[name]
      case Unicode(v) => Success(v)
      case NonUnicode => Failure(NotUnicode)
  }

  const BindAddressVar: string := "SERV_BIND_ADDRESS"
  const AuthEnabledVar: string := "SERV_AUTH_ENABLED"
  const AuthTokenVar: string := "SERV_AUTH_TOKEN"
  const AllowlistVar: string := "SERV_ALLOWLIST"
  const DefaultBindAddress: string := "0.0.0.0"

  datatype Config = Config(
    bindAddress: string,
    authToken: Option<string>,
    allowlist: Option<seq<string>>)

  /** `from_envs` fails only when a variable it requires cannot be read. */
  datatype ConfigError = ConfigError(variable: string, cause: VarError)

  /** `str::parse::<bool>`: exactly "true" or "false". */
  function ParseBool(s: string): (r: Option<bool>)
    ensures r == Some(true) <==> s == "true"
    ensures r == Some(false) <==> s == "false"
  {
    if s == "true" then Some(true)
    else if s == "false" then Some(false)
    else None
  }

  /** Whether authentication is on: yes unless the variable reads as a
      boolean `false`; unset, non-Unicode and unparsable values all
      leave it on. */
  function AuthEnabled(env: Env): (enabled: bool)
    ensures !enabled <==> Var(env, AuthEnabledVar) == Success("false")
  {
    match Var(env, AuthEnabledVar)
    case Failure(_) => true
    case Success(v) =>
      match ParseBool(v)
      case Some(b) => b
      case None => true
  }

  /** The allowlist text split on commas, each piece trimmed: one entry
      more than there are commas, none holding a comma or surrounding
      whitespace. */
  function ParseAllowlist(text: string): (names: seq<string>)
    ensures |names| == Count(text, ',') + 1
    ensures forall i :: 0 <= i < |names| ==> ',' !in names[i]
    ensures forall i :: 0 <= i < |names| ==> Trim(names[i]) == names[i]
    ensures |names| == |Split(text, ',')| &&
            forall i :: 0 <= i < |names| ==> names[i] == Trim(Split(text, ',')[i])
  {
    var pieces := Split(text, ',');
    SplitCount(text, ',');
    SplitPiecesFree(text, ',');
    TrimAllIdempotent(pieces);
    seq(|pieces|, i requires 0 <= i < |pieces| => Trim(pieces[i]))
  }

  lemma TrimAllIdempotent(pieces: seq<string>)
    ensures forall i :: 0 <= i < |pieces| ==> Trim(Trim(pieces[i])) == Trim(pieces[i])
  {
    forall i | 0 <= i < |pieces| {
      TrimIdempotent(pieces[i]);
    }
  }

  /** `Config::from_envs`. The bind address is the variable's text, or
      "0.0.0.0" when it cannot be read. With authentication on the token
      variable must be readable and becomes the token; with it off there is
      no token whatever the variable holds. The allowlist is absent exactly
      when its variable cannot be read. */
  function FromEnvs(env: Env): (r: Result<Config, ConfigError>)
    ensures r.Failure? <==> AuthEnabled(env) && Var(env, AuthTokenVar).Failure?
    ensures r.Failure? ==> r.error == ConfigError(AuthTokenVar, Var(env, AuthTokenVar).error)
    ensures r.Success? && BindAddressVar in env && env[BindAddressVar].Unicode? ==>
              r.value.bindAddress == env[BindAddressVar].text
    ensures r.Success? && Var(env, BindAddressVar).Failure? ==> r.value.bindAddress == DefaultBindAddress
    ensures r.Success? && AuthEnabled(env) ==> r.value.authToken == Some(env[AuthTokenVar].text)
    ensures r.Success? && !AuthEnabled(env) ==> r.value.authToken == None
    ensures r.Success? ==> (r.value.allowlist.None? <==> Var(env, AllowlistVar).Failure?)
    ensures r.Success? && r.value.allowlist.Some? ==>
              r.value.allowlist.value == ParseAllowlist(env[AllowlistVar].text)
  {
    var bindAddress :=
      match Var(env, BindAddressVar)
      case Success(v) => v
      case Failure(_) => DefaultBindAddress;
    var token :=
      if AuthEnabled(env) then
        match Var(env, AuthTokenVar)
        case Success(t) => Success(Some(t))
        case Failure(e) => Failure(e)
      else Success(None);
    var allowlist :=
      match Var(env, AllowlistVar)
      case Success(v) => Some(ParseAllowlist(v))
      case Failure(_) => None;
    match token
    case Failure(e) => Failure(ConfigError(AuthTokenVar, e))
    case Success(t) => Success(Config(bindAddress, t, allowlist))
  }

  /** A set but empty (or whitespace-only) allowlist variable yields the
      one-entry allowlist [""]. */
  lemma BlankAllowlist(text: string)
    requires forall k :: 0 <= k < |text| ==> IsWhitespace(text[k])
    ensures ParseAllowlist(text) == [""]
  {
    CountZeroIffAbsent(text, ',');
    assert ',' !in text by {
      assert !IsWhitespace(',');
    }
    SplitCount(text, ',');
    JoinSplit(text, ',');
    TrimAllWhitespace(text);
  }
}
