/**
 * The admission gate of the relay: the fallbacks applied to the configuration at start-up,
 * the token check, the resolution of the requested channel name, the close frame sent to a
 * rejected client and the welcome text sent to an admitted one.
 */
module Admission {
  import opened Wrappers

  /** A value read from the JSON configuration file. A key that is absent reads as `Missing`
      (JavaScript's `undefined`); arrays and objects are `Composite`. Numbers are integral. */
  datatype Json = Missing | Null | Bool(b: bool) | Number(n: int) | Str(s: string) | Composite

  /** JavaScript truthiness, which decides every `||` fallback of the server. */
  predicate Truthy(v: Json) {
    match v
    case Missing => false
    case Null => false
    case Bool(b) => b
    case Number(n) => n != 0
    case Str(s) => s != ""
    case Composite => true
  }

  const DefaultPort: int := 8080
  const DefaultToken: string := "default-token"
  const DefaultChannel: string := "default"
  /** The "Policy Violation" close code of section 7.4.1 of RFC 6455. */
  const PolicyViolation: int := 1008
  const InvalidTokenReason: string := "Token inv\U{E1}lido"
  const WelcomeLead: string := "\U{A1}Bienvenido al canal \""
  const WelcomeTail: string := "\"!"

  /** The port the server listens on: the configured value unless it is falsy. */
  function ResolvePort(configured: Json): (port: Json)
    ensures Truthy(port)
    ensures Truthy(configured) ==> port == configured
    ensures !Truthy(configured) ==> port == Number(DefaultPort)
  {
    if Truthy(configured) then configured else Number(DefaultPort)
  }

  /** The shared secret: the configured value unless it is falsy. The secret is never falsy,
      so in particular it is never the empty string. */
  function ResolveToken(configured: Json): (secret: Json)
    ensures Truthy(secret)
    ensures secret.Str? ==> secret.s != ""
    ensures Truthy(configured) ==> secret == configured
    ensures !Truthy(configured) ==> secret == Str(DefaultToken)
  {
    if Truthy(configured) then configured else Str(DefaultToken)
  }

  /** The channel a connection asks for: the `channel` query parameter, or the default
      channel when the parameter is absent or empty. */
  function ResolveChannel(requested: Option<string>): (channel: string)
    ensures channel != ""
    ensures requested.Some? && requested.value != "" ==> channel == requested.value
    ensures requested == None || requested == Some("") ==> channel == DefaultChannel
  {
    if requested.Some? && requested.value != "" then requested.value else DefaultChannel
  }

  /** Strict (`===`) equality of the presented token with the configured secret: a string
      never equals a number, a boolean or any other non-string value. */
  function IsValidToken(incoming: string, secret: Json): (valid: bool)
    ensures valid <==> secret.Str? && secret.s == incoming
  {
    Str(incoming) == secret
  }

  datatype Decision = Admitted(channel: string) | Rejected(code: int, reason: string)

  /** The decision taken on a new connection from its two query parameters. */
  function Admit(token: Option<string>, requested: Option<string>, secret: Json): (d: Decision)
    ensures d.Admitted? <==> token.Some? && token.value != "" && secret == Str(token.value)
    ensures d.Admitted? ==> d.channel == ResolveChannel(requested)
    ensures d.Rejected? ==> d.code == PolicyViolation && d.reason == InvalidTokenReason
  {
    var channel := ResolveChannel(requested);
    if token.None? || token.value == "" || !IsValidToken(token.value, secret) then
      Rejected(PolicyViolation, InvalidTokenReason)
    else
      Admitted(channel)
  }

  /** With the secret resolved from the configuration, a connection is admitted exactly when it
      presents that secret: the separate check for an empty token never changes the outcome. */
  lemma AdmitsExactlyTheSecret(configured: Json, token: Option<string>, requested: Option<string>)
    ensures Admit(token, requested, ResolveToken(configured)).Admitted?
        <==> token.Some? && ResolveToken(configured) == Str(token.value)
  {
  }

  /** Without a configured token, only the literal default token is accepted. */
  lemma DefaultSecretAdmission(configured: Json, token: Option<string>, requested: Option<string>)
    requires !Truthy(configured)
    ensures Admit(token, requested, ResolveToken(configured)).Admitted? <==> token == Some(DefaultToken)
  {
  }

  /** A configured token that is not a string (a number, say) is truthy, so it replaces the
      default, but no query string is strictly equal to it: every connection is rejected. */
  lemma NonStringSecretAdmitsNobody(configured: Json, token: Option<string>, requested: Option<string>)
    requires Truthy(configured) && !configured.Str?
    ensures Admit(token, requested, ResolveToken(configured)) == Rejected(PolicyViolation, InvalidTokenReason)
  {
  }

  /** The welcome text sent to a newly admitted connection, with the channel name quoted in it. */
  function Welcome(channel: string): (w: string)
    ensures |w| == |WelcomeLead| + |channel| + |WelcomeTail|
    ensures w[|WelcomeLead|..|WelcomeLead| + |channel|] == channel
  {
    WelcomeLead + channel + WelcomeTail
  }

  /** Different channels get different welcome texts: the channel can be read back from it. */
  lemma WelcomeNamesChannel(c1: string, c2: string)
    requires Welcome(c1) == Welcome(c2)
    ensures c1 == c2
  {
  }
}
