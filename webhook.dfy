/**
 * Validation and defaulting of the settings of one webhook notification
 * channel (receivers/webhook/config.go). Decoding of the settings blob is
 * done by a collaborator; its outcome is an input here. The two default
 * message templates are owned by another package and are parameters.
 */
module Webhook {
  import Strconv

  /** The validated settings of a webhook channel. */
  datatype Config = Config(
    url: string,
    httpMethod: string,
    maxAlerts: int,
    // Authorization header.
    authorizationScheme: string,
    authorizationCredentials: string,
    // HTTP basic authentication.
    user: string,
    password: string,
    title: string,
    message: string)

  /** The settings as decoded, before defaulting: `maxAlerts` is still the
      text of a number, and the secret fields are plain strings. */
  datatype RawSettings = RawSettings(
    url: string,
    httpMethod: string,
    maxAlerts: string,
    authorizationScheme: string,
    authorizationCredentials: string,
    user: string,
    password: string,
    title: string,
    message: string)

  /** What the settings decoder produced: the raw settings, or its error message. */
  datatype Decoded = Decoded(raw: RawSettings) | DecodeErr(cause: string)

  /** Why a configuration was rejected. */
  datatype ConfigError =
    | DecodeError(cause: string)
    | MissingUrl
    | BothAuthMechanisms

  datatype Result = Ok(config: Config) | Err(error: ConfigError)

  const ZeroConfig := Config("", "", 0, "", "", "", "", "", "")

  /** The POST method of section 9.3.3 of RFC 9110. */
  const MethodPost := "POST"
  const BearerScheme := "Bearer"

  const UnmarshalPrefix := "failed to unmarshal settings: "

  /** The text of each error, as the caller sees it. A decode error wraps
      the decoder's own message. */
  function ErrorMessage(e: ConfigError): (msg: string)
    ensures e.DecodeError? ==>
      |msg| >= |UnmarshalPrefix| && msg[..|UnmarshalPrefix|] == UnmarshalPrefix && msg[|UnmarshalPrefix|..] == e.cause
  {
    match e
    case DecodeError(cause) => UnmarshalPrefix + cause
    case MissingUrl => "required field 'url' is not specified"
    case BothAuthMechanisms => "both HTTP Basic Authentication and Authorization Header are set, only 1 is permitted"
  }

  predicate HasBasicAuth(c: Config) {
    c.user != "" && c.password != ""
  }

  predicate HasAuthorizationHeader(c: Config) {
    c.authorizationScheme != "" && c.authorizationCredentials != ""
  }

  /** Both authentication mechanisms are configured at once. */
  predicate AuthConflict(c: Config) {
    HasBasicAuth(c) && HasAuthorizationHeader(c)
  }

  /** Credentials without a scheme are sent as a Bearer token. */
  function DefaultBearer(c: Config): Config {
    if c.authorizationCredentials != "" && c.authorizationScheme == "" then
      c.(authorizationScheme := BearerScheme)
    else c
  }

  /** Settings that are empty take the given default. */
  function OrDefault(value: string, default: string): string {
    if value == "" then default else value
  }

  /**
   * ValidateConfig, step by step as the source runs it. Only url, httpMethod,
   * maxAlerts, title and message are copied from the raw settings, so the
   * Bearer default and the both-mechanisms check look at a Config whose four
   * authorization fields are still empty.
   */
  function ValidateConfig(decoded: Decoded, defaultTitle: string, defaultMessage: string): (r: Result)
    // The two error paths, with their messages.
    ensures decoded.DecodeErr? ==> r == Err(DecodeError(decoded.cause))
    ensures decoded.Decoded? && decoded.raw.url == "" ==> r == Err(MissingUrl)
    // No other input is rejected.
    ensures r.Ok? <==> decoded.Decoded? && decoded.raw.url != ""
    // Each field of an accepted configuration.
    ensures r.Ok? ==> r.config.url == decoded.raw.url != ""
    ensures r.Ok? ==>
      r.config.httpMethod == (if decoded.raw.httpMethod == "" then MethodPost else decoded.raw.httpMethod)
    ensures r.Ok? ==>
      r.config.maxAlerts == (if decoded.raw.maxAlerts == "" then 0 else Strconv.Atoi(decoded.raw.maxAlerts))
    ensures r.Ok? ==>
      r.config.title == (if decoded.raw.title == "" then defaultTitle else decoded.raw.title)
    ensures r.Ok? ==>
      r.config.message == (if decoded.raw.message == "" then defaultMessage else decoded.raw.message)
    // The authorization settings never reach the result.
    ensures r.Ok? ==> r.config.authorizationScheme == "" && r.config.authorizationCredentials == ""
    ensures r.Ok? ==> r.config.user == "" && r.config.password == ""
  {
    match decoded
    case DecodeErr(cause) => Err(DecodeError(cause))
    case Decoded(raw) =>
      if raw.url == "" then Err(MissingUrl)
      else
        var settings := ZeroConfig.(url := raw.url);
        var settings := settings.(httpMethod := OrDefault(raw.httpMethod, MethodPost));
        var settings :=
          if raw.maxAlerts != "" then settings.(maxAlerts := Strconv.Atoi(raw.maxAlerts))
          else settings;
        var settings := DefaultBearer(settings);
        if AuthConflict(settings) then Err(BothAuthMechanisms)
        else
          var settings := settings.(title := OrDefault(raw.title, defaultTitle));
          Ok(settings.(message := OrDefault(raw.message, defaultMessage)))
  }

  /** The configuration's text form, field for field: what a caller would
      store to have the same configuration validated again. */
  function ToRawSettings(c: Config): (raw: RawSettings)
    ensures raw.maxAlerts != "" && Strconv.Atoi(raw.maxAlerts) == c.maxAlerts
  {
    Strconv.AtoiItoa(c.maxAlerts);
    RawSettings(c.url, c.httpMethod, Strconv.Itoa(c.maxAlerts),
                c.authorizationScheme, c.authorizationCredentials, c.user, c.password,
                c.title, c.message)
  }

  /** The "both mechanisms set" error can never be returned: no input,
      whatever its authorization fields hold, produces that message. */
  lemma BothAuthErrorUnreachable(decoded: Decoded, defaultTitle: string, defaultMessage: string)
    ensures ValidateConfig(decoded, defaultTitle, defaultMessage) != Err(BothAuthMechanisms)
  {
  }

  /** An accepted configuration never carries both authentication mechanisms. */
  lemma AcceptedConfigHasNoAuthConflict(decoded: Decoded, defaultTitle: string, defaultMessage: string)
    ensures var r := ValidateConfig(decoded, defaultTitle, defaultMessage);
      r.Ok? ==> !AuthConflict(r.config) && !HasBasicAuth(r.config) && !HasAuthorizationHeader(r.config)
  {
  }

  /** The authorization and basic-authentication settings do not influence the
      outcome at all: changing them leaves the result as it was. */
  lemma AuthSettingsIgnored(raw: RawSettings, scheme: string, credentials: string, user: string, password: string,
                            defaultTitle: string, defaultMessage: string)
    ensures
      var raw' := raw.(authorizationScheme := scheme, authorizationCredentials := credentials,
                       user := user, password := password);
      ValidateConfig(Decoded(raw'), defaultTitle, defaultMessage) == ValidateConfig(Decoded(raw), defaultTitle, defaultMessage)
  {
  }

  /** Whatever authorization settings are given, every decoded input with a
      url is accepted without an authorization header: credentials without a
      scheme do not get the Bearer scheme, and basic authentication together
      with an authorization header is not rejected. */
  lemma AuthorizationNotCarriedOver(raw: RawSettings, defaultTitle: string, defaultMessage: string)
    requires raw.url != ""
    ensures
      var r := ValidateConfig(Decoded(raw), defaultTitle, defaultMessage);
      && r.Ok?
      && r.config.authorizationScheme == "" && r.config.authorizationCredentials == ""
      && !AuthConflict(r.config)
  {
  }

  /** The Bearer default on its own: credentials without a scheme get the
      Bearer scheme, any other config is left as it is, and applying the
      step again changes nothing. */
  lemma DefaultBearerProperties(c: Config)
    ensures c.authorizationCredentials != "" && c.authorizationScheme == "" ==>
      DefaultBearer(c) == c.(authorizationScheme := BearerScheme)
    ensures c.authorizationCredentials == "" || c.authorizationScheme != "" ==> DefaultBearer(c) == c
    ensures var d := DefaultBearer(c);
      && (d.authorizationCredentials != "" ==> d.authorizationScheme != "")
      && DefaultBearer(d) == d
  {
  }

  /** maxAlerts is coerced leniently: any text, number literal or not, is
      accepted, and one that is not an integer literal reads as 0. */
  lemma MaxAlertsNeverRejects(raw: RawSettings, defaultTitle: string, defaultMessage: string)
    requires raw.url != ""
    ensures
      var r := ValidateConfig(Decoded(raw), defaultTitle, defaultMessage);
      && r.Ok?
      && (!Strconv.IsDecimalLiteral(raw.maxAlerts) ==> r.config.maxAlerts == 0)
  {
    Strconv.ParseDecimalAcceptsExactlyLiterals(raw.maxAlerts);
  }

  /** Lenient coercion of an integer literal, a word, a decimal fraction, an
      exponent form and an absent value. */
  lemma MaxAlertsExamples(defaultTitle: string, defaultMessage: string)
    ensures
      var raw := RawSettings("http://localhost", "", "", "", "", "", "", "", "");
      && ValidateConfig(Decoded(raw.(maxAlerts := "7")), defaultTitle, defaultMessage).Ok?
      && ValidateConfig(Decoded(raw.(maxAlerts := "7")), defaultTitle, defaultMessage).config.maxAlerts == 7
      && ValidateConfig(Decoded(raw.(maxAlerts := "abc")), defaultTitle, defaultMessage).Ok?
      && ValidateConfig(Decoded(raw.(maxAlerts := "abc")), defaultTitle, defaultMessage).config.maxAlerts == 0
      && ValidateConfig(Decoded(raw.(maxAlerts := "1.5")), defaultTitle, defaultMessage).Ok?
      && ValidateConfig(Decoded(raw.(maxAlerts := "1.5")), defaultTitle, defaultMessage).config.maxAlerts == 0
      && ValidateConfig(Decoded(raw.(maxAlerts := "1e3")), defaultTitle, defaultMessage).Ok?
      && ValidateConfig(Decoded(raw.(maxAlerts := "1e3")), defaultTitle, defaultMessage).config.maxAlerts == 0
      && ValidateConfig(Decoded(raw), defaultTitle, defaultMessage).Ok?
      && ValidateConfig(Decoded(raw), defaultTitle, defaultMessage).config.maxAlerts == 0
  {
    Strconv.AtoiExamples();
  }

  /** Validation is idempotent: an accepted configuration, written back as
      raw settings and validated again with the same defaults, comes back
      unchanged. */
  lemma ValidateIdempotent(decoded: Decoded, defaultTitle: string, defaultMessage: string)
    ensures
      var r := ValidateConfig(decoded, defaultTitle, defaultMessage);
      r.Ok? ==> ValidateConfig(Decoded(ToRawSettings(r.config)), defaultTitle, defaultMessage) == r
  {
    var r := ValidateConfig(decoded, defaultTitle, defaultMessage);
    if r.Ok? {
      var r' := ValidateConfig(Decoded(ToRawSettings(r.config)), defaultTitle, defaultMessage);
      assert r'.Ok?;
      assert r'.config == r.config;
    }
  }
}
