# Webhook receiver configuration validation

This project models `ValidateConfig` from the webhook notification channel of
an alert-notification library (`receivers/webhook/config.go`). The function
turns the decoded settings of one webhook target into a `Config`, or rejects
them. It runs these steps in order, and each failure returns at once:

1. It decodes the settings blob. The model takes the decoder's outcome as an
   input (`Webhook.Decoded`): raw settings, or the decoder's error message.
2. It rejects an empty `url`.
3. It defaults an empty `httpMethod` to `POST`, the method of section 9.3.3 of
   RFC 9110.
4. It coerces a non-empty `maxAlerts` number text to an integer with
   `strconv.Atoi` and discards the parse error. Text that is not an integer
   literal therefore becomes 0 instead of an error. `Strconv.Atoi` models this
   call: an optional sign followed by one or more ASCII digits.
5. It fills an empty `title` or `message` from two default templates. These
   templates belong to another package, so they are parameters here.

The model is pure (`strconv.dfy`, `webhook.dfy`): datatypes for `Config`,
the raw settings and the error kinds, and `ValidateConfig` as one function
that runs the steps in the source's order. The Bearer default and the
defaulting of empty text are helper functions; the url check and the
`maxAlerts` coercion are written inline.

**The code does less than it is written to do, and the model follows the code.**
Lines 61-63 are written to give credentials without a scheme the `Bearer`
scheme, and lines 64-66 to reject basic authentication together with an
authorization header. But the code never copies the
authorization scheme, credentials, user or password from the raw settings
into the result. So the Bearer default (lines 61-63) and the conflict check
(lines 64-66) only ever see empty fields. The Bearer default never fires. The
"both mechanisms" error can never be returned. Every accepted `Config` has
all four authorization fields empty. The model keeps both steps as written,
and lemmas state these consequences.

## Model

| member | source | states |
|---|---|---|
| `Webhook.ValidateConfig` | receivers/webhook/config.go:29-76 | A decode failure gives the decode error with the decoder's cause. A decoded input with an empty url gives the missing-url error, whatever the other fields hold. The result is success exactly when decoding succeeded and url is non-empty. On success: url is the raw url (non-empty); httpMethod is POST when the raw one is empty and otherwise the raw one; maxAlerts is 0 for empty text and otherwise the Atoi value; title and message are the raw values or, when empty, the default templates; the authorization scheme, credentials, user and password are all empty |
| `Webhook.ErrorMessage` | receivers/webhook/config.go:43-66 | The message of a decode error is "failed to unmarshal settings: " followed by the decoder's message, unchanged |
| `Webhook.BothAuthErrorUnreachable` | receivers/webhook/config.go:61-66 | No input, decodable or not, makes validation return the "both authentication mechanisms" error |
| `Webhook.AcceptedConfigHasNoAuthConflict` | receivers/webhook/config.go:61-66 | An accepted configuration carries neither basic authentication nor an authorization header, so never both |
| `Webhook.AuthSettingsIgnored` | receivers/webhook/config.go:50-74 | Changing the raw scheme, credentials, user and password never changes the validation result |
| `Webhook.AuthorizationNotCarriedOver` | receivers/webhook/config.go:61-63 | For every decoded input with a non-empty url, whatever its authorization fields hold: it is accepted, the result's scheme and credentials are empty (credentials without a scheme do not get the Bearer scheme), and basic authentication together with an authorization header is not rejected |
| `Webhook.DefaultBearerProperties` | receivers/webhook/config.go:61-63 | The Bearer default step on its own: credentials without a scheme get exactly the scheme "Bearer" and nothing else changes; a config without credentials, or with a scheme, is left unchanged; afterwards credentials never stand without a scheme; applying it twice is the same as once |
| `Webhook.MaxAlertsNeverRejects` | receivers/webhook/config.go:57-59 | With a non-empty url, every maxAlerts text is accepted, and text that is not an integer literal gives maxAlerts 0 |
| `Webhook.MaxAlertsExamples` | receivers/webhook/config.go:57-59 | maxAlerts "7" gives 7; "abc", "1.5", "1e3" and an absent value give 0, without an error |
| `Webhook.ToRawSettings` | receivers/webhook/config.go:31-41 | Not in the source: the inverse of validation used by `ValidateIdempotent`, writing a Config back into the raw-settings shape of lines 31-41. Its maxAlerts text is non-empty and Atoi reads it back as the Config's maxAlerts |
| `Webhook.ValidateIdempotent` | receivers/webhook/config.go:50-74 | Validating an accepted configuration again, written back as raw settings with the same default templates, gives the same configuration |
| `Strconv.DigitsValue` | receivers/webhook/config.go:58 | The value of a run of k decimal digits is below 10^k |
| `Strconv.Itoa` | receivers/webhook/config.go:58 | Not in the source: the inverse of the Atoi call at line 58, used by `AtoiItoa`. The canonical text of an integer is an integer literal that Atoi accepts |
| `Strconv.DigitsRoundTrip` | receivers/webhook/config.go:58 | Reading back the decimal digits of a natural number gives that number |
| `Strconv.AtoiItoa` | receivers/webhook/config.go:58 | Atoi inverts Itoa on every integer |
| `Strconv.ParseDecimalAcceptsExactlyLiterals` | receivers/webhook/config.go:58 | The parse succeeds if and only if the text is an optional sign followed by one or more digits |
| `Strconv.AtoiRejectsStrayCharacter` | receivers/webhook/config.go:58 | Text with any character that is neither a digit nor a leading sign reads as 0 |
| `Strconv.AtoiShortTextFitsInt64` | receivers/webhook/config.go:58 | Text of at most 18 characters reads as a value strictly inside the 64-bit signed range, so where Go's int is 64 bits no clamping applies to it |
| `Strconv.AtoiExamples` | receivers/webhook/config.go:58 | "7", "+7", "007" read as 7 and "-7" as -7; "1.5", "1e3", "abc", "", "-" and " 7" read as 0 |

## Left out

- Decoding the settings blob (`Marshaller.Unmarshal`, line 43) is done by a library that is not part of this model. So are the JSON and YAML struct tags and `json.Number`'s check of a number literal. The decoder's outcome is an input, and the raw `maxAlerts` may be any text.
- `receivers.Secret` is not part of this model; the secret fields are plain strings.
- `templates.DefaultMessageTitleEmbed` and `templates.DefaultMessageEmbed` are not part of this model; they are the parameters `defaultTitle` and `defaultMessage`.
- Error wrapping with `%w` (line 45) is reduced to the resulting message text (`Webhook.ErrorMessage`).
- Webhook.ValidateConfig: on an error, the Go function also returns a `Config` beside it, which callers must not use. On both reachable error paths (lines 45 and 48) it is the zero `Config`. The model's `Err` carries only the error.
- Strconv.Atoi: uses unbounded integers. Where Go's `int` is 64 bits, Go's `strconv.Atoi` agrees with it on every text of at most 18 characters (`Strconv.AtoiShortTextFitsInt64`). On longer digit strings whose value leaves the 64-bit range, Go clamps the value to the range and may stop reading at the overflowing digit. Where Go's `int` is 32 bits, Go clamps at ±2^31 already, so "9999999999" gives 2147483647 there. The model captures neither.
- `http.MethodPost` is the constant `Webhook.MethodPost`, `"POST"`.
