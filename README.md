# send-whatsapp, modelled in Dafny

The Netlify function `send-whatsapp` receives an HTTP event for a construction-company
site and either answers at once or sends one WhatsApp text message to a customer through
the Meta WhatsApp Cloud API. It then passes the provider's answer back to the caller. Before
the network call, everything the function does is a deterministic decision:

- a ladder of early returns:
  - `OPTIONS` gets 204;
  - any other non-`POST` method gets 405;
  - missing configuration gets 500;
  - an unreadable body gets the catch-all 500;
  - a phone with no digits gets 400;
- field aliases: phone from `clienteTelefone` else `to`; name from `nome` else `cliente`
  else "Cliente"; date from `dataEntrega` else `data_entrega_obra`;
- phone clean-up: every non-digit is removed;
- message composition: a greeting, optional `Obra:` and `Entrega:` lines and a fixed footer,
  with empty parts dropped and the rest joined by newlines;
- request construction: the URL, the bearer and content-type headers, and the JSON body of
  the Cloud API text-message call.

The model is pure, as the handler is:

- `strings.dfy` (module `Strings`) holds the JavaScript built-ins the handler relies on.
  These are `replace(/\D/g, "")`, `||` chains over strings, `filter(Boolean)` and
  `join("\n")`. It also holds `split("\n")`, which serves only as the inverse that
  `join` is proved against.
- `send_whatsapp.dfy` (module `SendWhatsApp`) holds the data model and the handler. The
  handler is split at the awaited `fetch`. `Decide` is everything before the call and
  returns either a response or the one `ProviderRequest`. `Deliver` maps the provider's
  outcome to the response. `Handler` joins the two.
- `handler_properties.dfy` (module `HandlerProperties`) holds the properties.

The environment (`META_WA_TOKEN`, `PHONE_NUMBER_ID`) and the provider's outcome (a status
with a JSON body, or a thrown error) are inputs to the model. A configuration value counts
as present only when it is set and non-empty, which is JavaScript truthiness. Payload
fields are strings, and the empty string stands for an absent key.

The handler adds no country-code prefix, does not parse or reformat dates, sends one text
message and no template message, and passes the provider's status through without
classifying it. The model does the same: the phone is sent as its bare digits and the date
is inserted verbatim.

## Model

| member | source | states |
|---|---|---|
| `Strings.DigitsOnly` | netlify/functions/send-whatsapp.js:27 | the cleaned phone holds only '0'-'9' and is no longer than its input |
| `Strings.DigitsOnlyIsSubsequence` | netlify/functions/send-whatsapp.js:27 | the cleaned phone is obtained from the raw text by deletions only: nothing inserted, nothing reordered |
| `Strings.DigitsOnlyCounts` | netlify/functions/send-whatsapp.js:27 | every digit of the raw text survives as often as it occurs, and no other character survives |
| `Strings.DigitsOnlyConcat` | netlify/functions/send-whatsapp.js:27 | the clean-up works character by character: cleaning a concatenation is concatenating the cleaned parts |
| `Strings.DigitsOnlyKeepsDigitStrings` | netlify/functions/send-whatsapp.js:27 | a phone that is already bare digits is left exactly as given, so no country code is added |
| `Strings.DigitsOnlyIdempotent` | netlify/functions/send-whatsapp.js:27 | cleaning twice is the same as cleaning once |
| `Strings.DigitsOnlyEmptyIff` | netlify/functions/send-whatsapp.js:27-28 | the cleaned phone is empty exactly when the raw text has no digit |
| `Strings.FirstNonEmpty` | netlify/functions/send-whatsapp.js:27-32 | an `\|\|` chain yields the first non-empty candidate, with every earlier candidate empty, or the default when all are empty |
| `Strings.DropEmpty` | netlify/functions/send-whatsapp.js:33 | `filter(Boolean)` leaves only non-empty parts, never more than it was given |
| `Strings.DropEmptyMembers` | netlify/functions/send-whatsapp.js:33 | a part survives the filter if and only if it was given and is non-empty |
| `Strings.DropEmptyConcat` | netlify/functions/send-whatsapp.js:33 | the filter keeps the order of the parts: filtering a concatenation is concatenating the filtered halves |
| `Strings.SplitJoin` | netlify/functions/send-whatsapp.js:33 | splitting the `join("\n")` of newline-free parts on "\n" gives back exactly those parts |
| `HandlerProperties.OptionsIsNoContent` | netlify/functions/send-whatsapp.js:12-14 | `OPTIONS` gets 204 with an empty body, whatever the configuration and body, and no request is built |
| `HandlerProperties.OtherMethodIsRejected` | netlify/functions/send-whatsapp.js:15-17 | any method other than `OPTIONS` and `POST` gets 405 "Method Not Allowed" before configuration is checked |
| `HandlerProperties.MissingConfigurationIsServerError` | netlify/functions/send-whatsapp.js:19-24 | a `POST` with a missing or empty token or phone-number id gets 500 with the missing-environment error, whatever its body |
| `HandlerProperties.UnreadableBodyIsServerError` | netlify/functions/send-whatsapp.js:26 | a body that `JSON.parse` rejects reaches the catch-all: 500 with the error text, and no request is built |
| `HandlerProperties.MissingPhoneIsBadRequest` | netlify/functions/send-whatsapp.js:27-28 | when the chosen phone field has no digit, the answer is 400 "Telefone ausente" and no request is built |
| `HandlerProperties.EmptyBodyIsBadRequest` | netlify/functions/send-whatsapp.js:26-28 | a `POST` with no body is read as `{}` and gets 400 "Telefone ausente" |
| `HandlerProperties.ClienteTelefoneShadowsTo` | netlify/functions/send-whatsapp.js:27-28 | a non-empty `clienteTelefone` with no digit gives 400, even when `to` holds a usable number |
| `HandlerProperties.SendsIff` | netlify/functions/send-whatsapp.js:12-46 | a provider request is built if and only if the method is `POST`, both configuration values are present, the body is readable and the cleaned phone is non-empty |
| `HandlerProperties.ProviderStatusPassesThrough` | netlify/functions/send-whatsapp.js:43-52 | once a request is sent, the response has the provider's status and JSON unchanged, and a thrown error becomes 500 with its text |
| `HandlerProperties.EarlyResponseIgnoresProvider` | netlify/functions/send-whatsapp.js:12-28 | when the handler answers early, the provider's outcome has no influence on the response |
| `HandlerProperties.PhoneAlias` | netlify/functions/send-whatsapp.js:27 | the phone comes from `clienteTelefone` when it is non-empty, otherwise from `to` |
| `HandlerProperties.NameAlias` | netlify/functions/send-whatsapp.js:30 | the name is `nome`, else `cliente`, else "Cliente", and is never empty |
| `HandlerProperties.DateAndObraAlias` | netlify/functions/send-whatsapp.js:31-32 | the date is `dataEntrega`, else `data_entrega_obra`, else empty; `obra` defaults to empty |
| `HandlerProperties.NormalizedPhoneIsItsDigits` | netlify/functions/send-whatsapp.js:27 | the number sent is exactly the digits of the chosen phone field, in their original order |
| `HandlerProperties.DigitPhoneSentVerbatim` | netlify/functions/send-whatsapp.js:27 | a phone given as bare digits is sent exactly as given |
| `HandlerProperties.KeptParts` | netlify/functions/send-whatsapp.js:33 | the filter drops exactly the absent optional lines and keeps the greeting, the present optional lines and the footer, in that order |
| `HandlerProperties.MessageText` | netlify/functions/send-whatsapp.js:33 | the message is `Olá, <nome>!`, then "\nObra: <obra>" only if `obra` is non-empty, then "\nEntrega: <data>" only if the date is non-empty, then "\n" and the footer; values are inserted verbatim |
| `HandlerProperties.MessageLines` | netlify/functions/send-whatsapp.js:33 | read back line by line, the message has exactly the greeting, the present optional lines and the footer |
| `HandlerProperties.OptionalLinesIff` | netlify/functions/send-whatsapp.js:33 | the `Obra:` line appears if and only if `obra` is non-empty, and the `Entrega:` line if and only if the date is; `Obra:` comes before `Entrega:`; the greeting comes first, the footer last, and there are 2 to 4 lines |
| `HandlerProperties.UrlAndTokenRoundTrip` | netlify/functions/send-whatsapp.js:35-45 | the phone-number id can be read back intact from the messages URL, and the token from the `Bearer` header |
| `HandlerProperties.SentRequestShape` | netlify/functions/send-whatsapp.js:35-46 | the request sent is a JSON `POST` to `https://graph.facebook.com/v20.0/<phoneId>/messages` with `Authorization: Bearer <token>`; its body is `messaging_product` "whatsapp", `to` the non-empty all-digit cleaned phone, `type` "text" and `text.body` the composed message |

## Left out

- CORS headers (netlify/functions/send-whatsapp.js:4-8) are constant on every response and are not part of the model's `Response`.
- Reading `process.env` is not modelled: the token and the phone-number id are `Option<string>` inputs.
- The `fetch` call, `resp.json()` and `async`/`await` are not modelled. Their result is the `ProviderOutcome` input: a status with a JSON body, or a thrown error's text.
- `JSON.parse` is not modelled. The body is given already parsed, as absent, unreadable with an error text, or a payload record. An unreadable body also stands for a JSON `null`, whose field access throws.
- Payload values that are not strings are not modelled. These are numbers, booleans and objects, with their own truthiness and `toString()`.
- `JSON.stringify` of the responses and of the request body is not modelled. Both stay structured, so JSON string escaping is not modelled.
- The text of `String(e)` for thrown errors is an opaque input string.
- HandlerProperties.MessageLines: stated only for a name, `obra` and date without newlines, because a value with its own newline splits into extra lines. `HandlerProperties.MessageText` covers every input.
- HandlerProperties.OptionalLinesIff: stated under the same no-newline condition as `MessageLines`, for the same reason.
- JavaScript strings are sequences of UTF-16 code units, while Dafny's `string` is a sequence of Unicode scalar values. A lone surrogate that `JSON.parse` can produce (such as `"\ud800"` in `nome`, `obra` or a date) has no counterpart in the model. No stated property depends on this: `\D` keeps only ASCII digits, and every other value is concatenated as given.
