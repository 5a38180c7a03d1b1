# Neighbourhood alarm bots: a Dafny model of the alert and command logic

Three small Flask servers let members of a residential community raise an
emergency from a Telegram web app. This project models their decision logic,
abstracted away from HTTP, files, Telegram and Twilio:

- **Full alert pipeline** (`handle_alert` in `sabadoDies.py`, module
  `FullAlert`). It validates the submission: 400 for a missing name, 500 for a name that is not a string, 404 for a missing, unreadable or empty community file, and 500 for a missing `chat_id`. It then
  selects the recipients: members who opted in, minus the reporter, with ids
  compared as strings. For each recipient, in order, it sends one private
  message and then, if Twilio is configured and the member has a phone, one
  voice call. It sends the group message last and always reports
  "Alerta enviada.". Every send is an attempt on an abstract channel. Whether
  it succeeded is an input (`delivered`), recorded in the trace, and nothing
  depends on it.
- **Telegram polling** (`get_updates_and_process` in `sabadoDies.py`, module
  `TelegramPoller`). A `Poller` class keeps the global `last_update_id`. One
  batch advances it past every update, including updates without a message,
  and gives each message at most one reply. The reply is chosen by the
  upper-cased, stripped text, by the chat type and by the fixed
  `COMUNIDADES_CHATS` table.
- **Simple alert pipeline** (`handle_alert` in `alarma/servidor.py`, module
  `SimpleAlert`). It uses the same validation ladder, then sends one group
  message that mentions every opted-in member, the reporter included.
- **Registration server** (`servidor-de-registro.py`, module `Registration`).
  The webhook detects `/registrar` and `/obtener_id` by prefix and always
  answers 200 `{"status": "ok"}`. `register_id` answers 200, 400 or 500
  depending on whether `telegram_id` is truthy.

Python's semantics are written out in `PyValues`: scalar JSON values, their
truthiness (`0`, `0.0`, `""`, `None` and `False` are false), their `str()`
form, `dict.get` with a default, and `upper`, `lower`, `strip` and
`startswith`. `Directory` holds what both alert handlers share: the community
store behind `load_community_json` (lower-cased name to a parsed record, or
an unreadable file), the submission, the response, the validation ladder, the
submission fields with their defaults, and the map-link expression. In the
ladder, an empty community record `{}` counts as not found.

Files: `wrappers.dfy` (Option, Result), `pyvalues.dfy`, `directory.dfy`,
`full_alert.dfy`, `simple_alert.dfy`, `poller.dfy`, `registration.dfy`.

Some behaviour worth stating plainly, because the code does it this way:

- The code has no correlation table of pending reporters and no tiered
  reporter resolver. The reporter comes only from the submission's
  `user_telegram`, and the SOS reply passes it through the web-app link.
- There is no "low-confidence" fallback, and `handle_alert` returns no summary of the sends.
- A community file that cannot be decoded yields 404, like a missing file,
  and not a 5xx.
- The group message is sent after the per-member sends, not before them.
- Calls go only to the selected recipients, and only when both the Twilio
  client and the caller number are configured.

## Model

| member | source | states |
|---|---|---|
| `PyValues.StrIntInjective` | sabadoDies.py:153 | `str()` of two ints is equal exactly when the ints are equal, so comparing ids as strings loses nothing for integer ids |
| `PyValues.Strip` | sabadoDies.py:241 | `strip()` returns the slice of the input between its leading and trailing whitespace: everything removed is whitespace and the result neither starts nor ends with whitespace |
| `PyValues.StripIdempotent` | sabadoDies.py:241 | stripping twice gives the same text as stripping once |
| `Directory.LoadIgnoresCase` | sabadoDies.py:48-59 | the file is chosen by the lower-cased name only: two names that lower-case alike find the same record (or both none), and the upper-cased and the lower-cased name find what the name itself finds (the same function is alarma/servidor.py:43-59) |
| `Directory.ValidationLadder` | sabadoDies.py:130-141 | a falsy `comunidad` gives 400 before any lookup; a truthy name that is not a string gives 500 (its `.lower()` raises); a missing, unreadable or empty (`{}`) record gives 404; a falsy `chat_id` gives 500; otherwise the submission is accepted with that name, chat id and member list |
| `Directory.ResolveOutcomes` | alarma/servidor.py:82-96 | an accepted submission names a string community whose file decoded and whose `chat_id` is truthy; every rejection carries 400, 404 or 500 |
| `Directory.FieldDefaults` | alarma/servidor.py:75-80 | the defaults: "Alerta no especificada", "Sin descripción", "Dirección no disponible", "Anónimo" and "N/A" (the user-name and user-id defaults are at lines 103-104) |
| `Directory.MapLinkRoundTrip` | sabadoDies.py:145 | a link is built exactly when both coordinates are truthy, and the two values parse back out of it; otherwise the field is "Ubicación no disponible" |
| `FullAlert.HandleAlert` | sabadoDies.py:119-192 | the response is the ladder's verdict or "Alerta enviada."; the trace is the send plan in order, with attempt i marked delivered exactly when `delivered(i)`; a failed send changes neither the later sends nor the response: `send_telegram_message` returns None on a request error (lines 80-96), and the error that `make_phone_call` logs and re-raises (lines 76-78) is caught by `handle_alert` itself (lines 176-179) |
| `FullAlert.RecipientsExactly` | sabadoDies.py:153 | a member is a recipient exactly when it is listed, has truthy `alertas_activadas` and has a `str(telegram_id)` different from `str(user_id)` |
| `FullAlert.RecipientsAppend` | sabadoDies.py:153 | recipient selection keeps the listed order: it distributes over concatenation of member lists |
| `FullAlert.ReporterMatchedAcrossTypes` | sabadoDies.py:146-153 | a member stored with integer id n is treated as the reporter whether the reporter's id arrives as n or as its decimal text |
| `FullAlert.MembersPlanTargets` | sabadoDies.py:155-179 | each recipient, in order, gets exactly one private message to its `telegram_id`; calls go, in the same order, to the recipients with a truthy `telefono` when calls are configured, and to nobody otherwise; the loop sends no group message |
| `FullAlert.MembersPlanSendsToRecipients` | sabadoDies.py:157-177 | every send of the recipient loop is a private message to a recipient's `telegram_id` or a call to a recipient's `telefono` |
| `FullAlert.ReporterNeverPrivatelyNotified` | sabadoDies.py:153-170 | no private message goes to a target whose `str()` equals the reporter's id |
| `FullAlert.AlertPlanShape` | sabadoDies.py:181-192 | a rejected submission sends nothing and returns the ladder's error; an accepted one returns "Alerta enviada." and ends with exactly one group message to `chat_id`, after the private messages and calls |
| `FullAlert.AlertMapLink` | sabadoDies.py:143-145 | the messages' map link is `https://maps.google.com/?q=` with both coordinates when both are truthy, and "Ubicación no disponible" otherwise |
| `FullAlert.VillageScenario` | sabadoDies.py:119-192 | worked example: the reporter (opted in, id stored as the int 111, reporting as "111") and an opted-out member give a plan holding only the group message, and the name "Village" finds the file "village" |
| `SimpleAlert.HandleAlert` | alarma/servidor.py:69-127 | a send happens exactly when the ladder accepts; it is the single send, to the community's `chat_id`, with the community upper-cased and the mentions of all opted-in members; the status names the community; a rejection returns the ladder's error |
| `SimpleAlert.OptedInExactly` | alarma/servidor.py:107 | the mentioned members are exactly the listed members with truthy `alertas_activadas`; the reporter is not excluded |
| `SimpleAlert.OptedInAppend` | alarma/servidor.py:107 | the mention list keeps the listed order |
| `SimpleAlert.JoinSnoc` | alarma/servidor.py:111 | `" ".join` puts exactly one separator between consecutive elements |
| `SimpleAlert.NotifiedSnoc` | alarma/servidor.py:107-111 | the notified text grows member by member: an opted-in member's mention is appended after one space, or starts the text; other members add nothing |
| `SimpleAlert.RecipientsAreOptedInMinusReporter` | alarma/servidor.py:107 | the full variant's recipients are this variant's mentioned members with the reporter removed, and are the same list when no mentioned member has the reporter's id |
| `SimpleAlert.SameLadderAsFull` | alarma/servidor.py:82-96 | both variants accept the same submissions, and reject the rest with the same response |
| `SimpleAlert.ReportMapLink` | alarma/servidor.py:99-101 | this variant's link is `https://www.google.com/maps/search/?api=1&query=` with both coordinates when both are truthy, and "Ubicación no disponible" otherwise |
| `TelegramPoller.Poller.constructor` | sabadoDies.py:44 | the poller starts with `last_update_id` unset |
| `TelegramPoller.Poller.ProcessBatch` | sabadoDies.py:233-297 | after a batch, `last_update_id` is one past the last update's id, whether or not that update had a message; the replies are the batch's replies in update order |
| `TelegramPoller.Poller.PollOnce` | sabadoDies.py:219-237 | the request passes an offset only when `last_update_id` is truthy; a failed request changes nothing and sends nothing |
| `TelegramPoller.ClassifyCases` | sabadoDies.py:241-297 | "MIREGISTRO" and "/START" get a reply only in private chats, "SOS" only in a chat listed in `COMUNIDADES_CHATS`, and any other text gets none; every reply goes to the chat it came from; the SOS reply names the mapped community upper-cased; the register prompt opens `WEBAPP_URL/register` |
| `TelegramPoller.ClassifyIgnoresCaseAndSpace` | sabadoDies.py:241 | two texts with the same upper-cased, stripped form get the same reply |
| `TelegramPoller.NormalizeIdempotent` | sabadoDies.py:241 | normalising an already normalised text changes nothing |
| `TelegramPoller.NormalizeSos` | sabadoDies.py:241 | " sos\n" normalises to "SOS" |
| `TelegramPoller.SosInBrisas` | sabadoDies.py:241-288 | " sos\n" typed in the "brisas" group chat gets the SOS reply headed "BRISAS", whose link carries "brisas" and the sender's fields; the chat id may be any value whose `str()` (line 243) is the `COMUNIDADES_CHATS` key |
| `TelegramPoller.BatchRepliesBound` | sabadoDies.py:233-237 | a batch gets at most one reply per update, and none when no update has a message |
| `TelegramPoller.BatchRepliesAnswerTheirChat` | sabadoDies.py:243-297 | every reply of a batch goes to the chat of one of the batch's messages |
| `TelegramPoller.BatchesCompose` | sabadoDies.py:221-234 | two batches processed one after the other leave the same `last_update_id` and send the same replies as their concatenation |
| `Registration.WebhookReplies` | servidor-de-registro.py:22-64 | a reply is attempted exactly for a message that has a chat id and a text starting with "/registrar" or "/obtener_id"; it targets that chat and holds one keyboard row with one "Obtener mi ID" web-app button; the response is always 200 `{"status": "ok"}`; the send's result is not read |
| `Registration.CommandsArePrefixes` | servidor-de-registro.py:35 | any text that begins with a command word is a command, and the empty text is not |
| `Registration.RegisterCodes` | servidor-de-registro.py:66-83 | 200 exactly when `telegram_id` is truthy, 400 when it is missing or falsy (0 included), 500 when the body is not a JSON object; the identical `register_id` of sabadoDies.py is at lines 194-212 |

## Left out

- Flask routing, CORS, `/healthz`, `/`, `/static` and the `GET /api/comunidad/<name>` routes: framework plumbing outside the decision logic.
- File access and JSON decoding in `load_community_json`: the directory is a map from lower-cased name to a parsed record or an unreadable file. A name containing a path separator, which `os.path.join` would resolve elsewhere, is not modelled.
- The HTTP calls to the Telegram Bot API and the Twilio client, with the TwiML they build: abstract channels whose success is an input. In the simple variant, in the poller and in the webhook the send result is ignored by the code, so it is not recorded there.
- The exact HTML, emoji and Spanish wording of the messages: messages keep only their structural fields (target, community, reporter id and name, type, description, link, address, member name). The SOS web-app URL is kept as its query fields, not as one string.
- JSON bodies of the wrong shape are not modelled. This covers `request.json` being None in `handle_alert`, `user_telegram` or `ubicacion` present but not an object, `miembros` not a list, and a community file whose top level is not an object. Each of these raises, which the framework answers with 500. The model takes these as objects and lists. (In the webhook and in `register_id`, a body that is not an object is modelled.)
- In the poller, an update without `update_id` or a message whose `text` is not a string raises and stops the polling thread. Telegram always sends both, so this is not modelled. A `message` that is an empty object `{}` is represented as absent, which is how Python treats it.
- `str.upper` and `str.lower` are modelled on ASCII letters only. Python's full Unicode case mapping (for example "ß" to "SS") is not.
- Floats: a coordinate is kept as its `str()` form and no numeric reasoning is done.
- The polling thread, the infinite `while True`, `time.sleep` and the request timeout: one batch and one poll turn are modelled.
- Environment configuration: "Twilio configured and caller number set" is the boolean `callsEnabled`, and `WEBAPP_URL` is a field of the poller. The start-up exit when `TELEGRAM_BOT_TOKEN` or `WEBAPP_URL` is missing is not modelled.
- Logging (`print`), and concurrency between requests (the code has no shared mutable state besides the poller's cursor).
