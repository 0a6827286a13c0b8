# Clinic booking over WhatsApp — a Dafny model

This project models the request-handling core of a clinic's appointment-booking service. The service has two parts:

- A **WhatsApp webhook**. Its `POST` handler receives a batch of inbound messages and dispatches them in order. Each text message drives a per-phone booking conversation, `handleConversation`, through the steps `init → ask_name → ask_date → ask_time → ask_reason → confirm`. The conversation then ends by calling `schedule` or by clearing the session. Its `GET` handler answers the provider's subscription challenge.
- Two **admin routes**, guarded by `checkAuth`:
  - `/api/admin/appointments` lists the appointments (`GET`) or wipes the store (`DELETE`).
  - `/api/admin/availability` passes `getAvailability(date)` through (`GET`).

Modules:

- `Optional`: an `Option` type for absent parameters, headers and environment variables.
- `Formats`: `normalize` (JavaScript `trim`, covering the full ECMAScript white-space set), `isDateStr` and `isTimeStr`, and ASCII lower-casing. The two regular expressions are modelled as a fixed-length pattern matcher (`Matches`) over digit and literal atoms.
- `Services`: the collaborators, as classes.
  - `Store` holds the session map, the appointment list and a count of `clearAll` calls.
  - `Scheduler` holds the scheduler's behaviour as an `Oracle` plus a log of every `schedule` call.
  - `Outbox` holds every text sent, each as a reply kind.
- `Webhook`: the three webhook operations.
  - `Turn` is the pure specification of one `handleConversation` call, on a `World` snapshot. `HandleConversation` is the imperative method over the three objects and is proved equal to `Turn`.
  - `RunBatch` specifies the `POST` loop, and `Post` is proved against it.
  - `VerifyGet` is the `GET` decision.
- `WebhookProperties`: the properties of the conversation.
- `Admin`: `checkAuth` and the three admin handlers.

Sessions are a tagged datatype with one constructor per step. Each constructor carries exactly the fields collected so far, so "fields match the step" holds by construction. `WellFormed` states the stronger invariant that every collected field has the form its step accepts.

Points where the code behaves in a way a reader might not expect, which the model follows:

- The first message from an unknown phone only brings the greeting, and its text is ignored (route.ts:35-43, `FirstContact`). `BookingConversation` therefore starts with a greeting text before the name.
- The negative answer tokens are `"nao"`, `"n?o"` and `"n"` (route.ts:130). The middle one is the literal token with a question mark, and the model uses that token.
- A text message with an empty body also gets the text-only reply, because `m.text?.body` is falsy for `""` (route.ts:149-152).

## Model

| member | source | states |
|---|---|---|
| `Formats.TrimStartSpec` | app/api/whatsapp/webhook/route.ts:21 | Leading trimming keeps a suffix. Everything it removes is white space, and what is left does not start with white space. |
| `Formats.TrimEndSpec` | app/api/whatsapp/webhook/route.ts:21 | Trailing trimming keeps a prefix. Everything it removes is white space, and what is left does not end with white space. |
| `Formats.TrimSpec` | app/api/whatsapp/webhook/route.ts:21 | `trim` yields the infix with only white space around it, and that infix neither starts nor ends with white space. |
| `Formats.TrimmedFixpoint` | app/api/whatsapp/webhook/route.ts:21 | A string with no white space at either end is unchanged by `trim`. |
| `Formats.TrimIdempotent` | app/api/whatsapp/webhook/route.ts:21 | Trimming twice gives the same result as trimming once. |
| `Formats.NormalizeTrimmed` | app/api/whatsapp/webhook/route.ts:20-22 | An absent text normalises to `""`, and every normalised text is already trimmed. |
| `Formats.MatchesIff` | app/api/whatsapp/webhook/route.ts:24-29 | An anchored fixed-length pattern accepts exactly the strings of its length whose every character matches the atom at its position. |
| `Formats.IsDateStrIff` | app/api/whatsapp/webhook/route.ts:24-26 | `isDateStr` holds iff the string has length 10, has `-` at indices 4 and 7, and has an ASCII digit everywhere else. |
| `Formats.IsTimeStrIff` | app/api/whatsapp/webhook/route.ts:27-29 | `isTimeStr` holds iff the string has length 5, has `:` at index 2, and has an ASCII digit everywhere else. |
| `Formats.DateNoRangeCheck` | app/api/whatsapp/webhook/route.ts:24-26 | `"2025-13-99"` passes the date check: months and days are not range-checked. |
| `Formats.TimeNoRangeCheck` | app/api/whatsapp/webhook/route.ts:27-29 | `"99:99"` passes the time check, and `"9:30"` does not. |
| `Formats.ToLowerSpec` | app/api/whatsapp/webhook/route.ts:116 | `toLowerCase` keeps the length, turns each ASCII capital into its small letter, leaves every other character as it is, and leaves no ASCII capital. |
| `Formats.ToLowerIdempotent` | app/api/whatsapp/webhook/route.ts:116 | Lower-casing twice gives the same result as lower-casing once. |
| `Webhook.VerifyGet` | app/api/whatsapp/webhook/route.ts:14-15 | When the challenge is answered, the body is the challenge, or `""` when it is absent. |
| `Webhook.VerifyIff` | app/api/whatsapp/webhook/route.ts:8-18 | The challenge is answered iff the mode is `subscribe` and the token is present and equal to the configured one. With no configured token the answer is always 403. |
| `Webhook.Shown` | app/api/whatsapp/webhook/route.ts:69 | The listed slots are the first `min(8, n)` slots, in their order. |
| `Webhook.HandleConversation` | app/api/whatsapp/webhook/route.ts:31-139 | After the call, the sessions, appointments, sent texts and `schedule` calls equal `Turn` applied to their old values. `clearAll` is not called. |
| `Webhook.Post` | app/api/whatsapp/webhook/route.ts:141-156 | Always answers ok. The new state is the batch dispatched in array order, and a missing or empty batch changes nothing. |
| `WebhookProperties.TurnSendsOneReply` | app/api/whatsapp/webhook/route.ts:31-139 | Every call appends exactly one text, addressed to the caller's phone. No other phone's session changes. |
| `WebhookProperties.ScheduleOnlyOnYes` | app/api/whatsapp/webhook/route.ts:115-126 | A call makes at most one `schedule` call. It makes one iff the session is at `confirm` and the lower-cased answer is affirmative. The call carries the stored name, date, time and reason and the phone. Without a call, the appointments are unchanged. |
| `WebhookProperties.FirstContact` | app/api/whatsapp/webhook/route.ts:35-43 | An absent session, or one at `init`, becomes `ask_name` with a greeting, whatever the text. Nothing else changes. |
| `WebhookProperties.NameStep` | app/api/whatsapp/webhook/route.ts:45-53 | `ask_name` becomes `ask_date` with the trimmed text as the name, or `"Paciente"` when that text is empty. |
| `WebhookProperties.DateStep` | app/api/whatsapp/webhook/route.ts:55-76 | `ask_date` advances to `ask_time(name, date)` iff the date is well-formed, is a business day and has a free slot. The reply then lists the first `min(8, n)` slots in order. Otherwise the session is unchanged and the reply names the first failed check. |
| `WebhookProperties.TimeStep` | app/api/whatsapp/webhook/route.ts:78-96 | `ask_time` advances to `ask_reason(name, date, time)` iff the time is well-formed and is in the full, freshly computed slot list of the stored date. Otherwise the session is unchanged. |
| `WebhookProperties.ReasonStep` | app/api/whatsapp/webhook/route.ts:98-113 | `ask_reason` becomes `confirm`, carrying the name, date and time over. The reason is the trimmed text, or `"Consulta"` when that text is empty. |
| `WebhookProperties.AnswerStep` | app/api/whatsapp/webhook/route.ts:115-138 | `sim`, `s` or `confirmo` in any letter case makes one `schedule` call and clears the session, whether the booking succeeds or fails. `nao`, `n?o` or `n` clears the session without booking. Any other answer changes nothing but the outbox. |
| `WebhookProperties.AnswerInAnyLetterCase` | app/api/whatsapp/webhook/route.ts:116-130 | An answer that matches an accepted token letter for letter, in any mix of capitals and small letters, is accepted as that token. |
| `WebhookProperties.TerminalAnswerClears` | app/api/whatsapp/webhook/route.ts:117-133 | After a yes or a no, no session remains for the phone, so its next message restarts at the greeting. |
| `WebhookProperties.UnchangedIffRefused` | app/api/whatsapp/webhook/route.ts:55-137 | The stored sessions stay the same iff the step refuses the input. The refused inputs are a bad or unavailable date, a bad or unavailable time, or an unrecognised answer. Then only the outbox changes. |
| `WebhookProperties.RepromptIdempotent` | app/api/whatsapp/webhook/route.ts:55-137 | A refused input repeated `n` times leaves the sessions, appointments and `schedule` calls unchanged. It sends the same reprompt `n` times. |
| `WebhookProperties.DefaultsAreFieldText` | app/api/whatsapp/webhook/route.ts:46-99 | The defaults `"Paciente"` and `"Consulta"` are non-empty and trimmed. |
| `WebhookProperties.TurnKeepsWellFormed` | app/api/whatsapp/webhook/route.ts:36-107 | Every `setSession` writes the fields collected so far, each in the form its step accepts. The name and reason are non-empty and trimmed, the date passes `isDateStr` and the time passes `isTimeStr`. |
| `WebhookProperties.BatchKeepsWellFormed` | app/api/whatsapp/webhook/route.ts:141-156 | A whole batch keeps every stored session well-formed. |
| `WebhookProperties.NonTextMessage` | app/api/whatsapp/webhook/route.ts:149-153 | A message that is not text, or has an empty body, gets the text-only reply and changes nothing else. |
| `WebhookProperties.BatchOneReplyEach` | app/api/whatsapp/webhook/route.ts:147-154 | A batch sends exactly one text per message, in array order, each to its message's sender. It makes at most one `schedule` call per message. |
| `WebhookProperties.BookingConversation` | app/api/whatsapp/webhook/route.ts:31-139 | From a new phone, six texts request the booking: a greeting, a name, a free business date, one of its slots, a reason and a yes. This makes exactly one `schedule` call with the collected fields and clears the session. |
| `Services.Store.SetSession` | app/api/whatsapp/webhook/route.ts:37 | `setSession` replaces the phone's session whole and leaves everything else unchanged. |
| `Services.Store.ClearSession` | app/api/whatsapp/webhook/route.ts:121 | `clearSession` removes the phone's session only. |
| `Services.Store.ClearAll` | app/api/admin/appointments/route.ts:21 | `clearAll` empties sessions and appointments, and is counted. |
| `Services.Scheduler.Schedule` | app/api/whatsapp/webhook/route.ts:118 | A `schedule` call is logged with its arguments, and commits what the scheduler commits. |
| `Services.Outbox.Send` | app/api/whatsapp/webhook/route.ts:38-41 | `sendWhatsAppText` appends one text to the outbox. |
| `Admin.NoTokenNoAccess` | app/api/admin/appointments/route.ts:9 | With `ADMIN_TOKEN` unset or empty, no request is authorised. |
| `Admin.BearerHeader` | app/api/admin/appointments/route.ts:7-9 | `"Bearer " + t` is accepted iff `t` is the configured, non-empty token. Exactly 7 characters are stripped. |
| `Admin.RawHeader` | app/api/admin/appointments/route.ts:7-9 | A header without the prefix is compared whole. A missing header, which becomes `""`, is never accepted. |
| `Admin.PrefixIsExact` | app/api/admin/appointments/route.ts:8 | The prefix match is case-sensitive (`"bearer t"` is rejected), and the prefix is stripped only once. |
| `Admin.AppointmentsGet` | app/api/admin/appointments/route.ts:12-16 | Answers 401 iff unauthorised. Otherwise the items are exactly the store's appointments. Nothing changes. |
| `Admin.AppointmentsDelete` | app/api/admin/appointments/route.ts:18-23 | When unauthorised, answers 401 and leaves the store unchanged. When authorised, makes one `clearAll` call and answers ok. |
| `Admin.AvailabilityGet` | app/api/admin/availability/route.ts:12-18 | Answers 401 iff unauthorised, even when the date is missing. A missing or empty date gets 400. Otherwise the body is exactly `getAvailability(date)`, with no format check. |
| `Admin.RejectionIgnoresScheduler` | app/api/admin/availability/route.ts:13-17 | On 401 or 400 the answer does not depend on `getAvailability`, so it is not consulted. |

`checkAuth` is written identically in app/api/admin/availability/route.ts:6-10. It is modelled once, as `Admin.CheckAuth`.

## Left out

- `lib/store`, `lib/scheduler` and `lib/whatsapp` are not part of this model.
  - The calendar policy, slot arithmetic, double-booking checks and `humanTime` rendering are hidden behind the `Oracle`. The `Oracle` is an arbitrary function of the committed appointments.
  - The store is assumed to keep one session per phone under get/set/clear, with `clearSession` removing only that phone's entry.
  - Extracting messages from the webhook payload (`extractIncomingMessages` in `lib/whatsapp`) is a parameter: the message list, or `None` when it is not an array.
- `Services.Store.ClearAll`: assumed to empty sessions and appointments. The evidence in the source is the comment `simplistic: wipe all` at app/api/admin/appointments/route.ts:20, the admin page's confirmation "apagar todos os dados (sess?es e agendamentos)" before it sends `DELETE` (app/admin/page.tsx:56), and the page emptying its list afterwards (app/admin/page.tsx:61-63).
- Sending never fails, and `async`/`await` ordering is not modelled. The order of the send and the `setSession` call at route.ts:70-74 is therefore immaterial.
- Concurrency between webhook deliveries is out: each call is modelled as atomic.
- HTTP framing, URL and query parsing, `req.json()` and its `catch`, and `process.env` are out. Headers, query parameters and environment variables are `Option` parameters.
- Reply wording, including the `?` characters in the Portuguese texts, is modelled as reply kinds carrying the values the texts interpolate.
- `Formats.ToLower`: lower-cases ASCII letters only, because full Unicode case mapping is out of reach.
- Sessions whose stored `step` is none of the six known steps, or that lack a field their step needs, cannot arise from these routes. The tagged `Session` type excludes them. For an unknown step, the source would send nothing.
- `Admin.AvailabilityGet`: takes `getAvailability` as a function of the date alone, already applied to the current appointments, because the route reads nothing else.
- The UI pages (app/admin/page.tsx, app/page.tsx, app/layout.tsx) are presentation only and are not modelled.
