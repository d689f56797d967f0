# Request validation and prompt store of the coaching app's API routes

This project models, in Dafny, the deterministic layer of the coaching web
application's API routes: who may call each route, how the request body is
validated and normalised, which HTTP status and JSON body come back, and
what each route writes to the data store. The covered routes are:

- `GET`/`POST /api/clients`: list client profiles, and create one.
- `POST /api/prompts/refine`: rewrite the coach or overseer role prompt from feedback.
- `GET`/`POST /api/overseer`: read the overseer thread, and send a message to it.
- `GET`/`POST /api/prompts/{coach,overseer,report}`: the three role prompts.
- `lib/blob.ts`: copying upload bytes out of a buffer view, and building the upload request.

How the routes are modelled:

- The POST handlers of the refine, overseer and prompt routes each become a
  pure step function from their abstract inputs to an `Outcome`, a response
  plus the store state it leaves. The inputs are the session as an
  `Option<Session>`, the parsed body as `Json.Body`, the relevant store
  state, and the results of the calls that cannot be seen.
- POST /api/clients is the function `ClientsRoute.Validate`, which yields
  either the profile to create or the rejection to answer with, followed by
  the method `ClientsRoute.Post`, which writes the profile.
- Each GET handler is a function giving the response (`OverseerRoute.GetResponse`,
  `PromptRoutes.View`) or, for GET /api/clients, only a method.
- The data store is the class `DataStore.Store`. It holds a client
  sequence, a map from agent kind (COACH, OVERSEER, REPORT) to the stored
  prompt record, the feedback log and the overseer thread.
- Each route is also a method that runs against that class through its
  methods. Its `ensures` ties the new store state and the response to the
  step function or response function where there is one.
- The JavaScript operations the handlers rely on are written out. These are
  truthiness, `typeof`, optional property reads, `?? ""`, `toString()` and
  `String.prototype.trim` with the ECMAScript white-space set. `toString()`
  includes the `TypeError` it throws on an object that carries its own
  `toString` member, which inside a handler's `try` block becomes a 500.

## Model

| member | source | states |
|---|---|---|
| `ClientsRoute.Get` | app/api/clients/route.ts:6-9 | GET answers 200 with the whole client list, in store order, and takes no session. |
| `ClientsRoute.FilterGoals` | app/api/clients/route.ts:37-39 | A goal is kept iff it is a string whose trimmed text is non-empty. Kept goals are the strings as sent, not trimmed. There are never more kept goals than input elements. |
| `ClientsRoute.FilterGoalsAppend` | app/api/clients/route.ts:38 | Filtering distributes over concatenation, so the kept goals keep their input order. |
| `ClientsRoute.KeptGoalsSurvive` | app/api/clients/route.ts:38 | A list of non-blank strings passes the filter unchanged. |
| `ClientsRoute.FilterGoalsIdempotent` | app/api/clients/route.ts:37-39 | Normalising already normalised goals gives them back unchanged. |
| `ClientsRoute.NormalizeGoals` | app/api/clients/route.ts:37-39 | Goals that are missing or not an array become the empty list. For an array, the result is exactly `FilterGoals` of its elements: the non-blank strings, as sent and in order. Every normalised goal is a non-blank string that was an element of the sent array. |
| `ClientsRoute.Validate` | app/api/clients/route.ts:16-47 | No session or a non-ADMIN role gives 403. A payload that is unparseable or not an object/array gives 400 "Ongeldig verzoek". A name that is missing, not a string or blank gives 400 "Naam is verplicht". Success holds iff the caller is an admin and the payload is an object with a non-blank string name. The name is kept untrimmed. A non-string focusArea or summary becomes "", and a non-string avatarUrl becomes undefined. |
| `ClientsRoute.Post` | app/api/clients/route.ts:11-50 | A rejection is returned as is and creates no client. On acceptance exactly one client, built from the validated fields, is appended and returned with 201. Prompts, feedback and thread are unchanged. |
| `RefineRoute.NormalizeAgentType` | app/api/prompts/refine/route.ts:15-23 | "COACH" maps to COACH and "OVERSEER" to OVERSEER, in both directions. Every other input, undefined and "REPORT" included, maps to no kind. |
| `RefineRoute.BasePrompt` | app/api/prompts/refine/route.ts:25-32 | For coach and overseer, the base prompt is the stored text or that kind's default, the same text the prompt GET route shows. |
| `RefineRoute.RefineStep` | app/api/prompts/refine/route.ts:34-89 | 403 "Niet geautoriseerd" iff not admin, with no 401 case. An unparseable body or an unknown agent type gives 400. No feedback of the kind gives 400. Once feedback exists, a failed rewrite or a failed save gives 500 "Prompt herschrijven is mislukt." and leaves the prompts. 200 iff an admin named COACH or OVERSEER, that kind has feedback, the refiner returned text and the save succeeded. Only a 200 changes the prompts: the requested kind's entry becomes the rewritten text. The 200 echoes the kind, the saved text and the feedback used (at most 10 entries, non-empty). The refiner was given the effective prompt. The REPORT entry never changes. |
| `RefineRoute.RejectedBeforeRefining` | app/api/prompts/refine/route.ts:39-56 | A 400 or 403 outcome does not depend on the refiner, so the refiner is never run before those checks pass. |
| `RefineRoute.GetBasePrompt` | app/api/prompts/refine/route.ts:25-32 | The store read returns `BasePrompt` of the current prompts. |
| `RefineRoute.Post` | app/api/prompts/refine/route.ts:34-89 | Running against the store yields the response and prompts of `RefineStep`. Clients, feedback and thread are unchanged. |
| `OverseerRoute.AuthGate` | app/api/overseer/route.ts:13-19 | No session gives 401. A session without the ADMIN role gives 403. Only an administrator passes. |
| `OverseerRoute.GetResponse` | app/api/overseer/route.ts:8-23 | 200 with the thread iff admin. No session gives 401 and a signed-in non-admin 403, both with "Niet geautoriseerd". |
| `OverseerRoute.Get` | app/api/overseer/route.ts:8-23 | GET answers `GetResponse` for the stored thread. |
| `OverseerRoute.PostStep` | app/api/overseer/route.ts:25-66 | 401 iff no session, and 403 iff a non-admin session, both with "Niet geautoriseerd" and the thread untouched. 500 "Overzichtscoach is tijdelijk niet bereikbaar." iff an admin's body is unparseable, its message's `toString` throws, or the agent fails on a non-blank message. A blank message gives 400. A 200 happens iff an admin sent a non-blank message and the agent replied; it returns reply, responseId, usage and the thread after the run. The thread changes only once the agent has run, to what the agent left, whether it replied or failed. |
| `OverseerRoute.AgentRunsOnlyForValidMessages` | app/api/overseer/route.ts:38-49 | Unless an administrator sent a readable, non-blank message, the outcome does not depend on the agent. |
| `OverseerRoute.Post` | app/api/overseer/route.ts:25-66 | Running against the store yields the response and thread of `PostStep`. Clients, prompts and feedback are unchanged. |
| `PromptRoutes.View` | app/api/prompts/coach/route.ts:6-13 | GET shows the stored text or the kind's default. isCustom is true iff a record exists. updatedAt is null iff none exists. |
| `PromptRoutes.PostStep` | app/api/prompts/coach/route.ts:15-41 | An unparseable body, a prompt whose `toString` throws, or a failed save gives 500 "Prompt opslaan is mislukt.". Text that is blank after trimming gives 400. Neither changes the prompts. 200 iff readable, non-blank and saved. It stores the trimmed text under the kind and echoes it with isCustom true. |
| `PromptRoutes.PostStepTouchesOnlyKind` | app/api/prompts/coach/route.ts:27 | POST for one kind never changes the record, or the GET answer, of any other kind. |
| `PromptRoutes.PostThenGet` | app/api/prompts/coach/route.ts:6-33 | After a successful POST, GET reads back the trimmed text, the save time and isCustom true. |
| `PromptRoutes.Get` | app/api/prompts/coach/route.ts:6-13 | GET answers 200 with `View` of the stored prompts. |
| `PromptRoutes.Post` | app/api/prompts/coach/route.ts:15-41 | Running against the store yields the response and prompts of `PostStep`. Clients, feedback and thread are unchanged. |
| `PromptRoutes.GetCoachPrompt` | app/api/prompts/coach/route.ts:6-13 | GET shows the coach record or DEFAULT_COACH_ROLE_PROMPT. |
| `PromptRoutes.PostCoachPrompt` | app/api/prompts/coach/route.ts:15-41 | POST goes through `PostStep` for the COACH kind. |
| `PromptRoutes.GetOverseerPrompt` | app/api/prompts/overseer/route.ts:6-13 | GET shows the overseer record or DEFAULT_OVERSEER_ROLE_PROMPT. |
| `PromptRoutes.PostOverseerPrompt` | app/api/prompts/overseer/route.ts:15-41 | POST goes through `PostStep` for the OVERSEER kind. |
| `PromptRoutes.GetReportPrompt` | app/api/prompts/report/route.ts:6-13 | GET shows the report record or DEFAULT_REPORT_ROLE_PROMPT. |
| `PromptRoutes.PostReportPrompt` | app/api/prompts/report/route.ts:15-41 | POST goes through `PostStep` for the REPORT kind. |
| `Blob.SliceArrayBuffer` | lib/blob.ts:48 | The result is never longer than the buffer. Bounds inside the buffer select exactly that window. |
| `Blob.BufferFrom` | lib/blob.ts:47 | The new Buffer holds exactly the viewed bytes. |
| `Blob.ToArrayBuffer` | lib/blob.ts:43-49 | An ArrayBuffer is returned unchanged. A view gives exactly the `byteLength` bytes from `byteOffset` onward. |
| `Blob.OutsideWindowIgnored` | lib/blob.ts:47-48 | Bytes of the underlying buffer outside the view never affect the result. |
| `Blob.UploadHeaders` | lib/blob.ts:25-31 | Authorization, version, operation and filename headers are always present, in that order. Content-Type is present iff a non-empty content type is given. |
| `Blob.UploadRequest` | lib/blob.ts:19-33 | Without a non-empty token the result is the missing-token error. Otherwise it is a POST to the API URL with those headers and the copied bytes. |
| `Blob.UploadToBlob` | lib/blob.ts:14-41 | No token gives the missing-token error. A non-ok response gives "Blob upload failed: status text". An ok response gives its body text. |
| `Blob.MissingTokenSendsNothing` | lib/blob.ts:19-21 | Without a token the outcome does not depend on `fetch`, so no request is issued. |
| `Blob.FailureMessageNamesStatus` | lib/blob.ts:35-38 | The response status can be read back from the error message, whatever the response text. |
| `Text.Trim` | app/api/clients/route.ts:33 | `trim` returns the infix between blank flanks, starting and ending with non-white-space. It is empty iff the string is blank. |
| `Text.TrimUnique` | app/api/clients/route.ts:38 | Any infix with blank flanks and non-white-space ends is the trimmed string. |
| `Text.TrimIdempotent` | app/api/overseer/route.ts:40 | Trimming twice is trimming once. |
| `Text.NatToString` | lib/blob.ts:37 | The decimal form of a status is non-empty digits without a leading zero. |
| `Text.NatToStringRoundTrip` | lib/blob.ts:37 | The decimal form reads back as the same number. |
| `Json.StringForm` | app/api/overseer/route.ts:40 | `String(v)`: a string gives itself, a convertible object "[object Object]", and the conversion throws exactly when the value is, or holds through arrays, an object with its own `toString` member. |
| `Json.FieldText` | app/api/overseer/route.ts:40 | `(body?.key ?? "").toString()` is "" for a missing or null field and the string itself for a string field. It throws exactly when the field's value cannot be converted. |
| `Json.TrimmedFieldText` | app/api/overseer/route.ts:39-40 | Reading `(body?.key ?? "").toString().trim()` fails exactly when the body is unparseable or the conversion throws. Otherwise it is "" for a missing or null field and the trimmed string for a string field, and it is empty iff the field's string form is blank. The overseer message and the prompt text of app/api/prompts/coach/route.ts:17-18 are both read this way. |
| `Json.TrimmedFieldTextIsTrimmed` | app/api/prompts/coach/route.ts:18 | The stored prompt, or the message handed to the overseer agent, has no white space left to trim. |
| `Domain.FeedbackOfKind` | app/api/prompts/refine/route.ts:50 | Exactly the log's entries of the kind. |
| `Domain.RecentFeedback` | app/api/prompts/refine/route.ts:50 | At most `limit` entries, all of the kind and from the log. For a positive limit it is empty iff the log holds none of that kind. |
| `DataStore.Store.GetClients` | app/api/clients/route.ts:7 | Returns the stored client list. |
| `DataStore.Store.CreateClient` | app/api/clients/route.ts:41-47 | Appends exactly the new client, and nothing else changes. |
| `DataStore.Store.GetPrompt` | app/api/prompts/coach/route.ts:7 | Returns the stored record of the kind, if any. |
| `DataStore.Store.UpdatePrompt` | app/api/prompts/coach/route.ts:27 | Overwrites the record of one kind with the text and time, and nothing else changes. |
| `DataStore.Store.ListAgentFeedback` | app/api/prompts/refine/route.ts:50 | Returns `RecentFeedback` of the log. |
| `DataStore.Store.GetOverseerThread` | app/api/overseer/route.ts:21 | Returns the stored thread. |
| `DataStore.Store.SetOverseerThread` | app/api/overseer/route.ts:49 | Replaces the thread, and nothing else changes. |

POST /api/clients and POST /api/prompts/refine answer 403 for a missing
session too, and GET /api/clients reads no session at all; only
the overseer route separates 401 from 403. The three prompt routes check
no session at all.

## Left out

- The streaming coach chat, the per-client, document and report routes, and `components/auth/auth-form.tsx` are not part of this model. They are UI, streaming and upload I/O outside the validation layer.
- Session lookup (`auth.api.getSession`) is an external provider. Its answer is the `Option<Session>` input.
- JSON parsing of request bodies is not modelled. The parsed value, or `Malformed`, is the input.
- JSON numbers are integers here. The string form of fractional or exponent numbers is not modelled.
- Json.StringForm: an integer is written with its exact decimal digits. JavaScript writes magnitudes of 10^21 and more in exponent form ("1e+21"), and `JSON.parse` rounds integers beyond 2^53 to the nearest double; neither is modelled, because the model has no floating-point numbers.
- Only a body's own members are read. The keys the routes read are not inherited by arrays, strings or objects.
- Strings are sequences of Unicode scalar values. UTF-16 surrogate halves are not modelled.
- `lib/data/store` is not part of this model. It is abstracted as `DataStore.Store`.
- `Domain.RecentFeedback`: which ten entries `listAgentFeedback` returns depends on `lib/data/store`, which is not shown. The model takes the ten most recently recorded entries of the kind.
- Store calls whose failures the routes do not catch are assumed to succeed. These are `getClients`, `createClient`, the prompt reads, `listAgentFeedback`, `getBasePrompt` and the `getOverseerThread` of GET /api/overseer. An uncaught failure would become the framework's own error response.
- A failure of `getOverseerThread` after the agent has run would be caught and answered with 500. It is not modelled.
- The store writes the routes do catch are modelled as a `saveOk` input. A failed `updateCoachPrompt`, `updateOverseerPrompt` or `updateReportPrompt` is assumed to write nothing, so the prompts stay as they were. The language-model calls `refinePromptWithFeedback` and `runOverseerAgent` are opaque function inputs. What the agent writes to the thread, whether it then replies or throws, is the thread its run reports.
- Timestamps are opaque. The `updatedAt` the store assigns is the `now` input.
- The default role prompts' text lives in `lib/agents/prompts`, which is not part of this model. Named stand-ins keep the three defaults apart.
- `console.error` logging is not modelled.
- In `lib/blob.ts`, the environment read at module load is the `BlobEnv` input, `fetch` is the `send` input, and the ok response's JSON decoding is left out: the result is the response text.
- Blob.UploadToBlob: `send` always yields a response. A `fetch` that rejects, as on a network error, would pass its error on to the caller; that case is not modelled.
- `Blob.BufferFrom`: the copy is placed at offset 0. Node may place it in a shared pool at another offset. The bytes that reach the result are the same either way.
