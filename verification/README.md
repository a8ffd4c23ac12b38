# Aircall inbound-call routing, modelled in Dafny

This is a model of the routing relay that sits between Aircall and HubSpot. It models the
`POST /aircall/calls` webhook handler. When the handler gets a `call.created` event for an
`inbound` call, it does four things in turn:

1. It normalises the caller number by removing all whitespace.
2. It searches HubSpot for the contact with that phone number and reads the contact's owner.
3. It fetches the owner's email and scans the Aircall user directory for the first user with
   that email.
4. If that user passes both availability checks, it transfers the call to them.

Any other event is logged and acknowledged.

The handler is modelled as one pure function, `Router.HandleCallsPost`. Its inputs are the
webhook payload and the three remote answers it would wait for: the contact search, the owner
record and the directory listing. It returns an `Outcome` with three parts:

- the acknowledgement sent to the webhook sender;
- the ordered list of outbound requests the handler issues (`ContactSearch`, `OwnerFetch`,
  `DirectoryFetch`, `TransferPost`);
- the decision, which is `Transfer(callId, agentId)` or `Abort(reason)`.

Files and modules:

- `js_values.dfy` (`JsValues`): JSON property values as the handler's JavaScript reads them.
  `Prop` is `Undefined | Null | Str(s)`, and strict equality `===` is datatype equality. This
  model keeps both the strict `=== null` owner check and the `===` email match.
- `optional.dfy` (`Optional`): a value that may be absent, such as the webhook's `data`
  object or the position a directory scan finds.
- `phone.dfy` (`Phone`): `raw.replace(/\s/g, "")`, where `\s` is the exact ECMAScript
  whitespace and line-terminator set.
- `webhook.dfy` (`Webhook`): the payload and the handler's event and direction tests.
- `crm.dfy` (`Crm`): the HubSpot contact search and owner record.
- `directory.dfy` (`Directory`): the Aircall directory scan (`Array.prototype.find`) and the
  dual availability check.
- `router.dfy` (`Router`): the lookup chain, the whole handler, and its properties.
- `scenarios.dfy` (`Scenarios`): end-to-end runs on concrete payloads.

Three behaviours of the code are easy to miss, and the model keeps them:

- **The acknowledgement is not unconditional.** Suppose the event is `call.created` and `data`
  is missing. Or suppose the call is inbound and `raw_digits` is not a string. In both cases a
  property read throws on line 160 or 162, before `res.sendStatus(200)` on line 211 runs. The
  model answers `Threw` there (`Router.AcknowledgedUnlessThrows`). Every other payload gets
  200, whatever the lookups answer.
- **Only an owner id that is exactly `null` is rejected.** A contact with no `hubspot_owner_id`
  property goes on to the owner lookup, as `/owners/undefined`
  (`Router.MissingOwnerIdIsFetched`).
- **Missing emails match each other.** The email match is `===` on whatever the owner record
  holds. So an owner record without `email` matches the first directory user without `email`.

## Model

| member | source | states |
|---|---|---|
| Phone.StripWhitespace | index.js:33 | The normalised number contains no whitespace character and is no longer than the raw number |
| Phone.StripConcat | index.js:162 | Normalisation works piece by piece: normalising `a + b` gives normalised `a` followed by normalised `b`, so kept characters keep their relative order |
| Phone.StripUnchangedIff | index.js:33 | A number is left unchanged exactly when it contains no whitespace |
| Phone.StripIdempotent | index.js:162 | Normalising an already normalised number changes nothing |
| Phone.StripCounts | index.js:33 | Each non-whitespace character occurs as often after normalisation as before, and no whitespace character survives |
| Phone.SpacedNumberExample | index.js:33 | `"+1 415 555 0100"` normalises to `"+14155550100"` |
| Crm.ResolveContact | index.js:165-183 | An unreachable search, an empty result, a first result whose owner id is exactly `null`, and a first result with any other owner id lead to four different outcomes; the contact passed on is the first result |
| Directory.FindByEmail | index.js:90-92 | The index returned is that of the first user whose email strictly equals the owner's; none is returned exactly when no user matches |
| Directory.FirstMatchUnique | index.js:90-92 | At most one position is the first match |
| Directory.ResolveAgent | index.js:86-110 | An unreachable directory, no matching user, a first match failing the availability check, and a first match passing it (`available` true and status `"available"`) give four distinct results; the agent id is the matched user's id |
| Router.AcknowledgedUnlessThrows | index.js:158-211 | The webhook gets status 200 exactly when the payload reads do not throw, whatever the lookups answer; otherwise the handler throws |
| Router.LookupsOnlyForInboundCalls | index.js:159-210 | A request is issued exactly when the event is `call.created`, the direction `inbound` and the number a string; every other event is aborted without lookup or transfer |
| Router.SearchUsesNormalisedNumber | index.js:33 | The contact search filters on the caller number with all whitespace removed |
| Router.RequestsFollowStages | index.js:165-194 | The i-th request is always issued by stage i (search, owner, directory, transfer): at most four requests, in order, none repeated |
| Router.EmptySearchAborts | index.js:168-172 | An empty search result aborts with "not found" after the search alone: no owner lookup, directory lookup or transfer |
| Router.OnlyFirstContactUsed | index.js:174-183 | Two search results with the same first contact give the same outcome |
| Router.NullOwnerAborts | index.js:176-180 | A first contact whose owner id is exactly `null` aborts before the owner lookup |
| Router.MissingOwnerIdIsFetched | index.js:176-183 | A missing owner id is not rejected: the owner lookup is requested for `undefined` |
| Router.NoMatchingAgentAborts | index.js:94-98 | When no directory user has the owner's email, nothing is transferred; for a routed call whose first contact has an owner, the chain aborts as "agent not found" right after the search, owner and directory requests |
| Router.UnavailableAgentAborts | index.js:104-110 | A first match with `available` false, or with a status other than `"available"`, is aborted as unavailable and nothing is transferred |
| Router.TransferIff | index.js:158-195 | The call is transferred to `agentId` exactly when all of these hold: the event is an inbound new call; the first contact has a non-null owner; the owner and directory lookups answer; `agentId` is the id of the first directory user with the owner's email; that user passes both availability checks; the call id is the webhook's `data.id` |
| Router.TransferExactlyOnce | index.js:189-194 | A transfer decision issues exactly one transfer request, as the last request, carrying the webhook's call id and the matched agent's id; an abort issues none |
| Router.RunTransfers | index.js:189-194 | The lookup chain's last request is a transfer exactly when it decides to transfer, and no earlier request is one |
| Scenarios.AvailableOwnerGetsTheCall | index.js:158-195 | For a call from `"+1 415 555 0100"`, the contact owned by 42, the owner `ana@co.com` and available user u9, the requests are search `+14155550100`, owner 42, directory, transfer of call_1 to u9 |
| Scenarios.UnknownOwnerEmailAborts | index.js:94-98 | The same call when the only directory email differs in case: the chain aborts after the directory fetch without a transfer |
| Scenarios.OtherEventIgnored | index.js:208-211 | A `call.ended` event is acknowledged with 200 and nothing is requested |

## Left out

- The Express server, body parsing, the `GET /` health route and `app.listen` are framework plumbing (index.js:1-12, 150-152, 214-216).
- The HTTPS requests to HubSpot and Aircall are not modelled. Their answers are inputs, and each failure is a single `Unreachable` variant. The same applies to URL, query and credential construction and to environment configuration. Only the argument each request carries is recorded: the phone filter, the owner path, the call and user ids.
- JSON parsing of response bodies (index.js:89, 185) is not modelled. Responses arrive already parsed. A body that does not parse, or has no `users` array, is the failure variant.
- Promises, callbacks and timing are not modelled. In the code, the 200 goes out before the lookups finish. The model keeps only the order of the requests within one event.
- Two lookup failures are modelled as plain aborts although the code throws where nothing catches. A failed contact search makes `getContact` resolve to `undefined`, so reading `data.results` (index.js:168) rejects a `.then` that has no `.catch`: `Abort(ContactLookupFailed)`. A failed directory fetch makes `JSON.parse` throw inside the request callback, outside the surrounding `try` (index.js:85-114): `Abort(DirectoryLookupFailed)`. What an unhandled rejection or an uncaught exception does to the process depends on the Node runtime, which is not part of this model.
- Logging is left out: every `console.log` and `console.info` line, including the contact's first name. The model records the abort reason instead.
- Whether the transfer request succeeded is not modelled. The source logs success without looking at the answer (index.js:134-137).
- Ids are modelled as strings. The webhook's `data.id` and the directory user's `id` are passed through verbatim, so their JSON type (Aircall sends numbers) does not affect routing. The owner id is a string, `null` or missing.
- `available` is a boolean. Other truthy or falsy JSON values are not modelled.
- Payload property values other than strings, `null` and missing (numbers, objects) are not modelled for `event`, `direction`, `raw_digits`, `hubspot_owner_id` and `email`.
