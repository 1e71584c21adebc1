# Voice bridge core: a Dafny model

This project models the core of a small HTTP bridge between AudioCodes' Bot API (the
call-control side of a phone call) and an OpenClaw agent backend. The bridge keeps an
in-memory map of conversations. The call-control side drives it with four requests: create a
conversation, post a batch of activities, refresh, and disconnect. A timer sweeps out idle
conversations.

For each posted batch, the bridge:

- logs every inbound activity in the conversation's history;
- answers a `start` event with a greeting that depends on whether the caller's number is trusted;
- forwards every non-empty message to the backend, with instructions that depend on the same verdict;
- turns each backend outcome into exactly one reply text;
- logs the outbound replies after the inbound activities.

Modules, one file each:

- `Options` (`option.dfy`): the `Option` type.
- `Strings` (`strings.dfy`): the JavaScript string operations the code uses (`startsWith`,
  `includes`, truthiness). `includes` is proved equal to a reference definition. `EndsWith`
  is not called by the code; the model uses it only to state how the instruction text ends.
- `Trust` (`trust.dfy`): `isCallerTrusted`. It strips whitespace (the `\s` class), then tests
  whether either string contains the other.
- `Auth` (`auth.dfy`): `validateToken`, with its two 401 messages.
- `Agent` (`agent.dfy`): `getOpenClawResponse`. This covers the instructions, the session key
  `voice-<id>` and the request body. The backend is one `BackendOutcome` value, and a chain of
  fallbacks turns it into a reply.
- `Activities` (`activities.dfy`): the conversation record, `createActivity`, `getGreeting`,
  and one pass of the activities loop (`Step`). `Translate` specifies a whole batch as a
  function over its prefixes, and two reference definitions sit beside it: `Positions` (where
  the answered activities sit) and `TrustAfter` (the trust state the latest start event leaves).
- `Bridge` (`store.dfy`): the class `ConversationStore`. It holds the `conversations` map, the
  configured trusted callers and the bot token. Its methods are the four handlers and the sweep
  body, each proved against the functions above.

The handlers' loops are imperative methods proved against `Translate`: `AnswerAll` is the first
loop and `LogReplies` the second. The lemmas then say what `Translate` means:

- the k-th outbound activity answers the k-th start event or non-empty message, in order;
- the k-th backend request carries the k-th message's text;
- that request's instructions grant full access exactly when the latest earlier start event classified the caller as trusted;
- the history holds all user entries, then all assistant entries.

The code classifies the caller again on every start event, including a second one in the same
call; the model follows the code.

The substring rule has two consequences, both proved:

- `BlankEntryTrustsEveryone`: an entry that is empty after stripping trusts every non-empty
  caller. A trailing comma in the configured list produces such an entry.
- `BlankCallerTrusted`: a caller made only of whitespace is trusted as soon as the list is non-empty.

## Model

| member | source | states |
|---|---|---|
| Strings.IncludesIff | src/server.js:215 | the left-to-right `includes` scan succeeds exactly when the needle occurs at some index of the haystack |
| Strings.IncludesEmpty | src/server.js:215 | every string includes the empty string, as JavaScript's `includes("")` does |
| Strings.IncludesPiece | src/server.js:215 | a string includes every piece it is concatenated from |
| Trust.StripWhitespace | src/server.js:212-214 | the stripped string is no longer than the input and contains no whitespace character |
| Trust.StripConcat | src/server.js:212-214 | stripping distributes over concatenation |
| Trust.StripFixed | src/server.js:212-214 | a string without whitespace is left unchanged by stripping |
| Trust.AllBlankStrips | src/server.js:212-214 | a string made only of whitespace strips to the empty string; with `StripConcat` and `StripFixed` this fixes stripping as deleting each whitespace character and keeping the rest in order |
| Trust.InnerSpaceStripped | src/server.js:212-214 | a space between two whitespace-free pieces is deleted and the pieces are joined in order |
| Trust.AnyMatchesIff | src/server.js:213-216 | the `some` scan over the configured list is true exactly when some entry, after stripping, contains the stripped caller or is contained in it |
| Trust.CallerTrustedIff | src/server.js:209-217 | a caller is trusted iff it is present and non-empty and some configured entry matches it in either direction; a missing or empty caller is never trusted |
| Trust.ExtendedEntryTrusted | src/server.js:209-217 | any non-empty caller that contains a configured entry, whatever surrounds it, is trusted |
| Trust.SpacedNumberTrusted | src/server.js:209-217 | a caller that is a configured entry with a space inserted inside it is trusted |
| Trust.BlankEntryTrustsEveryone | src/server.js:209-217 | an entry that strips to empty trusts every non-empty caller |
| Trust.BlankCallerTrusted | src/server.js:209-217 | a non-empty all-whitespace caller is trusted whenever the list is non-empty |
| Auth.ValidateToken | src/server.js:42-61 | a rejection carries one of the two messages; "Missing Authorization header" exactly when the header is absent or empty |
| Auth.ValidateTokenIff | src/server.js:50-58 | a request passes iff the header is "Bearer " + token, or the bare token when the token does not itself begin with "Bearer " |
| Agent.NotBothClosings | src/server.js:254-272 | no instruction text can end with both the full-access sentence and the restriction rules |
| Agent.TrustedInstructions | src/server.js:252-255 | trusted instructions start with the voice preamble, name the recorded caller and end with the full-access sentence |
| Agent.UntrustedInstructions | src/server.js:252-272 | untrusted instructions start with the voice preamble, name the caller or "unknown" and end with the restriction rules |
| Agent.InstructionsByTrust | src/server.js:249-273 | instructions end with the full-access sentence iff the caller is trusted, and with the restriction rules iff not |
| Agent.SessionUserInjective | src/server.js:247 | the session key is "voice-" followed by the conversation id, so distinct conversations get distinct keys |
| Agent.FirstPartTextSpec | src/server.js:303-307 | the part scan returns nothing iff no part is non-empty `output_text`, and otherwise the text of the first such part |
| Agent.FirstOutputTextSpec | src/server.js:300-310 | the output scan returns nothing iff no message item holds non-empty `output_text`, and otherwise the first such text in (item, part) order |
| Agent.ExtractOutputText | src/server.js:300-310 | the nested loop with early return yields exactly the first `output_text` of the scan |
| Agent.Reply | src/server.js:241-323 | every outcome resolves to a non-empty reply text |
| Agent.ReplySpec | src/server.js:290-322 | a thrown call gives the connecting apology, a non-ok status the thinking apology, and an ok body its first output text, else `text`, else `response`, else "I'm not sure what to say." |
| Agent.ResolveReply | src/server.js:290-322 | the imperative reply resolution returns exactly the reply that `Reply` specifies |
| Agent.GetOpenClawResponse | src/server.js:241-323 | the request sent is model "openclaw" with the user text, the session key and the trust-dependent instructions; the reply is the outcome's resolved reply |
| Activities.GreetSpec | src/server.js:223-235 | a start event records its caller (or "unknown"), reclassifies it, keeps the flag consistent with the caller, greets the trusted caller iff the flag is set, and changes nothing else |
| Activities.StepSpec | src/server.js:122-139 | one activity is appended to the history as a user turn; a start event or a non-empty message adds one reply; only a message adds one backend prompt; only a start event changes the trust state |
| Activities.StepAppend | src/server.js:122-139 | a step on a partly built batch appends what the same step produces on an empty one |
| Activities.Positions | src/server.js:122-139 | the listed positions are strictly increasing, each satisfies the predicate, and every satisfying position below the bound is listed |
| Activities.TrustAfterSpec | src/server.js:129-131 | the trust state after a prefix is that of its latest start event, or the record's own when there is none |
| Activities.TranslateHistory | src/server.js:118-126 | after a batch the history has gained exactly the inbound activities in order; id, bot, timestamps and trust consistency are untouched |
| Activities.BatchHistory | src/server.js:122-144 | after a batch the history is the old entries, then one user entry per inbound activity, then one assistant entry per reply, each in order |
| Activities.TranslateTrust | src/server.js:129-131 | the record's caller and flag after a batch prefix are those the latest start event in it assigned |
| Activities.ReplyCount | src/server.js:129-138 | a batch produces exactly one reply per start event and non-empty message |
| Activities.ReplyAt | src/server.js:129-138 | the k-th reply is the k-th answered activity's: its stamp, type "message", and its greeting or backend reply |
| Activities.TranslateReplies | src/server.js:122-139 | over the whole batch, the replies are in one-to-one order-preserving correspondence with the answered activities |
| Activities.PromptCount | src/server.js:134-137 | a batch calls the backend exactly once per non-empty message |
| Activities.PromptAt | src/server.js:134-136 | the k-th backend call carries the k-th message's text and the trust state left by the activities before it |
| Activities.TranslatePrompts | src/server.js:134-137 | over the whole batch, every non-empty message is forwarded once, in order, with the trust state current at that point |
| Bridge.LocatorsSpec | src/server.js:95-100 | the three URLs are distinct, each contains the conversation id, and the expiry is 120 seconds |
| Bridge.EachAppend | src/server.js:134-137 | building requests for two prompt runs in a row is building them for their concatenation |
| Bridge.RequestAt | src/server.js:247-287 | the k-th request of a batch is built for the k-th non-empty message with the trust state before it |
| Bridge.RequestTrust | src/server.js:247-287 | the k-th request has the message as input and "voice-" + id as user, and its instructions grant full access iff the trust state before it is trusted |
| Bridge.SweepThreshold | src/server.js:331-336 | an entry idle for exactly five minutes survives unchanged; one idle a millisecond longer is removed |
| Bridge.SweepMonotone | src/server.js:329-339 | a later sweep removes at least what an earlier one does, and sweeping twice at the same time removes nothing more |
| Bridge.ConversationStore.constructor | src/server.js:29-34 | the store starts empty with the configured trusted list and token |
| Bridge.ConversationStore.Create | src/server.js:78-101 | a rejected request changes nothing; an accepted one stores a fresh record under the id, replacing any old one, and returns the three URLs and 120 |
| Bridge.ConversationStore.GetGreeting | src/server.js:223-235 | the updated record and greeting are those `Greet` specifies, and the flag agrees with the caller |
| Bridge.ConversationStore.PostActivities | src/server.js:107-147 | 401 or 404 leaves the store as it was and sends nothing; otherwise only that record changes, to the translated batch with lastActivity set, the replies logged after the inputs, and the returned activities and sent requests as `Translate` gives them |
| Bridge.ConversationStore.AnswerOne | src/server.js:124-138 | one pass of the first loop is exactly `Step`, and the request sent is built from its prompt |
| Bridge.ConversationStore.AnswerAll | src/server.js:122-139 | the first loop over the batch computes exactly `Translate` of the whole batch, with one request per prompt |
| Bridge.ConversationStore.LogReplies | src/server.js:142-144 | the second loop appends one assistant entry per reply, in order, and changes nothing else |
| Bridge.ConversationStore.Refresh | src/server.js:153-166 | a rejected request or an unknown id changes nothing; otherwise only that record's lastActivity moves to now and 120 is returned |
| Bridge.ConversationStore.Disconnect | src/server.js:172-189 | a rejected request or an unknown id changes nothing; otherwise exactly that id is removed |
| Bridge.ConversationStore.Sweep | src/server.js:329-339 | the store afterwards holds exactly the entries idle for no more than five minutes, unchanged |

## Left out

- The web framework, routing, request logging and the health-check route are not modelled. Each handler takes the fields it reads as parameters.
- Configuration parsing from the environment is not modelled: the port, the backend URL and token, and the agent id. The trusted list is a constructor parameter given after the split and trim, so an empty entry produced by a trailing comma is an ordinary input.
- The HTTP call to the backend is not modelled: its headers, URL, JSON encoding and the reading of an error body. The call's result is one `BackendOutcome`: it threw, or it answered with a status and a parsed body. A body that cannot be parsed, or one that is `null`, ends in the catch branch in the code. The model treats both as an ok status without a body, which gives the connecting apology.
- JSON values of unexpected types are not modelled, for example a `content` that is not an array or a `text` that is a number. Fields are optional strings and sequences.
- The clock, `crypto.randomUUID()` and `new Date().toISOString()` are inputs. Time is the `now` parameter, and each inbound activity comes with one backend outcome and one `Stamp`. Create calls `Date.now()` twice in the code; the model uses one `now` for both fields.
- Bridge.ConversationStore.PostActivities: the code mutates the stored conversation object across `await` points, where another request could see or replace it. The model computes the new record as a value and writes it into the map once, after the loops. Interleaving with other requests and aliasing are not modelled.
- Bridge.ConversationStore.Sweep: the 60-second timer that runs the sweep is not modelled, only its body at a given `now`.
- The disconnect reason and reason code are only logged, so they are not modelled.
- A conversation id that is absent from a create request's body is not modelled; the id is a string.
- A request without a body is not modelled. The create, activities and disconnect handlers read `request.body` right after the token check, so in the code such a request with a valid token fails with a server error and changes nothing; a missing body on disconnect leaves the conversation in place. The model's handlers always receive the body's fields.
- Bridge.ConversationStore.Refresh: `now` is a parameter, so the model does not capture that lastActivity only grows in real time.
