# WhatsApp gateway: session supervisor and send route

This project models the core of a small HTTP gateway in front of a WhatsApp
Web automation client, and proves properties of that model.

The gateway has two parts.

- **The session supervisor** (`src/lib/whatsapp.js`) keeps two cells: the
  readiness flag `whatsappState.isReady` and the time of the last successful
  operation. It changes them through these handlers:
  - the session-error classifier `handleSessionError`, with its
    SingletonLock cleanup;
  - the readiness probe `isClientReady` and the health check;
  - the 30-second health tick and the 5-minute zombie watchdog;
  - the client's `ready`, `disconnected`, `auth_failure`, `call` and
    `message` events.

  The `message` event filters inbound messages and posts a JSON payload to
  the ONMESSAGE webhook. The down events post a notice to ONDOWN.
- **The routes** (`src/routes/links.js`). `POST /send` runs these steps in
  order:
  1. the bearer-token check;
  2. the readiness gate;
  3. six ordered body validations;
  4. building the chat id and refusing the status recipient;
  5. the number lookup;
  6. the pdf > image list > single image > text priority branch, where the
     image batch loop swallows per-image failures;
  7. mapping an escaped error to 503 or 500 through the classifier.

  `GET /test` reports the readiness probe.

How the model is built:

- **The supervisor** is a class, `Session.Supervisor`, with fields `ready`,
  `lastOp` and `trace`.
  - Each handler is a method. The current time is its `now` argument.
  - The outcome of every call whose outcome the code acts on (calls into
    the automation client, the webhook transport or the operating system)
    is an argument: `Ok(value)`, or `Err(message)` for a call that throws.
    The ONDOWN post and the call relay post take none, because the code
    ignores how they end.
  - Every call made on the outside world is appended to `trace` as an
    `Effects.Effect`, so the order of calls can be stated.
- **The pure parts** are functions with lemmas:
  - the classifier (`Classifier`);
  - the inbound filter and the payloads (`Bridge`);
  - the request decisions (`Request`);
  - the image batch (`Batch.BatchPrefix`);
  - the whole of `/send` as a function `Route.SendRun`.
- **The handler methods** are proved to do what those functions say:
  `Route.HandleSend`, the layers it calls, and `Batch.SendImages`, which has
  the loop.
- **Strings and JSON values.** Strings are `seq<char>`. JavaScript values in
  bodies and events are `Values.Json`, which comes with JavaScript
  truthiness. Webhook payloads are maps from the key datatype
  `Effects.Field` to `Json`, and `Effects.FieldNamesDistinct` shows they are
  the same objects as the JSON the code builds.

Details of the code the model keeps:

- The inter-image pause comes only after a successful send that is not the
  last one. It does not come after a failed image.
- The SingletonLock cleanup clears readiness only when both `pkill` commands
  and the unlink succeed.
- The route calls `sendMessage` directly, so no send timeout applies.
- The route never refreshes the last-operation time itself. Only the
  readiness probe inside it does.

## Model

| member | source | states |
|---|---|---|
| Text.ContainsIffOccurs | src/lib/whatsapp.js:68-71 | `includes` as scanned holds exactly when the text occurs at some position |
| Text.IndexOf | src/lib/whatsapp.js:220 | the index found holds the first `@`; when none is found, the string has no `@` |
| Text.Before | src/routes/links.js:17 | the part before the first separator contains no separator and is a prefix followed by a separator or by the end |
| Text.BeforeIff | src/routes/links.js:17 | a string is the part before the first separator exactly when it is a separator-free prefix followed by a separator or by the end |
| Effects.FieldNamesDistinct | src/lib/whatsapp.js:223-231 | two payload keys are written the same exactly when they are the same key |
| Classifier.Classify | src/lib/whatsapp.js:68-81 | the branch an error message takes; its meaning is stated by `ClassifyMeaning` |
| Classifier.ClassifyMeaning | src/lib/whatsapp.js:68-81 | session closed iff one of the three markers occurs; lock contention iff "SingletonLock" occurs and no session marker does; an error without a message is unrecognised |
| Classifier.CleanupRun | src/lib/whatsapp.js:84-93 | the cleanup commands run are a non-empty prefix of pkill puppeteer, pkill chrome, unlink; the chrome kill runs iff the puppeteer kill succeeds, and all three run iff both kills succeed |
| Classifier.Recoverable | src/lib/whatsapp.js:74-97 | what `handleSessionError` returns; `ClosedSessionSkipsCleanup` and `LockCleanupOutcome` state it is true for session and lock texts, `UnrecognisedChangesNothing` that it is false otherwise |
| Classifier.ErrorEffects | src/lib/whatsapp.js:81-95 | the cleanup calls of `handleSessionError`; `LockCleanupOutcome` states them for lock texts, the other two lemmas that they are empty otherwise |
| Classifier.ReadyAfterError | src/lib/whatsapp.js:74-97 | readiness after `handleSessionError`; `ClosedSessionSkipsCleanup` states it is cleared, `LockCleanupOutcome` cleared only when the cleanup completes, `UnrecognisedChangesNothing` kept |
| Classifier.ClosedSessionSkipsCleanup | src/lib/whatsapp.js:67-78 | a session-closed text is recoverable, clears readiness and runs no cleanup, even if it also mentions the lock |
| Classifier.LockCleanupOutcome | src/lib/whatsapp.js:81-95 | a lock text is recoverable, always starts the cleanup with the puppeteer kill, kills chrome iff that succeeds, unlinks iff both kills succeed, and clears readiness only when all three steps succeed |
| Classifier.UnrecognisedChangesNothing | src/lib/whatsapp.js:97 | any other text is not recoverable, keeps readiness and runs nothing |
| Bridge.TypeNamed | src/lib/whatsapp.js:233-271 | the `switch` case a reported type falls into keeps the type's name unchanged |
| Bridge.KnownTypeNamesParse | src/lib/whatsapp.js:233-271 | each listed case is reached by its own name, so only unlisted names reach `default` |
| Bridge.Forwardable | src/lib/whatsapp.js:202-217 | the two filters; `RelayTarget` and `FilteredMessagesNotRelayed` state that a message is posted only when it passes both |
| Bridge.RelayTarget | src/lib/whatsapp.js:201-222 | a message is posted iff ONMESSAGE is set, the sender is not a status identity and the type is not ignored, and then it goes to ONMESSAGE |
| Bridge.PhoneNumberOf | src/lib/whatsapp.js:220-224 | the number is the non-empty text before the first '@' of the sender id, else "null" |
| Bridge.PhoneNumberShape | src/lib/whatsapp.js:220-224 | the rendered number is never empty and never contains '@' |
| Bridge.FilteredMessagesNotRelayed | src/lib/whatsapp.js:202-219 | status broadcasts, the twelve ignored type names, and every message while ONMESSAGE is unset produce no post |
| Bridge.CommonFields | src/lib/whatsapp.js:223-231 | every relayed payload carries exactly the seven common keys |
| Bridge.TypeFields | src/lib/whatsapp.js:233-271 | the switch adds exactly the keys of the message's type |
| Bridge.MessagePayload | src/lib/whatsapp.js:223-271 | the payload has the common keys plus the type's keys, and type fields never overwrite common ones |
| Bridge.DetailedTypesAddKeys | src/lib/whatsapp.js:233-271 | a type adds keys iff it is one of the nine detailed types |
| Bridge.ImageFields | src/lib/whatsapp.js:237-240 | an image is flagged `imagen` with caption the caption, or '' |
| Bridge.VideoFields | src/lib/whatsapp.js:241-244 | a video is flagged `video` with caption the caption, or '' |
| Bridge.AudioFields | src/lib/whatsapp.js:245-248 | audio and ptt are both flagged `audio` |
| Bridge.DocumentFields | src/lib/whatsapp.js:249-253 | a document is flagged, with file name and caption each defaulting to '' |
| Bridge.LocationMirrored | src/lib/whatsapp.js:254-260 | the location payload copies latitude, longitude and description field for field |
| Bridge.LocationOf | src/lib/whatsapp.js:255-259 | the location object; `LocationMirrored` states that it copies the three fields |
| Bridge.ContactFields | src/lib/whatsapp.js:261-264 | contact and vcard carry the vcard, or '' |
| Bridge.CiphertextFields | src/lib/whatsapp.js:265-267 | ciphertext is flagged `ciphertext` |
| Bridge.UndetailedTypesAddNothing | src/lib/whatsapp.js:233-271 | chat and every other undetailed type post exactly the common fields |
| Bridge.CommonDefaults | src/lib/whatsapp.js:223-231 | phoneNumber is the rendered number; type and from are copied; id is the serialized id or undefined; timestamp is copied; body is the body when truthy, else ''; hasMedia is the flag when truthy, else false |
| Bridge.DownPayload | src/lib/whatsapp.js:132-136 | the down notice; its fields are stated by `DownReason` |
| Bridge.DownReason | src/lib/whatsapp.js:132-136 | the down notice has exactly the keys message, reason and timestamp; the reason is the given one, or 'unknown' when it is falsy |
| Bridge.CallPayload | src/lib/whatsapp.js:180-186 | the call notice; its fields are stated by `CallNoticeFields` |
| Bridge.CallNoticeFields | src/lib/whatsapp.js:180-186 | the call notice has exactly five keys: the caller as number, the rejection text naming the caller, type 'call', the video flag and the time |
| Session.IsZombie | src/lib/whatsapp.js:304-307 | the watchdog's test; `Supervisor.ZombieTick` states what the tick does when it holds and when it does not |
| Session.DownNotice | src/lib/whatsapp.js:130-146 | the ONDOWN post, made iff ONDOWN is set; `Bridge.DownReason` states its payload and `Supervisor.NotifyDown` that it is all `notifyDown` does |
| Session.CallNotice | src/lib/whatsapp.js:179-195 | the ONMESSAGE post after a rejected call, made iff ONMESSAGE is set; `Bridge.CallNoticeFields` states its payload and `Supervisor.OnCall` when it is made |
| Session.Supervisor.constructor | src/lib/whatsapp.js:28-31 | at load the client is not ready and the last operation is now |
| Session.Supervisor.UpdateLastOperation | src/lib/whatsapp.js:34-36 | the last-operation time becomes now |
| Session.Supervisor.HandleSessionError | src/lib/whatsapp.js:67-98 | returns whether the text is recoverable; readiness and cleanup calls follow the classifier |
| Session.Supervisor.IsClientReady | src/lib/whatsapp.js:39-54 | not ready: false and no call; else getState, true iff CONNECTED, timestamp refreshed on any answer, readiness cleared when it throws |
| Session.Supervisor.PerformHealthCheck | src/lib/whatsapp.js:101-116 | not ready: false, no call; getState then getContacts; the timestamp is refreshed only when both answer; the first throw goes through the classifier and fails the check |
| Session.Supervisor.HealthTick | src/lib/whatsapp.js:294-300 | afterwards ready iff it was ready and the check passed, with the calls of the check in order |
| Session.Supervisor.ZombieTick | src/lib/whatsapp.js:303-317 | ready and idle for strictly more than 15 minutes: one destroy, not ready, one initialize after 5000 ms; otherwise nothing changes |
| Session.Supervisor.OnReady | src/lib/whatsapp.js:124-128 | ready, and the last operation is now |
| Session.Supervisor.NotifyDown | src/lib/whatsapp.js:130-146 | posts the down notice iff ONDOWN is set |
| Session.Supervisor.OnDisconnected | src/lib/whatsapp.js:148-152 | not ready, then the down notice |
| Session.Supervisor.OnAuthFailure | src/lib/whatsapp.js:154-158 | not ready, then the down notice |
| Session.Supervisor.OnCall | src/lib/whatsapp.js:160-196 | reject, then the decline text; a throw runs the classifier and relays nothing; otherwise the timestamp is refreshed and the call is relayed iff ONMESSAGE is set |
| Session.Supervisor.OnMessage | src/lib/whatsapp.js:198-291 | filtered messages change nothing; otherwise one post of the payload, then a refreshed timestamp or the classifier |
| Request.Authorize | src/routes/links.js:11-23 | the token check; when it passes is stated by `AuthorizeIff`, and which refusal it gives by `Route.AuthDecidedFirst` |
| Request.BearerToken | src/routes/links.js:17 | `split(' ')[1]` of a "Bearer " header; `Text.BeforeIff` states it is the text after "Bearer " up to the next space or the end, and `AuthorizeIff` how it decides acceptance |
| Request.AuthorizeIff | src/routes/links.js:11-23 | a header passes iff it is "Bearer " + TOKENACCESS followed by the end or a space, with TOKENACCESS present (possibly empty) and free of spaces |
| Request.FirstNonString | src/routes/links.js:58-66 | the index reported is the first non-string element; none is reported iff every element is a string |
| Request.FindNonString | src/routes/links.js:59-66 | the loop finds the same index as `FirstNonString` |
| Request.Validate | src/routes/links.js:34-72 | a body that passes has a non-empty string phone number |
| Request.ValidateMeaning | src/routes/links.js:34-72 | each of the six errors is reported iff its check is the first to fail; a body passes iff all six hold |
| Request.CheckBody | src/routes/links.js:34-72 | the chain of early returns reports what `Validate` does |
| Request.ChatIdOf | src/routes/links.js:78 | the chat id built from the number by dropping its first UTF-16 code unit; `ChatIdStatus` states when it is a status identity |
| Request.ChatIdStatus | src/routes/links.js:78-85 | the chat id is `status@c.us` iff the number is one character of the Basic Multilingual Plane then "status"; it is never `status@broadcast` |
| Request.SelectContent | src/routes/links.js:90-120 | the priority branch; its meaning is stated by `SelectContentMeaning` |
| Request.SelectContentMeaning | src/routes/links.js:90-120 | pdf is chosen iff pdfUrl is truthy; the batch iff not, and imageUrls is a non-empty array; the single image iff neither, and imageUrl is truthy; text iff none of those, and the message is truthy. The pdf and the single image carry the message as caption when truthy, else ''; the batch keeps the list and the message; text is the message |
| Request.ValidBodySelectsContent | src/routes/links.js:90-120 | a valid body selects exactly one content, honouring pdf > images > image > text |
| Batch.Caption | src/routes/links.js:100 | the caption of image i; `CaptionOnlyOnFirst` states which images carry the message |
| Batch.ImageStep | src/routes/links.js:97-111 | the calls of one loop turn; `ImageStepSends` and `ImageStepPauses` state its send and its pause |
| Batch.BatchPrefix | src/routes/links.js:96-112 | the calls of the first k turns; `EveryUrlAttemptedInOrder`, `SendsFollowFetches` and `PauseAfterEachSentImage` state its fetches, sends and pauses |
| Batch.SendsUpTo | src/routes/links.js:96-112 | the sends owed: one per image whose fetch succeeded, in list order, with that image's URL and caption |
| Batch.FetchedStep | src/routes/links.js:97-98 | each turn fetches exactly its own URL, once |
| Batch.EveryUrlAttemptedInOrder | src/routes/links.js:96-112 | every URL is fetched exactly once, in list order, whatever fails |
| Batch.ImageStepSends | src/routes/links.js:97-101 | image i is sent, with its own URL and caption, iff its fetch succeeded |
| Batch.SentStep | src/routes/links.js:96-112 | the sends of k + 1 turns are those of k turns followed by image k's send, if its fetch succeeded |
| Batch.SendsFollowFetches | src/routes/links.js:96-112 | the sends of the batch are exactly `SendsUpTo`: one per successful fetch, in list order, each with its own URL and caption, whatever fails |
| Batch.FetchedImagesAreSent | src/routes/links.js:96-112 | every image whose fetch succeeded is sent with its own URL and caption |
| Batch.SendsUpToCaptions | src/routes/links.js:99-101 | among the sends owed, a non-empty caption is only on the first, which is image 0 with the message; when image 0 was fetched it is sent first with `Caption(message, 0)` |
| Batch.CaptionedSendsFirst | src/routes/links.js:99-101 | every send with a non-empty caption is image 0's, with the message |
| Batch.CaptionOnlyOnFirst | src/routes/links.js:99-101 | by position in the sends: only the first send can carry a non-empty caption, and only when it is image 0 and the message is truthy, with the message as caption; when image 0 was fetched it is the first send, with the message as caption if truthy |
| Batch.ImageStepPauses | src/routes/links.js:101-107 | image i is followed by a pause iff it was fetched and sent and is not the last |
| Batch.PausesStep | src/routes/links.js:96-112 | turn k adds a pause after image k iff it was fetched and sent and is not the last |
| Batch.PauseAfterEachSentImage | src/routes/links.js:96-112 | a pause is taken after image i iff its fetch and its send succeeded and another image follows |
| Batch.PausesOnlyBetweenSends | src/routes/links.js:101-107 | every pause directly follows a send, and the batch never ends on a pause |
| Batch.SecondOfThreeFails | src/routes/links.js:96-112 | with the second of three sends failing, all are fetched and sent and the only pause follows the first |
| Batch.SendImage | src/routes/links.js:97-111 | one turn records the fetch, the send if the fetch succeeded, and the pause if the send succeeded before the last image |
| Batch.SendImages | src/routes/links.js:96-112 | the loop records exactly the batch specification |
| Route.ErrorReply | src/routes/links.js:131-140 | the `catch`'s answer; `ErrorMapping` states it is 503 with retry iff the classifier recognises the error, else 500 |
| Route.Failed | src/routes/links.js:127-140 | the run after an escaped error; `ErrorMapping` states its reply and readiness, and `Recover` carries it out |
| Route.SendOne | src/routes/links.js:90-93 | fetch, then send; the first failure escapes; `Route.SendMediaOnce` runs it |
| Route.Dispatch | src/routes/links.js:89-120 | the selected content's calls; `Route.ContentDeliversTo` states they go only to the chat id |
| Route.SendContent | src/routes/links.js:89-141 | the content and the `catch`; stated by `ContentDeliversTo`, `BatchAlwaysSucceeds` and `ErrorMapping` |
| Route.LookUpAndSend | src/routes/links.js:87-141 | the lookup and the rest; stated by `LookUpFirst` and `UnknownNumber` |
| Route.SendValid | src/routes/links.js:77-141 | the chat id and the rest; stated by `StatusRecipientRefused` |
| Route.SendChecked | src/routes/links.js:32-141 | validation and the rest; stated by `InvalidBodyStopsEarly` |
| Route.SendAuthorized | src/routes/links.js:25-141 | the readiness probe and the rest; stated by `ReadinessGate` |
| Route.SendRun | src/routes/links.js:7-142 | what `/send` does; stated by `DeliveriesFollowGates`, `AuthDecidedFirst` and the lemmas after it |
| Route.ErrorEffectsDeliverNothing | src/routes/links.js:131 | the classifier's cleanup in the `catch` sends nothing to anyone |
| Route.BatchDeliversTo | src/routes/links.js:94-112 | every image of the batch goes to the chat id |
| Route.ContentDeliversTo | src/routes/links.js:89-122 | content is only sent to the chat id, and the `catch` sends nothing |
| Route.LookUpFirst | src/routes/links.js:87-126 | the lookup is the first call after the gates, and nothing is sent unless it found the number |
| Route.DeliveriesFollowGates | src/routes/links.js:7-126 | nothing is fetched or sent unless token, readiness, validation, recipient and lookup all pass; then getState and the lookup come first |
| Route.AuthDecidedFirst | src/routes/links.js:11-23 | a refused token gives 401 iff the header is missing or not "Bearer ", otherwise 403, with no call and no state change |
| Route.ReadinessGate | src/routes/links.js:26-30 | a client that is not connected gives 503 before validation, with at most the state question asked |
| Route.InvalidBodyStopsEarly | src/routes/links.js:32-72 | an invalid body gives 400 with the first failed check and no call after the probe |
| Route.StatusRecipientRefused | src/routes/links.js:78-85 | a number that is one BMP character then "status" gives 400 before the lookup |
| Route.UnknownNumber | src/routes/links.js:87-126 | a falsy lookup gives 404 with nothing sent |
| Route.BatchAlwaysSucceeds | src/routes/links.js:94-122 | an image batch gives 200 and keeps the client ready whatever fails inside it |
| Route.ErrorMapping | src/routes/links.js:127-140 | an escaped error gives 503 with retry iff the classifier recognises it, else 500; a closed session clears readiness |
| Route.TextMessageEndToEnd | src/routes/links.js:7-122 | a text to a known number: state question, lookup, one send, 200 |
| Route.SendMediaOnce | src/routes/links.js:90-93 | fetch, then send with the caption; the first throw escapes |
| Route.Deliver | src/routes/links.js:90-120 | the priority branch records the calls and the escaped error of the selected content |
| Route.Recover | src/routes/links.js:127-140 | the `catch` answers 503 or 500 and applies the classifier |
| Route.SendContentTo | src/routes/links.js:89-141 | the handler after a found number matches `SendContent` |
| Route.LookUpAndSendTo | src/routes/links.js:87-126 | the handler from the lookup on matches `LookUpAndSend` |
| Route.SendValidBody | src/routes/links.js:77-85 | the handler from the chat id on matches `SendValid` |
| Route.SendCheckedBody | src/routes/links.js:32-72 | the handler from validation on matches `SendChecked` |
| Route.SendAuthorizedBy | src/routes/links.js:26-30 | the handler from the probe on matches `SendAuthorized`, and the timestamp is refreshed iff the ready client answered |
| Route.HandleSend | src/routes/links.js:7-142 | the reply, the calls and the readiness afterwards are those of `SendRun`; the timestamp changes only when the probe got an answer |
| Route.HandleTest | src/routes/links.js:144-160 | 200 iff the probe passes, 503 otherwise; readiness is cleared when getState throws, and the timestamp is refreshed iff the ready client answered |

## Left out

- Client construction, the QR display, the logger and dotenv loading are library setup with no decisions in them.
- `sendMessageWithTimeout` is not modelled: its timer race is timing, and the route never calls it.
- The garbage-collection interval and the `beforeExit` cleanup are process housekeeping.
- Real timers are not modelled. Each interval body is a tick method taking the current time. The scheduled re-initialize and the inter-image pause are trace entries.
- Foreign calls are not modelled. `execSync`, `fs.unlinkSync`, `axios.post`, `MessageMedia.fromUrl`, `whatsapp.*` and `call.reject` are reduced to outcomes given as arguments. A thrown error is represented by its message, and an error without a message by "".
- Concurrency between events, ticks and requests is not modelled: every handler runs to completion on its own.
- Log lines and the error texts of HTTP replies are not modelled. Replies are constructors with their status codes.
- The ISO timestamps in payloads are not modelled. They are recorded as `Num(now)`.
- JavaScript numbers are integers here.
- Session.Supervisor.ZombieTick: the outcome of `destroy` is an argument that changes nothing, because the code ignores it.
- Route.HandleTest: does not model the `catch` of `/test`, because `isClientReady` never throws.
- Request.ChatIdOf: strings are sequences of Unicode scalar values, not UTF-16 code units. When the first character of the number lies outside the Basic Multilingual Plane, `substring(1)` leaves its low surrogate behind. A lone surrogate is not a character here, so the model writes U+FFFD in its place. The refusal of status ids and the lookup happen as in the code, but the looked-up chat id carries U+FFFD where the code has the surrogate.
- A message's `type` is a string. A `type` that is not a string is not modelled.
- Webhook payloads are maps keyed by `Effects.Field`. Their JSON serialisation and key order are not modelled.
