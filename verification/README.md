# ntfy Firebase subscriber, modelled in Dafny

The ntfy server forwards every message it publishes to Firebase Cloud
Messaging (FCM) so that phones get a push notification. The code that does
this is the subscriber closure built by `createFirebaseSubscriber`. It takes
one internal message and then:

- builds the FCM `Data` map (string keys to string values) according to the
  event kind: four metadata keys for keepalive and open events, and for
  message events either the ten content keys (plus five `attachment_*` keys
  when there is an attachment) or, when anonymous read is denied, a
  four-key poll request;
- sets the Android priority hint to `"high"` when the priority is 4 or more;
- passes the result through the truncation helper and sends it once,
  returning the sender's error.

Files:

- `wrappers.dfy`: `Option`, used for Go's nil maps, pointers and errors.
- `format.dfy`: `FormatInt` (what `fmt.Sprintf("%d", n)` prints) and `Join`
  (`strings.Join(tags, ",")`), each with a parser (`ParseInt`, `Split`).
  Round trips are proved in both directions. For numbers, parsing inverts
  rendering and rendering inverts parsing on canonical strings. For tags,
  `Split` inverts `Join` on one or more comma-free tags, and `Join`
  inverts `Split` on every string.
- `server_firebase.dfy`: the message and FCM payload datatypes, the
  translation as pure functions (`BuildData`, `AndroidConfigFor`,
  `Translate`) and the closure as class `Subscriber`. Its method `Handle`
  builds the payload step by step, as the source does, and calls `Sender.Send`
  exactly once. `Handle` is proved equal to `Translate`. `DecodeFull` reads a
  payload back the way a receiving client would. The lemmas show that a
  forwarded message is lossless when no tag contains a comma and the tags
  are not the single empty tag. They also show that a poll request reveals
  no content. Two lemmas show why the tag condition is needed: the tags
  `["a,b"]` and `["a", "b"]` give the same payload, and `[""]` reads back
  as no tag at all.

Modelling choices:

- The event constants `keepaliveEvent`, `openEvent`, `messageEvent` and
  `pollRequestEvent` are defined outside `server/server_firebase.go`, so
  they are a parameter (`EventKinds`). The first three are cases of one
  switch, and Go rejects duplicate constant cases, so they differ. Lemmas
  that need this require `SwitchCasesDistinct()`. `pollRequestEvent` is not
  a case of that switch. That it differs from the other three is an
  assumption, stated in `Distinct()`. Only `PollRequestEventDiffers` relies on it.
- The auther is `Option<string -> bool>`. `None` is a nil `auth.Auther`.
  `Some(f)` means `f(topic)` holds exactly when
  `Authorize(nil, topic, PermissionRead)` returns nil.
- The sender is an object that logs each message in `sent`. Upstream's
  answer comes from a `reply` function, where `None` is a nil error. Its
  constructor gives a sender that has sent nothing yet, as a caller or a
  test double would start from.
- The model follows the code on two points:
  - Event kinds other than keepalive, open and message are not rejected.
    They produce an FCM message with a nil `Data` map.
  - Priorities are not checked against ntfy's documented range of 1-5.
    The hint depends only on `priority >= 4`.

## Model

| member | source | states |
|---|---|---|
| `ServerFirebase.BuildData` | server/server_firebase.go:32-76 | `Data` is set exactly for keepalive, open and message events. When set, it always holds the metadata keys, with id, time and topic copied from the message |
| `ServerFirebase.MetadataData` | server/server_firebase.go:35-40 | the metadata map has exactly the keys id, time, event, topic, holding the id, the time in `%d`, the given event name and the topic. It is also used for the poll request at lines 69-74 |
| `ServerFirebase.AllowForward` | server/server_firebase.go:42-45 | a nil auther allows forwarding. Otherwise forwarding is allowed if and only if the auther grants anonymous read on the topic |
| `ServerFirebase.FullData` | server/server_firebase.go:47-65 | the forwarded map has the ten keys, plus the five attachment keys exactly when there is an attachment. Every value is the matching message field: numbers in `%d`, tags comma-joined, and attachment name, type and URL copied |
| `ServerFirebase.KeepaliveOpenShape` | server/server_firebase.go:34-40 | keepalive/open payloads have exactly the keys id, time, event, topic. The event name is copied unchanged and the auther plays no part |
| `ServerFirebase.ForwardIffAuthorized` | server/server_firebase.go:42-46 | for a message event, content is forwarded if and only if the auther is nil or grants anonymous read on the topic |
| `ServerFirebase.NoAutherForwardsContent` | server/server_firebase.go:42-43 | with no auther, every message event carries its content keys and its message text |
| `ServerFirebase.ForwardedShape` | server/server_firebase.go:46-58 | a forwarded payload has exactly the ten keys, plus the attachment keys when there is an attachment. Empty click/title/encoding stay as empty strings. Tags are comma-joined and priority is rendered in decimal |
| `ServerFirebase.AttachmentBlockAtomic` | server/server_firebase.go:59-65 | the five attachment keys are all present or all absent. They are present exactly when a forwarded message has an attachment |
| `ServerFirebase.DecodeAttachmentRoundTrip` | server/server_firebase.go:59-65 | the attachment block decodes back to the message's attachment, or to "none" when there is none |
| `ServerFirebase.ForwardedRoundTrip` | server/server_firebase.go:47-65 | decoding a forwarded payload gives back the whole message, but only when the tags contain no comma and are not the single empty tag |
| `ServerFirebase.NumericFieldsDecimal` | server/server_firebase.go:47-65 | time, priority, attachment size and attachment expiry are decimal strings that parse back to the input numbers |
| `ServerFirebase.TagJoinCollision` | server/server_firebase.go:53 | the join does not escape commas: tags `["a,b"]` and `["a", "b"]` give the same payload |
| `ServerFirebase.SingleEmptyTagLost` | server/server_firebase.go:53 | the single empty tag joins to "", the same as no tags, and reads back as no tag |
| `ServerFirebase.PollRequestShape` | server/server_firebase.go:66-74 | a denied message yields exactly id, time, event, topic. The event is the poll-request name. No content or attachment key appears, and nothing decodes as a full message |
| `ServerFirebase.PollRequestEventDiffers` | server/server_firebase.go:72 | if the poll-request constant is distinct from the switch constants, the poll request's event differs from the message event it replaces |
| `ServerFirebase.OtherEventsHaveNoData` | server/server_firebase.go:32-87 | any other event kind leaves `Data` nil but still sets the topic and the usual priority hint |
| `ServerFirebase.AndroidConfigFor` | server/server_firebase.go:77-82 | an Android config is present if and only if priority >= 4. When present, its priority is "high" |
| `ServerFirebase.Translate` | server/server_firebase.go:77-86 | the FCM topic is the message topic. `data["topic"]` is the message topic whenever `Data` is set. The hint is "high" if and only if priority >= 4, and absent otherwise |
| `ServerFirebase.PriorityHintIndependent` | server/server_firebase.go:77-82 | the Android hint depends only on the priority, not on the event kind or the auther's answer |
| `ServerFirebase.ParseTagsJoin` | server/server_firebase.go:53 | comma-joined tags read back to the original list when no tag contains a comma (the single empty tag excepted) |
| `ServerFirebase.Sender.constructor` | server/server_firebase.go:13 | a new sender has the given upstream answer and has sent nothing |
| `ServerFirebase.Sender.Send` | server/server_firebase.go:13 | a send appends the message to the sent log and returns upstream's answer |
| `ServerFirebase.Subscriber.constructor` | server/server_firebase.go:30-31 | the subscriber closes over the auther and the sender |
| `ServerFirebase.Subscriber.Handle` | server/server_firebase.go:31-88 | exactly one message, the truncated translation, is sent, and the sender's error is returned unchanged |
| `ServerFirebase.KeepaliveScenario` | server/server_firebase.go:34-40 | a keepalive for topic "alerts" at time 100 with priority 3 gives the four-key map with time "100" and no Android config |
| `ServerFirebase.AllowedAttachmentScenario` | server/server_firebase.go:46-82 | a forwarded priority-5 message with an attachment gives all fifteen keys, including time "200", priority "5", tags "a,b", attachment_size "7" and attachment_expires "300", plus the "high" hint |
| `ServerFirebase.DeniedHighPriorityScenario` | server/server_firebase.go:66-82 | a denied priority-4 message gives the poll-request map and the "high" Android hint |
| `Format.FormatInt` | server/server_firebase.go:37 | `%d` output is canonical decimal: an optional minus sign (only for negatives), no padding and no leading zero |
| `Format.ParseFormatInt` | server/server_firebase.go:37 | parsing the `%d` rendering of any integer gives back that integer |
| `Format.FormatParseInt` | server/server_firebase.go:37 | every canonical decimal string is the `%d` rendering of the number it parses to |
| `Format.Join` | server/server_firebase.go:53 | the join has the elements' total length plus one separator between neighbours. Its comma count is the elements' commas plus those separators, so nothing is escaped and nothing else is added |
| `Format.SplitJoin` | server/server_firebase.go:53 | splitting a comma-join of one or more comma-free strings at commas gives back the list |
| `Format.JoinSplit` | server/server_firebase.go:53 | joining the comma-split pieces of any string gives back that string |

## Left out

- `createFirebaseSender` (server/server_firebase.go:15-28): it loads a credentials file and calls the Firebase SDK. That is I/O, so the sender is an abstract object.
- `maybeTruncateFCMMessage` is not part of this model. It is a function parameter of `Subscriber` (`truncate`), and nothing is assumed about its size limit or strategy.
- The internals of `auth.Auther.Authorize` are not part of this model. Only its anonymous-read answer for a topic is.
- `context.Background()`, concurrency and network behaviour are not modelled. Upstream's answer is a fixed function of the message sent.
- The spellings of the event constants are defined elsewhere. The model is generic over them.
- Integer widths: `Time`, `Size` and `Expires` are `int64` in Go and `Priority` is `int`. The model uses unbounded integers. `%d` renders every value of those types as the model does, so no property changes.
- The Go `error` value is modelled as `Option<string>`. Its dynamic type is not modelled.
- ServerFirebase.PollRequestEventDiffers: that the poll-request event differs from the message event rests on an assumption. The assumption is that `pollRequestEvent` differs from the switch constants, and their values are defined outside this file.
