# FCM notifier, modelled in Dafny

This project models `go-fcm-notifier`. The library builds one request for the legacy Firebase
Cloud Messaging HTTP send API and posts it. An `FcmNotifier` holds a server API key and an
outgoing `FcmMsg`. Fluent setters overwrite the message's fields one at a time. `Send`
encodes the message as JSON and posts it with a `key=<ApiKey>` Authorization header. It then
turns the gateway's reply into a `SendResponse` and an error.

Modules:

- `Wrappers` (`wrappers.dfy`): `Option` (Go's nil) and `Result` (Go's value-or-error returns).
- `FcmMessage` (`message.dfy`): the message value `FcmMsg` and its `NotificationPayload`, and
  `MaxTTL`. It also holds the meaning of every setter as a function `Apply(msg, op)` and fluent
  chains of setters as `ApplyAll`. Lemmas about chains: last write wins, untouched fields keep
  their value, the TTL bound is kept, and targets do not exclude each other.
- `FcmSend` (`send.dfy`): the request handed to the transport, the transport's `Reply`, the
  `SendResponse` record and `Interpret`, the rules that turn a reply into a response and an error.
  `class Gateway` stands for the injected HTTP client and the gateway behind it. It logs every
  request posted, and its reply to a post may depend on how many posts came before.
- `FcmNotify` (`notifier.dfy`): `class Notifier<D>`. Its fields are the message's fields,
  updated in place by the setters. `registrationIds` is an `array<string>` that
  `SetRegistrationIds` allocates fresh and fills element by element. Each setter's contract ties
  the new abstract message `Msg()` to `Apply(old(Msg()), op)`. `Send` takes the JSON encoder and
  decoder as function-valued parameters and posts through a `Gateway`, so no real I/O happens. It follows the source's nested conditionals and is specified by `NewRequest` and
  `Interpret`.

The opaque `Data interface{}` payload is a type parameter `D`; `Option<D>` holds it, with
`None` standing for nil.

Points where the code's behaviour is easy to misread:

- `SetTTL` clamps only from above, so negative values are stored unchanged.
- `SetHighPriority`, unlike the other setters, returns nothing.
- `Send` ignores the error of `http.NewRequest`. Had construction failed, the request would be
  nil and `request.Header.Set` at fcmnotify.go:183 would panic. With the default service URL
  construction cannot fail, so the model assumes it succeeds (see the line on `FcmServiceUrl`
  under Left out).

## Model

| member | source | states |
|---|---|---|
| FcmMessage.ClampTTL | fcmnotify.go:165-172 | The stored TTL is never above MaxTTL (2419200) and never above the request. It equals the request exactly when the request is at most MaxTTL, negatives included. A larger request stores MaxTTL. |
| FcmMessage.Apply | fcmnotify.go:77-172 | After one setter call, the named field holds the given value: the clamped value for SetTTL, "high" for SetHighPriority. Every other field of the message is unchanged. |
| FcmMessage.WrittenValueIgnoresPast | fcmnotify.go:77-172 | What a setter writes depends only on its argument, not on the message it is applied to. |
| FcmMessage.SetterIdempotent | fcmnotify.go:77-172 | Calling any setter twice with the same value gives the same message as calling it once (SetHighPriority included). |
| FcmMessage.ChainFrame | fcmnotify.go:77-172 | A field that no setter in a chain names keeps its value through the whole chain. |
| FcmMessage.LastWriteWins | fcmnotify.go:77-172 | In a chain of setter calls, the last setter for a field decides that field's value. |
| FcmMessage.ChainKeepsTTLBound | fcmnotify.go:165-172 | Start from a message whose TTL is at most MaxTTL, such as a new notifier's. No chain of setters can then store a TTL above MaxTTL. |
| FcmMessage.TargetsCoexist | fcmnotify.go:77-88 | SetTopic and SetRegistrationIds, in either order, leave both targets set and the condition unchanged. The builder does not enforce that targets exclude each other. |
| FcmSend.NewRequest | fcmnotify.go:182-184 | The request is a POST of the encoded body to the service URL with Content-Type application/json. Its Authorization header is "key=" followed by the API key. |
| FcmSend.AuthorizationRoundTrip | fcmnotify.go:183 | Stripping the "key=" prefix from the request's Authorization header gives back exactly the notifier's API key. |
| FcmSend.Populate | fcmnotify.go:59-65 | Decoding overwrites all the tagged gateway fields of the response and keeps `Ok` and `StatusCode`. |
| FcmSend.Gateway.Post | fcmnotify.go:187-189 | One round trip: the request is appended to the log of posted requests, and the reply is the gateway's answer to that request at that position in the log. |
| FcmSend.Interpret | fcmnotify.go:186-198 | `Ok` is true iff the reply arrived with status exactly 200 and decoded; the gateway fields are then the decoded ones. Otherwise every field except `StatusCode` is zero. `StatusCode` is the received status, or 0 on a transport or read failure, which also returns that error. A decode failure returns the decode error. The error is nil iff a reply arrived and it was either not a 200 or a 200 that decoded. |
| FcmNotify.Notifier.constructor | fcmnotify.go:69-74 | A new notifier holds the given API key and the empty (zero) message. |
| FcmNotify.Notifier.SetTopic | fcmnotify.go:77-80 | Sets `To` only. The API key, the other fields and the array holding the registration ids are unchanged, and the same notifier is returned. |
| FcmNotify.Notifier.SetRegistrationIds | fcmnotify.go:84-88 | Stores a freshly allocated copy of the list, with the same length and the same elements in order. No other field changes, and the same notifier is returned. |
| FcmNotify.Notifier.SetTitle | fcmnotify.go:91-94 | Sets the notification title only. The API key and the registration-id array are unchanged, and the same notifier is returned. |
| FcmNotify.Notifier.SetBody | fcmnotify.go:97-100 | Sets the notification body only. The API key and the registration-id array are unchanged, and the same notifier is returned. |
| FcmNotify.Notifier.SetIcon | fcmnotify.go:103-106 | Sets the notification icon only. The API key and the registration-id array are unchanged, and the same notifier is returned. |
| FcmNotify.Notifier.SetCollapseKey | fcmnotify.go:113-116 | Sets `CollapseKey` only. The API key and the registration-id array are unchanged, and the same notifier is returned. |
| FcmNotify.Notifier.SetCondition | fcmnotify.go:121-124 | Sets `Condition` only; it clears neither `To` nor the registration ids, and keeps the same registration-id array. The same notifier is returned. |
| FcmNotify.Notifier.SetContentAvailable | fcmnotify.go:130-133 | Sets `ContentAvailable` only. The API key and the registration-id array are unchanged, and the same notifier is returned. |
| FcmNotify.Notifier.SetData | fcmnotify.go:136-139 | Stores the opaque payload unchanged and touches nothing else, the registration-id array included; the same notifier is returned. |
| FcmNotify.Notifier.SetDryRun | fcmnotify.go:144-147 | Sets `DryRun` only. The API key and the registration-id array are unchanged, and the same notifier is returned. |
| FcmNotify.Notifier.SetHighPriority | fcmnotify.go:150-152 | Sets `Priority` to "high" and touches nothing else, the registration-id array included. It returns nothing. |
| FcmNotify.Notifier.SetRestrictedPackageName | fcmnotify.go:156-159 | Sets `RestrictedPackageName` only. The API key and the registration-id array are unchanged, and the same notifier is returned. |
| FcmNotify.Notifier.SetTTL | fcmnotify.go:165-172 | Stores the clamped TTL, which is at most MaxTTL, and changes nothing else, the registration-id array included. The same notifier is returned. |
| FcmNotify.Notifier.Send | fcmnotify.go:175-199 | On an encoding failure, returns the zero response and that error, and nothing is posted. Otherwise exactly one request is posted: the one for the encoded held message, authorised with this notifier's key. The outcome is `Interpret` of the gateway's reply to that post. The notifier is not modified. |
| FcmNotify.SendTwice | fcmnotify.go:175-199 | Two sends with no builder call in between leave the message and key unchanged and post the same request twice. Each outcome is `Interpret` of the reply to its own post, and the two replies may differ. An encoding failure posts nothing and gives the same zero response and error both times. |
| FcmNotify.CallerWritesAfterCopy | fcmnotify.go:84-88 | After SetRegistrationIds and further setter calls, writes to the caller's array leave the notifier's list as it was when handed over. |
| FcmNotify.SetBothTargets | fcmnotify.go:77-88 | Calling SetTopic and SetRegistrationIds in either order leaves both targets set on a notifier. |

## Left out

- HTTP transport (`http.NewRequest`, `httpClient.Do`, `ioutil.ReadAll`, closing the body): I/O
  through a library outside the model. `Send` posts through a `Gateway` passed to it instead of
  the `httpClient` field. `Gateway.Post` yields a `Reply`: a round-trip failure, a body-read
  failure, or a status and a body.
- The error of `http.NewRequest`, which the code ignores: on a failure the request would be nil
  and the header write at fcmnotify.go:183 would panic. The model assumes request construction
  succeeds, the only reachable case with the default service URL (see the line on
  `FcmServiceUrl` below).
- JSON encoding and decoding (`encoding/json`): foreign library. They are the `marshal` and
  `unmarshal` parameters of `Send`. `omitempty` key presence in the encoded body is not modelled.
- Partial decoding: `json.Unmarshal` may fill some response fields before failing, and it can
  match the untagged `Ok`/`StatusCode` fields case-insensitively. The model treats a failed
  decode as leaving the response at zero except for `StatusCode`, and a successful decode as
  writing exactly the tagged fields.
- `FcmServiceUrl` is a mutable package variable in Go; here it is the constant `FcmServiceUrl`.
- Go's `int` is 32 or 64 bits wide depending on the platform. The model uses unbounded `int`,
  which matters nowhere because no arithmetic is done on TTLs or status codes.
- A nil slice and an empty slice are both an empty array here. This covers the list a new
  notifier holds, which in Go is the nil zero value of `RegistrationIds` and here is a fresh
  empty array. It also covers the argument of `SetRegistrationIds`, which stores an empty
  non-nil slice for either.
- Concurrency and asynchronous sending: the source implements neither.
