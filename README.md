# ring-client core, modelled in Dafny

This project models the sequential core of `ring-client`, a Rust client for
the Ring home-security API:

- **Events** (`event.dfy`). This is the real-time channel of a location.
  - A `Message` is a tag-dispatched union. Any tag it does not know becomes `Unknown`.
  - A `Connection` is a class: a read cursor over the inbound WebSocket items, plus the log of frames written to the sink.
    - `Next` skips Ping frames and reports exactly one result for the next item.
    - `Send` encodes an event and writes it.
  - `Listener.Listen` is the dispatch loop. It passes over errors and `Unknown` messages, hands every other event to a caller-supplied handler in arrival order, and stops at the end of the stream or at the first event the handler refuses.
  - `Connect` composes the WebSocket address from a ticket.
- **Authentication** (`authentication.dfy`). This is the login state of a `Client`: the stored credentials and tokens.
  - `Login`, `RespondToChallenge` and `GetRefreshToken` read and overwrite these fields in the source's order, with its early returns.
  - The OAuth endpoint, the token freshness check and the session registration are abstract services, passed in as functions.
  - A ghost log records every request made.
- **Urls** (`url.dfy`): the API routes and the URL of each.
- **OperatingSystem** (`operating_system.dfy`): the OAuth client id, the User-Agent and the display name.
- **Devices** (`device.dfy`):
  - the `kind`-tag classification of a device entry;
  - the flattening of the eight category lists of a device listing.

The other modules:

- `errors.dfy` holds the two error enums (`AuthErrors`, `ApiErrors`) and the `Option`/`Result` wrappers.
- `sequences.dfy` holds the list-concatenation facts the device listing uses.

Collaborators the model cannot see become inputs:

- JSON parsing of a frame is a function `Parser`, from a frame to a tagged document or a decoder message.
- JSON serialisation is a function `Renderer`.
- A transport error is an inbound item `Failed(cause)`, and a transport answer to a write is an `Option<string>` fault.
- The handler is a function to a `Reaction`: whether to go on, and the sends it issues on the connection. It is given the new event together with the events it was handed earlier in the same run of `listen`, which stands for the state a closure keeps between calls.
- `Services` holds the OAuth, freshness and session calls.

## Model

| member | source | states |
|---|---|---|
| Events.MessageOf | src/client/api/location/event.rs:33-49 | the four known tags select their own variant and keep the body; a message is `Unknown` exactly when its tag is not one of the four |
| Events.MessageRoundTrip | src/client/api/location/event.rs:17-49 | writing any message as a tagged document and reading it back gives the same message |
| Events.TagOf | src/client/api/location/event.rs:33-49 | a message is written with one of the four known tags iff it is not `Unknown` |
| Events.DocumentOf | src/client/api/location/event.rs:17-56 | the document a message is written as carries the message's own tag |
| Events.DocumentRoundTrip | src/client/api/location/event.rs:33-49 | a document with a known tag is written back exactly as it was read |
| Events.Outcome | src/client/api/location/event.rs:95-111 | for an item that is not a Ping: a transport error is `WebsocketError`; a frame of any other kind gives `Ok(event)` if its JSON parses and `InvalidResponse` otherwise |
| Events.NextFrom | src/client/api/location/event.rs:82-116 | `None` iff the rest of the stream is all Pings and is consumed; otherwise exactly one item that is not a Ping is consumed after skipped Pings, and the result is that item's outcome |
| Events.NextSkipsLeadingPings | src/client/api/location/event.rs:85-93 | any number of leading Pings is skipped, and the result is the outcome of the first item that is not a Ping |
| Events.Connection.constructor | src/client/api/location/event.rs:73-77 | a new connection reads from the start of the given stream and has written nothing |
| Events.Connection.Next | src/client/api/location/event.rs:81-117 | the loop's result and new cursor are those of `NextFrom` from the old cursor |
| Events.EncodeEvent | src/client/api/location/event.rs:51-56 | an event is encoded as a text frame holding its JSON; an encoder failure is `InvalidResponse` |
| Events.SendOutcome | src/client/api/location/event.rs:124-129 | `send` succeeds iff encoding succeeds and the transport accepts the write; an encoding error is returned as is; a write failure is `WebsocketError` |
| Events.Connection.Send | src/client/api/location/event.rs:124-129 | the result is `SendOutcome`; on success exactly one encoded frame is appended to the sink; the cursor is untouched |
| Events.ListenFrom | src/client/api/location/event.rs:234-263 | the run of `listen` from a stream position, after the handler has been given some events: its stop position lies between that position and the end of the stream |
| Events.ListenFromSpec | src/client/api/location/event.rs:234-263 | the handler gets exactly the deliverable events of the items read, in arrival order, each together with the events it was given before; it accepted every one before the last; listening stopped either right after the refused event's item (nothing more is read) or at the end of the stream with every event accepted |
| Events.ListenNeverHandsOverUnknown | src/client/api/location/event.rs:241-244 | no event handed to the handler is `Unknown` |
| Events.PassedOverStep | src/client/api/location/event.rs:239-263 | an error or an `Unknown` message does not stop listening: the run from the item after it still meets the reference description |
| Events.NextDeliverables | src/client/api/location/event.rs:82-116 | the items one `next` consumes hand over exactly the event `listen` passes on, if any |
| Events.TwoEventsInOrder | tests/ring_checks.rs:60-82 | with the test's handler, which stops once it holds two events, two frames of the expected kinds (the same kind or not) reach it in arrival order, and nothing after the second is read |
| Events.Listener.constructor | src/client/api/location/event.rs:166-174 | a new listener belongs to the given location and owns the given connection |
| Events.Listener.ListenOnce | src/client/api/location/event.rs:237-262 | one round, with the events handed over so far given to the handler: the cursor advances whenever listening goes on; the run from the old cursor is this round's event followed by the run from the new cursor; the sink grows by that event's sends |
| Events.Listener.SendReplies | src/client/api/location/event.rs:248 | the handler's sends are issued in order; the sink grows by their frames |
| Events.Listener.Listen | src/client/api/location/event.rs:226-265 | the events handed over and the final cursor are exactly `ListenFrom` from the starting cursor with no events seen yet; the sink grows by every handled event's sends, in order |
| Events.Listener.Send | src/client/api/location/event.rs:318-320 | delegates to the connection: same result and same effect on the sink |
| Events.ConnectUrl | src/client/api/location/event.rs:352-355 | the dialled address is `wss://` + ticket host + `/ws?authcode=` + ticket id + the fixed query |
| Events.Connect | src/client/api/location/event.rs:341-359 | a ticket-request error is passed on; a dial failure is `WebsocketError`; otherwise the ticket's address is connected to |
| Events.GetListener | src/client/api/location/event.rs:334-338 | an error iff `connect` fails, with its error; on success, a fresh listener over a fresh connection that uses the given parser and renderer, at the start of the stream with an empty sink |
| Urls.BaseUrl | src/helper/url.rs:17-27 | the WebSocket route uses the `wss://` scheme and every other route `https://` |
| Urls.BaseUrlExamples | src/helper/url.rs:35-52 | the five REST routes give the URLs the unit test expects |
| Urls.WebsocketUrlExample | src/helper/url.rs:53-59 | host `example.com` and auth code `12345` give the URL the unit test expects |
| Urls.WebsocketUrlLayout | src/helper/url.rs:24-26 | host and auth code appear verbatim at fixed offsets between the fixed parts of the WebSocket URL |
| Urls.SchemeIdentifiesWebsocket | src/helper/url.rs:17-27 | a URL starts with `wss://` iff its route is Websocket, and with `https://` iff it is not |
| Urls.FixedRoutesAreDistinct | src/helper/url.rs:1-23 | two REST routes give the same URL iff they are the same route |
| Urls.WebsocketUrlInjective | src/helper/url.rs:24-26 | for hosts without `/`, the WebSocket URL determines both host and auth code |
| Urls.UnescapedHostIsAmbiguous | src/helper/url.rs:25 | because nothing is escaped, two different host/auth-code pairs can give the same URL |
| OperatingSystem.Name | src/helper/operating_system.rs:29-35 | the display string is a non-empty lower-case word |
| OperatingSystem.ClientId | src/helper/operating_system.rs:13-18 | the client id starts with `ring_official_` and has more after it |
| OperatingSystem.UserAgent | src/helper/operating_system.rs:21-26 | the user agent ends with `:com.ringapp` and has more before it |
| OperatingSystem.KnownIdentities | src/helper/operating_system.rs:13-35 | Android and Ios give the client ids and user agents of `get_client_id` and `get_user_agent`, and the display strings `Display` writes (operating_system.rs:29-35) |
| OperatingSystem.UserAgentIsNameWithSuffix | src/helper/operating_system.rs:21-35 | the user agent is the display string followed by `:com.ringapp` |
| OperatingSystem.ClientIdIsPrefixedName | src/helper/operating_system.rs:13-35 | the client id is `ring_official_` followed by the display string |
| OperatingSystem.IdentitiesAreDistinct | src/helper/operating_system.rs:13-35 | two operating systems have the same client id, the same user agent or the same display string only if they are equal |
| Devices.DecodeDevice | src/client/api/device.rs:13-74 | a missing tag fails; an unknown tag gives `Other`; a known tag decodes iff its id, location id and description are present and the id fits a `usize`, and all fields are kept |
| Devices.DecodeEncodeDevice | src/client/api/device.rs:13-74 | every device of a known kind reads back from its own entry |
| Devices.KindTagsAreDistinct | src/client/api/device.rs:14-56 | the three kind tags are different strings |
| Devices.GetDeviceDataIsFlatten | src/client/api/device.rs:118-128 | the listing is the concatenation of the eight categories in their fixed order |
| Devices.GetDeviceData | src/client/api/device.rs:118-128 | the listing is as long as the eight lists together |
| Devices.GetDeviceDataAt | src/client/api/device.rs:118-128 | device `i` of category `k` sits at position `i` after all devices of the earlier categories (order kept within and across categories) |
| Devices.GetDeviceDataMultiset | src/client/api/device.rs:118-128 | every device occurs in the listing exactly as often as in the eight lists together |
| Devices.GetDeviceDataMembership | src/client/api/device.rs:71-128 | a device is listed iff some category holds it; `Other` entries are kept |
| Authentication.SeedTokens | src/client/wrapper/authentication.rs:87-91 | the refresh seed has an empty access token, the epoch as expiry and the given refresh token |
| Authentication.ExchangeCall | src/client/wrapper/authentication.rs:78-95 | a username/password login asks for the password grant with the system id; a refresh-token login asks to refresh its seed tokens |
| Authentication.Registration | src/client/wrapper/authentication.rs:97-107 | the freshness check is made first, and registration only if that check succeeds, with the tokens it returns; the result is `Ok` iff both succeed, and `SessionFailed` otherwise |
| Authentication.TokenOutcome | src/client/wrapper/authentication.rs:80-107 | a failed token request returns its own error, keeps the tokens and makes no further call; a successful one stores the new tokens, and the result is then that of the registration (`Ok` iff the freshness check and `set_session` succeed, `SessionFailed` otherwise) |
| Authentication.LoginOutcome | src/client/wrapper/authentication.rs:74-110 | the credentials are stored whatever happens, and the first request is their exchange |
| Authentication.LoginExchangeFailure | src/client/wrapper/authentication.rs:80-93 | a failed exchange returns its error, leaves the tokens as they were and makes no session call |
| Authentication.LoginExchangeSuccess | src/client/wrapper/authentication.rs:80-107 | after a successful exchange the new tokens are kept even if the freshness check or registration fails; the result is the registration's, so such a failure is reported as `SessionFailed` |
| Authentication.LoginSucceedsIff | src/client/wrapper/authentication.rs:74-109 | `login` returns `Ok` iff the exchange, the freshness check and the registration all succeed |
| Authentication.RefreshLoginSeed | src/client/wrapper/authentication.rs:84-91 | a refresh-token login first asks to refresh `Tokens("", epoch, token)` |
| Authentication.ChallengeOutcome | src/client/wrapper/authentication.rs:119-141 | without stored username/password credentials nothing changes, no call is made and the result is `Ok` |
| Authentication.ChallengeUsesStoredUser | src/client/wrapper/authentication.rs:120-137 | with username/password stored, the stored username and password are submitted with the code; a failed request returns its error and keeps the tokens; a successful one stores the new tokens and the result is the registration's |
| Authentication.ChallengeSucceedsIff | src/client/wrapper/authentication.rs:119-141 | with username/password stored, `respond_to_challenge` returns `Ok` iff the challenge request, the freshness check and the registration all succeed |
| Authentication.ChallengeCompletesLogin | src/client/wrapper/authentication.rs:26-43 | a password login met by a two-factor challenge keeps the credentials but obtains no tokens; answering the challenge then obtains them and the refresh token becomes available |
| Authentication.RefreshLoginRefreshToken | src/client/wrapper/authentication.rs:84-93 | after a refresh-token login the stored refresh token is the one the OAuth endpoint answered with, or the earlier one if the refresh failed |
| Authentication.RotatedRefreshTokenDiffers | src/client/wrapper/authentication.rs:143-153 | against an endpoint that rotates refresh tokens, a successful refresh-token login leaves a refresh token different from the one logged in with |
| Authentication.StoredRefreshToken | src/client/wrapper/authentication.rs:147-153 | `Some` iff tokens are stored, and then exactly their refresh token |
| Authentication.Client.constructor | src/client/mod.rs:37-50 | a new client holds neither credentials nor tokens and has made no request |
| Authentication.Client.RegisterSession | src/client/wrapper/authentication.rs:97-107 | the result and the requests made are those of `Registration` |
| Authentication.Client.Login | src/client/wrapper/authentication.rs:74-110 | the new credentials, tokens, result and requests are those of `LoginOutcome` on the old state |
| Authentication.Client.RespondToChallenge | src/client/wrapper/authentication.rs:119-141 | the new tokens, result and requests are those of `ChallengeOutcome` on the old state; the credentials are not changed |
| Authentication.Client.GetRefreshToken | src/client/wrapper/authentication.rs:147-153 | returns `Some` iff tokens are stored, and then exactly their refresh token; on a new client, `None` |

## Left out

- The WebSocket transport: `connect_async`, splitting and reuniting the stream, and the close handshake (`Connection::close`, `Listener::close`). The inbound stream is a fixed sequence of items; the sink is a log of frames; a write or dial failure is an input.
- Concurrency and async. The locks, the shared connection inside `listen` and `.await` are modelled as plain sequential steps.
- JSON internals. Parsing and serialisation are the `Parser` and `Renderer` functions. The nesting of the message under the `msg` key of the event is folded into the tagged `Document`. Payloads are opaque text.
- Devices.DecodeDevice: device-decoding errors come from the HTTP client's JSON reader, which reports them as `RequestError`. Only success or failure of the decoding is modelled, not the error value.
- HTTP requests: session registration, tickets, locations, and the request part of `get_device_data`. Their decoded results are inputs.
- `src/helper/hardware.rs` is not part of this model. Its hardware id comes from a seeded random-number crate.
- Time. The token expiry is an integer of seconds since the epoch. The default date-time is the epoch, 0.
- `refresh_tokens_if_needed` is not shown in the repository. It is modelled as a service that returns the tokens to use and does not itself replace the stored tokens.
- Authentication.Services: every collaborator is a function, so repeating a request with the same inputs gives the same answer. A single login or challenge never repeats a request.
- `ApiError::SinkAlreadyClosed` is declared but never produced, and sending after close is not modelled.
- The handler's access to the connection is modelled as a list of sends it issues, each with its transport answer. The handler does not read from the stream.
- The handler's state is modelled as the events it was handed earlier in the same run of `listen`. State carried across separate runs, or fed from outside, is fixed when the handler is chosen.
- Authentication.Client.GetRefreshToken: the doc comment says that after a refresh-token login this returns the same token. The code stores whatever the refresh answers, so this holds only when the endpoint echoes the token (`RefreshLoginRefreshToken`). Against a rotating endpoint it fails (`RotatedRefreshTokenDiffers`). The model follows the code.
- `Device::new` wraps the data unchanged; `Device` is a one-field datatype, so there is nothing beyond its constructor to state.
- The thin wrappers in `src/client/wrapper/device.rs` and `src/client/wrapper/location.rs`, and `Client::get_ticket`. They only map errors around network calls.
- Credentials after a failed login: `login` stores the credentials before the token exchange and keeps them when the exchange fails, for example with `MfaCodeRequired` (authentication.rs:75-76); `LoginOutcome` states this, and `respond_to_challenge` depends on it.
