# WhatsApp HTTP wrapper: connection lifecycle and send route, in Dafny

The service keeps one WhatsApp socket (from the Baileys library) in module-level variables:
`sock`, the pending pairing string `currentQR`, and a cached `connectionStatus`.
A start call (`connectToWhatsApp`) builds the socket and registers three listeners on it.
The socket's `connection.update` events then move the status through pairing, open and close.
Three queries read the state: `getQR`, `getSocket`, and `getConnectionStatus`.
`getConnectionStatus` corrects the cached status with the socket's live link flag.
An Express app reads these queries in its `/qr` and `/send-message` routes.

The model has four files:

- `wrappers.dfy`: `Option`, for values that JavaScript holds as `null`/`undefined` or as something.
- `text.dfy`: the JavaScript string operations the code relies on.
  These are truthiness of an optional string, `startsWith`, `includes` (substring containment), and the decimal rendering of a number.
- `whatsapp_service.dfy`: the lifecycle.
  - `State` holds the three variables plus the listeners registered so far.
  - `Inv` is the consistency they keep.
  - `AfterStart` and `AfterUpdate` are the transitions, as functions. `Run` folds them over any serialized stream of starts and events.
  - The class `Service` holds the same variables as mutable fields. Its methods `ConnectToWhatsApp` and `OnConnectionUpdate` follow the JavaScript statement by statement and are proved to produce `AfterStart` and `AfterUpdate`. Its functions are the three queries.
  - `Status` has all eight status strings of the code. Its `ToString` yields them exactly, for status codes whose magnitude is below 10^21.
- `routes.dfy`: the `/send-message` validation ladder and the `/qr` choice, as functions.
  - The two transport calls (`onWhatsApp`, `sendMessage`) are oracle inputs that either resolve or throw.
  - The handler returns its reply together with the trace of transport calls it made.

Library behaviour enters only as inputs:

- what a start's library calls produce (`Setup`: auth-state load fails, version fetch fails, socket construction fails, or a socket);
- the socket's link-open flag (a `bool` given to `GetConnectionStatus`);
- the close event's `lastDisconnect` (an optional `error_reason` and an optional status code);
- the three `DisconnectReason` codes (`DisconnectCodes`: `loggedOut`, `restartRequired`, `connectionReplaced`, with no concrete numbers).

The model follows the code as written:

- A start whose library calls fail leaves the status at `connecting` with no socket. It is not reset to a disconnected status.
- A start is guarded only by the presence of a socket, not by the status.
- The address check is substring containment of `@s.whatsapp.net`, not a suffix check (`Routes.ContainmentNotSuffix`).

## Model

| member | source | states |
|---|---|---|
| `WhatsAppService.ConnectedPrefix` | index.js:38 | of all eight status strings, exactly `connected` and `connected (socket open)` start with `connected`; `connecting…`, `qr_pending` and `disconnected…` do not |
| `WhatsAppService.Reason.ToString` | whatsappService.js:49 | the error reason's text: a truthy `error_reason` reads as itself, an absent code reads `undefined`, a present code reads as its decimal rendering (`NumberToString`), which denotes that code |
| `WhatsAppService.Status.ToString` | whatsappService.js:7-97 | the eight status strings of the code; exactly the three disconnected variants read `disconnected…` |
| `WhatsAppService.InitialInv` | whatsappService.js:5-7 | the initial state (no socket, no pairing string, `disconnected`) satisfies the lifecycle invariant |
| `WhatsAppService.AfterStart` | whatsappService.js:9-84 | with a socket present, a start returns that socket and changes nothing, listeners included; without one, the status becomes `connecting`; a built socket becomes `sock`, is returned, and gets its three listeners; a library call that throws leaves no socket and the status at `connecting`; the invariant is preserved |
| `WhatsAppService.ReasonOf` | whatsappService.js:49 | the error text is `error_reason` when that is a non-empty string, and otherwise the possibly absent status code |
| `WhatsAppService.AfterUpdate` | whatsappService.js:32-73 | a truthy `qr` in an update that neither opens nor closes sets the pairing string and `qr_pending`; a close always clears the pairing string; a `loggedOut` close gives `disconnected (logged out)` and no socket; any other close gives the error status with its reason and releases the socket exactly for `restartRequired` or `connectionReplaced`, otherwise keeping it; an open clears the pairing string, gives `connected` and keeps the socket; listeners never change; the invariant is preserved |
| `WhatsAppService.AfterEvent` | whatsappService.js:30-81 | `creds.update` and `messages.upsert` leave the state unchanged; every event preserves the invariant |
| `WhatsAppService.RunPreservesInv` | whatsappService.js:9-81 | any serialized stream of starts and events keeps the invariant |
| `WhatsAppService.ReachableStatus` | whatsappService.js:5-81 | from the initial state, whatever happens, the cached status is one of the six cached variants and a pairing string is present exactly while it is `qr_pending` |
| `WhatsAppService.StartTwice` | whatsappService.js:10-16 | a second start after a successful one returns the same socket and changes nothing |
| `WhatsAppService.LogoutThenStart` | whatsappService.js:42-47 | a `loggedOut` close releases the socket, so the next start builds a fresh socket and reports `connecting` |
| `WhatsAppService.RetainedSocketBlocksRestart` | whatsappService.js:10-16 | after a close whose code neither logs out nor releases the socket, the dead socket is kept, so a later start returns it, changes nothing and leaves the error status |
| `WhatsAppService.RestartReleases` | whatsappService.js:60-66 | with the library's distinct codes, a `restartRequired` or `connectionReplaced` close reports the error variant, not a logout, and releases the socket |
| `WhatsAppService.Service.constructor` | whatsappService.js:5-7 | the fields start as the initial state, which is valid |
| `WhatsAppService.Service.ConnectToWhatsApp` | whatsappService.js:9-85 | the statement-by-statement start produces exactly the state and result of `AfterStart` and keeps `Valid()` |
| `WhatsAppService.Service.OnConnectionUpdate` | whatsappService.js:32-73 | the statement-by-statement handler produces exactly the state of `AfterUpdate` and keeps `Valid()` |
| `WhatsAppService.Service.Dispatch` | whatsappService.js:30-81 | an event of the live socket reaches its listener; only `connection.update` changes the state |
| `WhatsAppService.Service.GetQR` | whatsappService.js:87-89 | returns the pairing string unchanged; in a valid state it is truthy exactly while the status is `qr_pending` |
| `WhatsAppService.Service.GetSocket` | whatsappService.js:102-104 | returns the socket unchanged; in a valid state an absent socket comes with no pairing string and a status other than `connected` |
| `WhatsAppService.Service.GetConnectionStatus` | whatsappService.js:91-100 | a socket with an open link is reported `connected (socket open)` whatever is cached; otherwise a live socket cached as `connecting` is reported `connecting (socket initializing)`; otherwise the cached status; a connected variant is only reported with a socket |
| `Text.ContainsInfix` | index.js:45 | `includes` finds its argument wherever it is embedded |
| `Text.ContainsEmbedded` | index.js:45 | conversely, a string that `includes` its argument is that argument with something before and after it |
| `Text.NumberToString` | whatsappService.js:49 | a status code renders as a minus sign exactly for negatives followed by decimal digits only, with no leading zero (so the text is the one canonical form), and the text denotes the code itself |
| `Routes.SendMessageRoute` | index.js:28-60 | missing or empty fields give 400 with no transport call; no socket or a status not starting with `connected` gives 503 with no call, before and regardless of the number's format; a number without `@s.whatsapp.net` gives 400 with no call; a well-formed request to a connected service always calls the lookup; the calls are the lookup and then at most one send, with the request's number and `{text: message}`; an absent or unregistered lookup result gives 400 and no send; 200 with `success: true` exactly when the single send resolves; a throw from either call gives 500 with its message as details |
| `Routes.QrRoute` | index.js:12-19 | 200 with the payload exactly when the pairing string is truthy; otherwise 404 with the reported status text |
| `Routes.ContainmentNotSuffix` | index.js:45-47 | a number with the suffix in its middle passes the format check without ending in the suffix |
| `Routes.ServiceGate` | index.js:35-40 | against the service's own state: a send gets past the 503 gate exactly when there is a socket and either its link is open or the cached status is `connected`; every other state answers 503 with no transport call |
| `Routes.QrServedWhilePairing` | index.js:12-19 | against the service's own state: `/qr` serves the pairing string exactly while the cached status is `qr_pending` |

## Left out

- Baileys internals (`makeWASocket`, `useMultiFileAuthState`, `fetchLatestBaileysVersion`, the protocol, encryption, the concrete `DisconnectReason` numbers): foreign library code. Their outcomes are the `Setup`, link-flag, `LastDisconnect` and `DisconnectCodes` inputs.
- Credential persistence by `saveCreds`: file I/O inside the library. The model keeps only that `creds.update` changes no state.
- Logging through `console` and `pino`, and the JSON dump of received messages: side effects only.
- Express setup, static files, body parsing, `app.listen` with its startup try/catch, and the `/status` route: plumbing. The `/status` route only returns `getConnectionStatus()`.
- Asynchronous interleaving: events are delivered one at a time by the live socket.
- Listeners of a discarded socket that still fire after `sock` was cleared: concurrency. `Service.OnConnectionUpdate` and `Service.Dispatch` require a socket, and `Run` drops deliveries when there is none.
- The commented-out auto-reconnect and auth-directory deletion: dead code.
- A close update without `lastDisconnect`, which would throw in the handler: the library always sends it with a close.
- Request fields that are JSON values other than strings (a numeric `number` would make `includes` throw): `number` and `message` are optional strings.
- The content type of the `/qr` replies (`text/plain` for the payload, Express's default for the 404 string): the model keeps the code and the text.
- Text.NumberToString: status codes are taken as integers whose magnitude is below 10^21; JavaScript prints larger numbers in exponent form (`1e+21`), which the rendering does not model.
