# Tunnelling broker: correlation state and envelopes

This project models the core of a small tunnelling broker. A private service
opens a WebSocket to the broker and registers under the key `user-component`.
A caller of the public preview URL `/preview/{user}/{component}/{path}` has its
request turned into a request envelope. The envelope goes over that WebSocket
under a fresh request id. The broker then waits up to 30 seconds for a response
envelope carrying the same id. A separate proxy endpoint works the other way
round: it takes an envelope from the private side, makes the HTTP call inside
the data plane and returns the answer as a response envelope.

The model is sequential. Every I/O step is a parameter: the WebSocket upgrade,
the body read, the write to the connection, the reads of the tunnel client's
listener, the JSON decoding and encoding, and the upstream HTTP call.

- `Details` mirrors the two envelope records (`RequestDetails`, `ResponseDetails`)
  and the multimap type `Values` used for headers and parsed queries.
- `Headers` holds the for-range loops over maps as methods: `FlattenFirst`
  keeps the first value per name, `AddEach` models `Header.Add` / `url.Values.Add`,
  and `SetEach` models `Header.Set`.
- `Envelope` builds the strings: the client key, the envelope path and the
  outbound URL. `Strings` splits a string at its first separator; the lemmas
  use it to show that each built string parses back into its parts.
- `Tables` holds the pending-response table (request id to a channel) and the
  channels' mailboxes (channel to the response handed to its waiter, if any).
  `Route` and `Listen` say, as functions, what the listener's read loop does
  to the mailboxes. `Tables` also defines the event history (slot
  opened, slot closed, envelope written) and the property that every envelope
  is written while its slot is open.
- `Handlers.Broker` is a class with the two shared maps (`clients`, `pending`),
  the live channels' `mailboxes`, a counter for fresh channels, and a ghost
  `history` and ghost `owners` (the request id each channel was made for). Its
  invariant `Valid()` says: the table holds exactly the slots that are open in
  the history, every write happened while its slot was open, and the table
  names only live channels, each under the id it was made for. `Dispatch`,
  `Send`, `Post`, `Await`, `Respond` and `Preview` follow the preview
  handler; `Register`, `Disconnect`, `Deliver`, `Serve` and `HandleWebSocket`
  follow the WebSocket handler.
- `LocalRequest.HandleRequestFromClient` models the outbound proxy handler.

The model follows the code in these points, which are easy to miss:

- Deregistration on a read error deletes the key unconditionally. It does not
  check that the entry is still this listener's connection. A superseded
  listener that terminates therefore evicts the newer connection
  (`StaleListenerEvictsNewer`).
- The response channel is unbuffered. Once the waiting request has taken its
  one response, a second response with the same id blocks the listener's send
  forever when it is read before the handler's deferred delete; after the
  delete it is dropped. `Route` reports the first case as `SlotBusy`, and
  `Listen` then stops with `Stuck`.
- Request ids are the current time in nanoseconds, so they are not guaranteed
  unique. The id is a parameter. Each request waits on its own channel, but the
  table holds one channel per id: a second request with the same id replaces
  the first one's entry (`OpenSlot`). A response is handed to the channel the
  table holds when it is read. So the first request keeps a response routed
  before the replacement (`CollidingIdFirstKeepsItsResponse`), and it times
  out on one routed after it, which goes to the second request
  (`CollidingIdSecondTakesResponse`). Whichever request finishes first deletes
  the entry under the shared id, also when it is the other request's entry
  (`CloseSlot`).
- Multi-valued headers and query parameters keep their first value.
- The envelope path joins the decoded sub-path and the raw query with '?', so
  a sub-path that itself holds '?' (from "%3F") cannot be told apart from a
  query (`FullPathAmbiguous`).

## Model

| member | source | states |
|---|---|---|
| Headers.FlattenFirst | internal/handlers/preview-url-handler.go:86-94 | the flattened map has exactly the input's names, each mapped to the first value listed for it |
| Headers.AddEach | internal/handlers/local-request-handler.go:54-58 | adding each pair appends its value to the name's existing list; names not added keep their lists |
| Headers.SetEach | internal/handlers/preview-url-handler.go:125-127 | every name set holds exactly its one new value; other names are untouched |
| Headers.FirstOfSingletons | internal/handlers/local-request-handler.go:71-73 | adding each header of a map once and flattening again gives back that map |
| Headers.FlattenLosslessIff | internal/handlers/preview-url-handler.go:86-94 | flattening loses nothing if and only if every name has a single value (later duplicates are dropped) |
| Envelope.ClientKeySplits | internal/handlers/preview-url-handler.go:49 | the key splits at its first '-' back into user and component when the user has no '-' |
| Envelope.ClientKeyAmbiguous | internal/handlers/websocket-handler.go:55 | two different user/component pairs can form the same key |
| Envelope.FullPathQueryIff | internal/handlers/preview-url-handler.go:97-100 | the path is exactly "/" + subPath if and only if the raw query is empty |
| Envelope.FullPathSplits | internal/handlers/preview-url-handler.go:97-100 | for a sub-path without '?', the path starts with '/', and after it the first '?' separates sub-path and raw query; there is no '?' when the raw query is empty |
| Envelope.FullPathAmbiguous | internal/handlers/preview-url-handler.go:97-100 | a sub-path "a?b" without raw query and a sub-path "a" with raw query "b" give the same envelope path |
| Envelope.BaseUrlSplits | internal/handlers/local-request-handler.go:44-49 | the URL is "http://" + authority + path; the authority has ":" + port exactly when a port is given, and it parses back into domain, port and path |
| Envelope.OutboundUrlQueryIff | internal/handlers/local-request-handler.go:54-60 | "?" + encoded query is appended if and only if the query map is non-empty |
| Tables.Route | internal/handlers/websocket-handler.go:89-93 | an unknown id is dropped and nothing changes; when the channel the table holds for the id has not been handed a response, it receives this one and no other mailbox changes; a channel already served blocks and nothing changes |
| Tables.ListenKeepsMailboxes | internal/handlers/websocket-handler.go:75-94 | the read loop never creates or removes a channel |
| Tables.ListenOwnResponseOnly | internal/handlers/websocket-handler.go:89-92 | a mailbox changes at most once, from empty to a response read whose id the table maps to that channel: no cross-delivery and no overwrite |
| Tables.ListenFillsFirstAnswer | internal/handlers/websocket-handler.go:75-94 | with an injective table, the empty channel of an id gets the first response read for that id, when the loop is still running up to that response |
| Tables.OpenAfter | internal/handlers/preview-url-handler.go:67-75 | a slot is open after an event exactly when the event opens it, or it was open and the event does not close it |
| Tables.WritesWhileOpenAppend | internal/handlers/preview-url-handler.go:113 | an appended write keeps "every envelope is written while its slot is open" when the written slot is open |
| Handlers.Rejection | internal/handlers/preview-url-handler.go:38-47 | a request is rejected with 400 if and only if the user or the component is empty |
| Handlers.Broker.Register | internal/handlers/websocket-handler.go:68-70 | the key maps to the new connection whether or not an entry existed (last write wins); all else is unchanged |
| Handlers.Broker.Disconnect | internal/handlers/websocket-handler.go:80-82 | the key is deleted whatever connection it maps to; all else is unchanged |
| Handlers.Broker.Deliver | internal/handlers/websocket-handler.go:89-93 | the new mailboxes and the routing result are those of Route; the table, channel set, registry and history are unchanged |
| Handlers.Broker.Serve | internal/handlers/websocket-handler.go:75-94 | the mailboxes and the loop's end are those of Listen; the key is deleted if and only if a read failed |
| Handlers.Broker.HandleWebSocket | internal/handlers/websocket-handler.go:40-95 | empty user or component gives 400 and a failed upgrade gives no registration, both with nothing changed; otherwise the key is registered and then served, and it stays registered unless a read failed |
| Handlers.Broker.OpenSlot | internal/handlers/preview-url-handler.go:65-69 | a fresh channel with an empty mailbox is made and stored under the id, replacing a colliding entry; the opening is recorded |
| Handlers.Broker.CloseSlot | internal/handlers/preview-url-handler.go:71-75 | the entry under the id is deleted whichever channel it holds, other entries untouched, the request's own channel goes away, and the closing is recorded |
| Handlers.Broker.WriteEnvelope | internal/handlers/preview-url-handler.go:113 | an envelope can only be written while its slot is in the table; the write is recorded |
| Handlers.Broker.Dispatch | internal/handlers/preview-url-handler.go:33-60 | 400 or 404 leave every map untouched; otherwise the request is sent to the registered connection as Send states; every early end, Send's included, answers with one of the handler's http.Error status and text pairs |
| Handlers.Broker.Send | internal/handlers/preview-url-handler.go:62-84 | a fresh channel is stored under the id before the body is read; a body-read failure closes the slot again; otherwise the envelope is written as Post states |
| Handlers.Broker.Post | internal/handlers/preview-url-handler.go:86-118 | the envelope carries this request's id, method, path, first-value headers and query, and body, with empty port and domain; it is written while its slot is open; a failed write closes the slot again |
| Handlers.Broker.Await | internal/handlers/preview-url-handler.go:120-137 | a response handed to the request's own channel is delivered with its status and body verbatim and each header set once; otherwise it times out (504); the entry under the id and the channel are deleted either way |
| Handlers.Broker.Respond | internal/handlers/preview-url-handler.go:120-137 | after the listener has served its reads, the outcome is what the request's own mailbox then holds, and a delivered reply comes from a response carrying this request's id; otherwise the answer is 504 with its text |
| Handlers.Broker.Preview | internal/handlers/preview-url-handler.go:33-137 | every exit after insertion leaves the id absent and the other slots' ids untouched; the outcome is 400, 404, body-read 500, write 500, the response read for this id, or 504 on no response; a delivered reply comes from a response carrying this request's id |
| Handlers.StaleListenerEvictsNewer | internal/handlers/websocket-handler.go:78-83 | after a newer registration under the same key, the older listener's failed read removes the key |
| Handlers.AnswerInTimeIsDelivered | internal/handlers/preview-url-handler.go:120-133 | when the tunnel client's first response with the request's id is read before the deadline, with the listener still reading up to it, the caller gets exactly that response |
| Handlers.CollidingIdFirstKeepsItsResponse | internal/handlers/websocket-handler.go:89-92 | a response routed before a second request with the same id replaces the entry is delivered to the first request |
| Handlers.CollidingIdSecondTakesResponse | internal/handlers/preview-url-handler.go:66-69 | a response routed after a second request with the same id replaced the entry reaches only the second; the first times out, and its deferred delete does not take the response from the second |
| LocalRequest.HandleRequestFromClient | internal/handlers/local-request-handler.go:33-111 | a body that fails to decode gives 400 and no outbound request; construction, send and body-read failures give 500; the outbound request has the envelope's method, URL, body, and each header once; the reply copies the upstream status and body with first-value headers and an empty request id |

## Left out

- Concurrency: goroutines per connection and per request, and the two mutexes.
  The pending table's lookup in the read loop is guarded by `ClientsMu`, not
  `ResponsesMu`. That is a data race with the insert and the delete in the
  preview handler, and a sequential model cannot show it. Interleavings of
  several requests can be written only as sequences of whole `Dispatch` (or
  `Send`) calls, `Deliver`, `Serve` and `Await` calls, as the colliding-id
  scenarios do. `Dispatch` is not one lock-protected step in the source: it
  covers the insert, the body read, the write and, on failure, the deferred
  delete. So orders in which another request's listener or deferred delete
  runs between those steps are not modelled. The history invariant
  (every write while its slot is open) depends on this atomicity: in the
  source another request's deferred delete under the same id can remove the
  entry between the insert and the write.
- Blocking: an unbuffered send that waits for its receiver is modelled only as
  the case where it never completes (`SlotBusy`, `Stuck`). The stuck listener
  still holds `ClientsMu`, so in the source every later lookup in the preview
  handler (preview-url-handler.go:53) and every registration
  (websocket-handler.go:68) then blocks forever too; the model lets those
  calls proceed. A send into the channel of a request that leaves without
  receiving (body-read failure, write failure or timeout) never completes in
  the source either, while the model reports it as `Routed` and lets the
  listener go on. Timing in which the waiter times
  out while a send is in flight is not modelled.
- Time: the 30-second timer is the end of the `tunnel` read sequence given to
  `Preview`; the nanosecond-clock request id is a parameter.
- Transport and encoding: the WebSocket upgrade, `WriteJSON`, `ReadJSON`, JSON
  decoding and encoding, `http.NewRequest` (the `built` flag), `io.ReadAll`
  and `http.Client.Do` are success/failure parameters. `url.Values.Encode` is
  an opaque function parameter. Parsing the raw query into the query multimap (`URL.Query`) is an input; it is not
  derived from the raw query.
- Header name canonicalisation done by `net/http` in `Header.Set`, `Header.Add`
  and request parsing is not modelled: names are kept as given.
- Error replies are modelled by status and fixed message. The `%v` error text,
  the headers that `http.Error` adds, and the body written by the
  error responder (not part of this model) are left out.
- Handlers.Broker.Await: the status code is passed on verbatim; `net/http`'s panic on codes outside 100-999 is not modelled.
- Handlers.Broker.Serve: reads after the last given read are not modelled; `StillReading` means the loop goes on.
- Headers.FlattenFirst: requires every name to have at least one value; `net/http` never produces an empty value list, and the source would panic on one.
- Closing connections and bodies (`defer conn.Close()`, `Body.Close()`), logging, and the router and server setup in `main.go`.
