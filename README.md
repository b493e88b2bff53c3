# PayWithLisk server: a verified model of the reconciliation loop

PayWithLisk is a small Swift server. A web shop uses it to settle orders paid in LSK, the currency of the Lisk blockchain:

- Clients open a WebSocket and submit a `{senderId, item}` order.
- The server keeps the orders in a store keyed by the payer's Lisk account (`senderId`).
- Every ten seconds a metronome tick walks the store. For each pending order the server asks a Lisk node for the transfers from that payer to the shop's account (`17206648368948385036L`).
- If the node lists any transfer, the order is marked completed with the most recent transfer's id.
- A `{senderid, status: "completed"}` notice is then broadcast to every open connection.

The model has these parts:

- `Wrappers` holds `Option` and `Result`.
- `Orders` holds the order record, its status raw values and the notice payload (`Order.swift`).
- `Lisk` (`Lisk.swift`) holds:
  - the transfer record;
  - the ledger request;
  - the decoding post-processing: the nil check and the shift from Lisk network time to Unix time;
  - the error description.
- `Extensions` (`Extension.swift`) holds:
  - the query-string builder, as a loop over a dictionary;
  - URL query appending;
  - `lastIndexOf`.
- `Sockets` (`SocketService.swift`) holds the `SocketService` class. It keeps a connection registry as a map and ghost logs of broadcasts, deliveries and closed connections. It has the connect, disconnect and receive handlers and a broadcast loop.
- `Server` (`Server.swift`) holds two things:
  - the specification of a tick, as a left fold over the key snapshot, with its properties proved as lemmas;
  - the `Server` class. Its `store` map is updated in place by `SocketServiceDidReceive` and by `Tick`. `Tick` is proved equal to the fold, including the notices it broadcasts through its `SocketService`.

Where the code and its comments disagree, the model follows the code.

- **Ledger errors end the tick.** The single `do/catch` encloses the whole loop (Server.swift:29-72). So a ledger error for one payer ends the tick for every later key. Updates for earlier keys remain and are never rolled back: `Server.TickAbortsOnLedgerError` and `Server.LedgerErrorDelaysLaterPayer` state this.
- **The reuse guard does not prevent reuse.** The comment at Server.swift:43 says the guard prevents reusing a transaction, but the guard only skips an order whose own `transactionId` is already set. A submitted order's `transactionId` is always nil, so the guard never blocks it. A transfer that already completed an order can complete a later order from the same payer: see `Server.GuardIsSelfMatch`, `Server.ResubmittedOrderSettlesAgain` and `Server.ResubmissionSettlesTwice`.

Inputs the program gets from outside are parameters of the model:

- The ledger is `Server.Ledger`, a function from `(senderId, recipientId)` to a ledger failure or a transfer list. `Lisk.Transactions` with an HTTP `respond` function is one such ledger.
- The dictionary's iteration order and Foundation's percent-encoding are parameters of the query-string functions.
- The key snapshot is a parameter of `Tick`.
- JSON decoding is given as its decoded result: an `Option<Submission>` or a `ResponseBody`.

## Model

| member | source | states |
|---|---|---|
| Orders.RawValue | Sources/Server/Order.swift:10-13 | the raw value is `"pending"` exactly for `pending` and `"completed"` exactly for `completed`, so the two raw values differ |
| Orders.StatusFromRawValue | Sources/Server/Order.swift:10-13 | parsing a raw value returns a status whose raw value it is, or nothing when no status has that raw value |
| Orders.StatusRawValueRoundTrip | Sources/Server/Order.swift:10-13 | parsing a status's raw value gives the status back |
| Orders.NewOrder | Sources/Server/Order.swift:21-26 | the initialiser stores all four arguments verbatim; with the defaults the order is pending with no transaction id |
| Orders.CompletionNotice | Sources/Server/Server.swift:66-67 | the broadcast payload names the sender, and its status is the raw value of `completed` |
| Lisk.ErrorDescription | Sources/Server/Lisk.swift:29-37 | the description of `invalidTransactions` is "Could not find the transactions." |
| Lisk.TransactionsRequest | Sources/Server/Lisk.swift:43-47 | the request is a GET to the node's `/api/transactions` path, with a 10 second timeout and exactly the params `senderId` and `recipientId` holding the given accounts |
| Lisk.ShiftAll | Sources/Server/Lisk.swift:66-73 | the mapped list has the input's length and order; each element keeps id, senderId, recipientId, amount and fee, and its timestamp is shifted by the Lisk epoch 1464109200 |
| Lisk.Decode | Sources/Server/Lisk.swift:55-77 | a nil transaction list gives `invalidTransactions` and only then an error; otherwise the result is the element-wise epoch-shifted list |
| Lisk.UnshiftShiftAll | Sources/Server/Lisk.swift:66-72 | shifting back by the epoch restores the node's list, so the shift loses nothing |
| Lisk.DecodeRecoversLedgerList | Sources/Server/Lisk.swift:55-77 | a decoded list, shifted back, is exactly the list in the response body |
| Lisk.DecodeIgnoresSuccess | Sources/Server/Lisk.swift:56-65 | the `success` flag plays no part: a present list decodes to the same result whether or not `success` is set |
| Lisk.Transactions | Sources/Server/Lisk.swift:43-50 | the ledger call succeeds exactly when the response arrives and has a list. A transport or body failure is passed on. A missing list gives `invalidTransactions`. A success is the epoch-shifted list |
| Extensions.QueryParameters | Sources/Server/Extension.swift:40-48 | the loop's result equals `QueryString` for the dictionary in its iteration order, and is empty for an empty dictionary |
| Extensions.QueryString | Sources/Server/Extension.swift:40-48 | the join of no parts is empty, and an empty dictionary has an iteration order with no keys, so an empty dictionary gives the empty query string |
| Extensions.SplitJoin | Sources/Server/Extension.swift:47 | joining parts that have no `&` and splitting at `&` gives the parts back, so the join keeps every part |
| Extensions.QueryStringParts | Sources/Server/Extension.swift:41-47 | when no encoded key or value has an `&`, the query string is one part per entry, in iteration order, and each part is `enc(key)=enc(value)` |
| Extensions.OrderCoversParams | Sources/Server/Extension.swift:42 | an iteration order visits as many keys as the dictionary has entries |
| Extensions.AppendingQueryParameters | Sources/Server/Extension.swift:57-60 | the URL string is the absolute string, then `?`, then the query string; the `?` is present even with no parameters |
| Extensions.LastOccurrenceFrom | Sources/Server/Extension.swift:64-70 | the backwards search from position i finds the greatest start at or below i where the target occurs, and nothing exactly when there is none |
| Extensions.LastIndexOf | Sources/Server/Extension.swift:64-70 | the result is nil exactly when the target is empty or occurs nowhere; otherwise the target occurs at the result and at no greater start |
| Sockets.SocketService.constructor | Sources/Server/SocketService.swift:11-14 | the registry starts empty, as do the logs of broadcasts, deliveries and closed connections |
| Sockets.SocketService.Broadcast | Sources/Server/SocketService.swift:17-26 | the payload is sent once to each registered connection and to nothing else: the new deliveries are one per key, each to the registered connection, with no key twice. The registry is unchanged, so an empty registry gets no sends |
| Sockets.FanOutStep | Sources/Server/SocketService.swift:21-24 | sending to one more not-yet-visited key keeps the partial fan-out invariant of the broadcast loop |
| Sockets.SocketService.Connected | Sources/Server/SocketService.swift:32-34 | the connection is registered under its id; every other entry and the logs are unchanged |
| Sockets.SocketService.Disconnected | Sources/Server/SocketService.swift:36-38 | exactly that id is removed from the registry; the logs are unchanged |
| Sockets.SocketService.ReceivedBinary | Sources/Server/SocketService.swift:40-43 | the sender is closed (appended to the closed log) and its id is removed from the registry |
| Sockets.SocketService.ReceivedText | Sources/Server/SocketService.swift:45-61 | a decoded message makes one delegate call carrying a pending order with nil transaction id and the message's sender and item. An undecodable message makes none. Nothing in the service changes, and the connection stays open |
| Server.CollectedContains | Sources/Server/Server.swift:107-120 | every stored order whose key is in the snapshot is among the collected orders |
| Server.CollectedFromStore | Sources/Server/Server.swift:107-120 | the collected orders are stored orders, and there are no more of them than keys walked |
| Server.GuardIsSelfMatch | Sources/Server/Server.swift:44-49 | since the collected orders include the order itself, the reuse guard fires exactly when the order's own transaction id is set. It never skips an order with a nil id and always skips one with an id |
| Server.SettleShape | Sources/Server/Server.swift:53-63 | a settlement replaces a pending entry under the same key, with the same item, status completed and a transaction id |
| Server.PaidOrderSettles | Sources/Server/Server.swift:53-63 | a pending order with nil id whose ledger list is non-empty is always settled, with the last transfer's id, its own key and its item, whatever ids other orders hold |
| Server.StepIsLocal | Sources/Server/Server.swift:37-63 | what the loop does for a key depends only on that key's entry |
| Server.AbortedTickStops | Sources/Server/Server.swift:29-72 | once the ledger has thrown, the rest of the loop does nothing |
| Server.TickKeepsKeys | Sources/Server/Server.swift:37-69 | a tick neither adds nor removes keys, and it only appends to the broadcast sequence |
| Server.TickKeepsCompleted | Sources/Server/Server.swift:38-42 | a tick never modifies an entry whose status is completed |
| Server.TickLeavesUnvisited | Sources/Server/Server.swift:37-63 | a key the loop does not visit keeps its entry, and its presence in the store |
| Server.TickKeepsInvariants | Sources/Server/Server.swift:62-63 | a tick keeps every order stored under its own sender and keeps "transaction id set exactly when completed" |
| Server.NoticesNameSettled | Sources/Server/Server.swift:62-68 | a sender is named by a notice exactly when the tick took its entry from pending to completed, and only visited keys are named |
| Server.NoticesAreDistinct | Sources/Server/Server.swift:62-68 | no sender is named by two notices of one tick, and every notice is `{senderid: k, status: "completed"}` |
| Server.NoticesMatchSettlements | Sources/Server/Server.swift:62-68 | one notice per order the tick completes. A sender is named by a notice exactly when its entry went from pending to completed, and it is named once only. Every notice is `{senderid: k, status: "completed"}` for a visited key |
| Server.TickSettlesPaidOrder | Sources/Server/Server.swift:53-68 | the case where the loop reaches a pending key, no earlier key threw, and the ledger lists transfers for it. At the end of the tick, the entry is completed with the last transfer's id, the same key and the same item, and its notice was broadcast |
| Server.TickSkipsUnpaidOrder | Sources/Server/Server.swift:56 | an empty ledger list leaves the entry unchanged, and no notice names it |
| Server.AbortEndsTick | Sources/Server/Server.swift:29-72 | once the turn for a key has thrown, the rest of the tick changes nothing further |
| Server.TickAbortsOnLedgerError | Sources/Server/Server.swift:29-72 | a ledger error at key kᵢ ends the tick. Earlier keys keep this tick's updates and notices, no further notice is sent, and kᵢ and every later key keep their entries |
| Server.TickIsIdempotent | Sources/Server/Server.swift:28-73 | a second tick against the same ledger changes nothing, broadcasts nothing, and throws where the first threw |
| Server.Submit | Sources/Server/Server.swift:101-104 | a submission stores the order under its sender, overwriting any entry (also a completed one), and leaves the other keys untouched |
| Server.SubmitKeepsInvariants | Sources/Server/Server.swift:101-104 | a submitted order keeps every order under its own sender and every order well formed |
| Server.ResubmittedOrderSettlesAgain | Sources/Server/Server.swift:44-63 | a re-submission after completion is completed again with the same transfer id when that transfer is still the last one listed. Ids already used by completed orders are not checked |
| Server.WidgetScenario | Sources/Server/Server.swift:28-73 | a single pending order whose payer has paid is completed by one tick, and exactly one notice `{senderid: "S1", status: "completed"}` is broadcast |
| Server.ResubmissionSettlesTwice | Sources/Server/Server.swift:43-63 | one concrete transfer completes first an order and then a re-submitted order from the same payer, with two notices in total |
| Server.LedgerErrorDelaysLaterPayer | Sources/Server/Server.swift:29-72 | a ledger error for the first payer leaves a later payer, who has paid, pending for this tick, and nothing is broadcast |
| Server.Server.constructor | Sources/Server/Server.swift:15-25 | the server starts with an empty store and a fresh socket service with no connections, no broadcasts, no deliveries and no closed connections |
| Server.Server.SocketServiceDidReceive | Sources/Server/Server.swift:101-104 | the store becomes `Submit` of the old store and the order |
| Server.Server.ReceivedText | Sources/Server/SocketService.swift:45-61 | a decoded text message stores a fresh pending order under its sender; an undecodable one leaves the store unchanged |
| Server.Server.AllOrders | Sources/Server/Server.swift:107-120 | the loop yields the collected orders of the snapshot. It contains every stored order whose key is in the snapshot and nothing that is not stored |
| Server.Server.Visit | Sources/Server/Server.swift:37-69 | one turn of the loop updates the store and the broadcast log exactly as the specified step says, and reports whether the ledger threw. The registry and the closed log are unchanged. A settling turn sends the completion notice once to each registered connection and nowhere else; any other turn sends nothing |
| Server.Server.Tick | Sources/Server/Server.swift:28-73 | after the tick, the store and the appended broadcasts are those of the specified fold over the snapshot, so every lemma about `TickOver` holds of the method. The registry and the closed log are unchanged, and earlier deliveries are kept as a prefix |

## Left out

- Metronome.swift is not part of this model. Its timer and dispatch queue are timing and concurrency, so a tick is an explicit call of `Server.Server.Tick`.
- `Server.run` is not modelled. The router, CORS, WebSocket registration and port listening (Server.swift:76-97) are I/O.
- Networking is not modelled. That covers URLSession, the Promise and `await`, and the non-200 branch that neither resolves nor rejects (Lisk.swift:79-95). The HTTP exchange is the `respond` parameter of `Lisk.Transactions`, which covers transport and body errors but not a call that never returns.
- Lisk.ShiftAll: the epoch shift is integer addition. The source goes through `Double` and back, which agrees for realistic timestamps, and it computes the epoch by parsing a date string, which is taken as the constant 1464109200.
- JSON encoding and decoding are not modelled. Decoded messages and response bodies are given as values, and the broadcast payload is the `OrderResult` value rather than its JSON bytes.
- Percent-encoding (`addingPercentEncoding`) is the uninterpreted parameter `enc`, and its `fatalError` branch is not modelled.
- The `fatalError` for a text message that is not UTF-8 (SocketService.swift:46-48) is not modelled, because strings are already character sequences here.
- The KituraCache internals are not modelled: the TTL sweep, `checkFrequency`, and the failable cast of `keys()`. With a TTL of 0, entries never expire, so a cache is a map.
- Dictionary and cache key order is unspecified in the source. The key snapshot and the query-string iteration order are parameters, and `Broadcast` picks keys in an unspecified order.
- Concurrent submissions during a tick are not modelled, because the operations run one after another.
- The rest of Extension.swift is not modelled. It consists of the Date and ISO-8601 helpers, `startOfWeek`, `endOfWeek`, `Decimal.round`, `doubleValue`, `String(_:rounded:)` and `toDate`, which are floating point and Foundation formatters.
- The `URLRequest` initialiser is not modelled: its `timeoutInterval >= 1.0` precondition is a floating-point check, and its failable `URL(string:)` calls are Foundation's. The request is the `Lisk.Request` value.
- Extensions.LastIndexOf: indices are character (code point) positions, not Swift's grapheme-cluster distances, and matching is exact code-point equality, not Foundation's canonical equivalence: for "e" followed by a combining acute accent, searched for a precomposed "é", the source finds position 0 and the model finds nothing.
- Server.Server.Tick: its contract keeps the earlier deliveries as a prefix, but it does not describe the deliveries added during the tick. They are stated turn by turn: `Server.Server.Visit` gives, for each settling turn, the fan-out of one notice to every registered connection, and no sends for any other turn. Over a whole tick, the contract speaks of the broadcast payloads.
- `print` logging in the tick and in the receive handler is not modelled.
