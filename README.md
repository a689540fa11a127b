# Tip goal server: the accumulation and broadcast core

This project models the server of an Arweave tip-goal widget (`server.js`).
The server watches one wallet address. Every minute it asks the Arweave
gateway for recent incoming transfers, first over GraphQL and then, if that
gives no edges, over the REST history. It counts each transfer it has not
seen before into a running AR total. It pushes a `goalUpdate` snapshot
(progress against a monthly goal and USD values) to every connected widget.
An administrative `/update-tips` request replaces the total. An hourly job
refreshes the AR-to-USD rate.

Modules, one per component:

- `Wrappers` (`wrappers.dfy`): `Option`, for JSON fields that may be missing and for null results.
- `Decimal` (`decimal.dfy`): `toFixed` rounding, done exactly on reals.
- `Ledger` (`ledger.dfy`): the shapes of the GraphQL and REST replies, the
  normalised transfer record, `arweaveGraphQL`'s null-on-error result, and
  `getAddressTransactions`. The network replies are parameters.
- `Accumulator` (`accumulator.dfy`): `Scan`, the specification of the poll
  loop over one batch. Lemmas cover deduplication, idempotence, totals and
  repeated polls.
- `Goal` (`goal.dfy`): the snapshot built by `sendGoalUpdate`.
- `Server` (`server.dfy`): class `TipGoal` holds the module-level state.
  That is the processed set, the total, the rate and the connected clients.
  Class `Client` is one widget socket with its ready state and the log of
  messages written to it. The methods are the poll step, the per-record
  step, the broadcast, the connection handler, the override and the rate
  refresh. Each is proved against the functions above.

The model follows the code as written, including one defect (see
"## Findings"). Points a reader might not expect:

- A record counts when its quantity is truthy. Any non-zero quantity is truthy, negative ones included, so "positive" is not what the code checks.
- A record with a zero quantity is not marked as seen. It is skipped like any record that fails the target/quantity test.
- The REST fallback is used only when the GraphQL reply has no `edges`. An empty edge list is used as it is.
- A failure while mapping the GraphQL edges yields `[]` and does not fall back to REST.
- A broadcast happens once per counted record, not once per poll.
- The override also rejects the number `0`, because it is falsy.

## Model

| member | source | states |
|---|---|---|
| `Decimal.ToFixed` | server.js:160 | the rounded value is the nearest multiple of 10^-places; a tie goes away from zero; the sign is kept |
| `Ledger.GraphQLData` | server.js:49-70 | the GraphQL data is present exactly when the request succeeded, the reply has no truthy `errors`, and `data` is present |
| `Ledger.GraphQLEdges` | server.js:112 | `transactions.edges` is present exactly when every link of the optional chain is present; an empty list counts as present |
| `Ledger.FromEdge` | server.js:113-120 | an edge becomes a record exactly when `node`, `node.owner` and `node.quantity` can be dereferenced; the record then has the node's id and owner address, the monitored address as target, the quantity `ar * 10^12` winston exactly when `ar` is present, and the block height and timestamp when `block` is present (none otherwise) |
| `Ledger.NormaliseEdges` | server.js:113-120 | the mapping succeeds exactly when every edge is readable; it then has one record per edge, in order, each the record `FromEdge` makes of that edge |
| `Ledger.FromRest` | server.js:129-136 | a REST item keeps its id, owner, quantity, block height and block timestamp; its target is `''` exactly when the item's target is missing or empty, and the item's own target otherwise |
| `Ledger.FetchTransactions` | server.js:106-144 | with GraphQL edges the result is the normalised edges when every edge is readable and `[]` otherwise, and every record targets the address; without edges a REST array becomes one `FromRest` record per item, in order; anything else yields `[]` |
| `Ledger.RestIgnoredWhenEdgesPresent` | server.js:112-121 | when GraphQL returns edges, the REST reply has no influence on the result |
| `Accumulator.TipAmount` | server.js:160 | the counted amount is quantity / 10^12 rounded to six decimals: a whole number of micro-AR, the nearest one, a tie going away from zero; hence within 0.0000005 AR of quantity / 10^12 and with the quantity's sign |
| `Accumulator.TipAmountUnique` | server.js:160 | any whole number of micro-AR that rounds quantity / 10^12 that way equals the counted amount, so the amount is fully determined |
| `Accumulator.TipAmountExamples` | server.js:160 | 5e12 winston counts 5 AR; one winston counts 0; 1.5e6 winston is a tie and counts 0.000002 |
| `Accumulator.LogFails` | server.js:162-168 | the log line throws when the owner is missing; it cannot throw with an owner and a timestamp of 0 or none ('pending'); with an owner and a non-zero timestamp it throws exactly when timestamp * 1000 ms is outside plus or minus 8.64e15 |
| `Accumulator.Scan` | server.js:156-176 | one pass never counts an id that was already processed, never counts an id twice, and the id whose log line threw is new and not among the counted ids |
| `Accumulator.PollStep` | server.js:156-175 | proof helper for `Server.TipGoal.ApplyBatch`: unfolds `Scan` by one record, giving the three cases the loop invariant needs (fails a guard, throws, or appends its entry) |
| `Accumulator.ScanMarksQualifying` | server.js:157-161 | only ids of records that pass both guards are marked; records with a foreign target or a falsy quantity stay unmarked and can count later; without a throw the marked set is exactly the qualifying ids |
| `Accumulator.ScanCountsQualifyingAmounts` | server.js:159-170 | every counted entry carries the rounded amount of a qualifying, unseen record with that id |
| `Accumulator.ScanWithoutQualifyingIsNoOp` | server.js:157 | a batch where nothing passes both guards (missing ids, processed ids, foreign targets, falsy quantities) counts nothing and marks nothing |
| `Accumulator.RescanCountsNothing` | server.js:156-161 | polling the same batch again after a completed pass counts and marks nothing |
| `Accumulator.ScanAddsNonNegative` | server.js:170 | with non-negative quantities a poll never lowers the total |
| `Accumulator.PollsCountEachIdOnce` | server.js:157-161 | across any sequence of polls each id is counted at most once, never one seen before the first poll, and the processed set only grows |
| `Accumulator.TotalAfterPolls` | server.js:170 | after any sequence of polls the total is the start plus each counted entry's amount, once |
| `Accumulator.LostTipExample` | server.js:161-170 | as written, a qualifying record without an owner is marked as seen and adds nothing, and the next poll skips it |
| `Accumulator.ScanIntended` | server.js:159-170 | the corrected pass (mark and add together) never counts a processed id and never counts an id twice |
| `Accumulator.IntendedScanCountsEveryMarkedId` | server.js:159-170 | in the corrected pass the counted ids are exactly the qualifying ids, so every id that is marked has its amount added |
| `Accumulator.ScanAgreesWhenLogsSucceed` | server.js:161-170 | when no log line throws, the code as written and the corrected pass agree |
| `Accumulator.UntargetedRestItemNeverQualifies` | server.js:132 | a REST item without a target is never counted for a non-empty address |
| `Accumulator.GraphQLTipCounted` | server.js:112-120 | one readable GraphQL edge with an unseen id, an owner, a non-zero `ar` and a timestamp in range is counted as exactly one entry: its id with `ar * 10^12` winston rounded back to AR |
| `Goal.GoalSnapshot` | server.js:87-98 | progress is at most 100, is exactly 100 when the goal is met, and otherwise equals current/goal*100; it is non-negative for a non-negative total; the USD values are current*rate and goal*rate rounded to the nearest cent, a tie going away from zero as `toFixed(2)` does |
| `Goal.SnapshotExamples` | server.js:88-97 | 5 of 10 gives progress 50; 12 of 10 is clamped to 100; 0.005 AR at rate 1 is a half-cent tie shown as one cent |
| `Server.ParseAmount` | server.js:186-191 | the amount is rejected exactly when it is absent, the number 0, or a non-numeric string; otherwise its parsed value is used |
| `Server.TipGoal.constructor` | server.js:16-19 | start-up state: empty processed set, the starting total, rate 0, no clients |
| `Server.TipGoal.SendGoalUpdate` | server.js:87-104 | the current snapshot is appended to the client's log only when its socket is OPEN |
| `Server.TipGoal.Broadcast` | server.js:172-174 | each OPEN client receives exactly one snapshot and other clients receive none; socket states are unchanged |
| `Server.TipGoal.Connect` | server.js:82-85 | a new client joins the set and receives the current snapshot at once; no other client's log changes |
| `Server.TipGoal.CheckTransactions` | server.js:146-180 | after fetching from the two upstream replies: processed grows by exactly the ids the pass marks; the total grows by the counted amounts; each OPEN client receives one snapshot per counted record, carrying the running total; rate and clients are untouched |
| `Server.TipGoal.ApplyBatch` | server.js:151-176 | the loop over a fetched batch ends in the state `Scan` describes: processed grows by the marked ids, the total by the counted amounts, and each OPEN client receives one snapshot per counted entry; an empty batch changes nothing and sends nothing |
| `Server.TipGoal.ApplyIfNew` | server.js:157-175 | a record failing either guard changes nothing; a qualifying one adds exactly its id; unless its log line throws, it then adds its rounded amount and broadcasts once |
| `Server.TipGoal.UpdateTips` | server.js:185-197 | an invalid amount gives 400 and changes nothing; a valid one replaces the total (it is not added), broadcasts once, and echoes the new total; the processed set and the rate are untouched |
| `Server.TipGoal.UpdateExchangeRate` | server.js:72-80 | a quote replaces the rate; a failed fetch keeps the previous rate |

## Left out

- HTTP and WebSocket plumbing: the axios calls, express routing and static files, the upgrade handling, and JSON serialisation. Each network call's outcome is a parameter (`GqlResponse`, `RestReply`, `RateReply`, `AmountField`). A message is the `GoalUpdate` value, not its JSON text.
- `setInterval` scheduling and the start-up calls. The poll and the rate refresh are methods a caller invokes in any order. Overlapping polls are not modelled: in the server a slow `await` can let a second poll start before the first ends.
- Floating point. Quantities, totals and rates are exact reals. `toFixed(6)`, `toFixed(2)` and `parseFloat` are modelled as exact rounding (`Decimal.ToFixed`). `quantity.ar * 1e12` and `/ 1e12` are exact. The two USD strings are whole cents.
- Logging, the `process.exit` on a missing address, and the `.env` defaults.
- Server.TipGoal.constructor: requires a non-empty address, as the start-up check guarantees. It also requires a positive goal. A goal of 0 (`GOAL_AR=0`, the truthy string `"0"`) is not modelled: there `current / goal * 100` is Infinity, NaN or -Infinity, so `Math.min(..., 100)` gives progress 100 for a positive total, NaN for a total of 0 and -Infinity for a negative one. A goal read from the environment is a string there; here it is a number.
- Server.TipGoal.UpdateExchangeRate: a reply that has `arweave` but no `usd` sets the rate to `undefined` in the server. `RateReply` has no case for such a reply, so the model cannot express it.
- Server.ParseAmount: `AmountField` has no case for JSON booleans, arrays or objects, nor for strings that `Number` and `parseFloat` read differently: hexadecimal (`"0x…"`), binary (`"0b…"`), octal (`"0o…"`), whitespace-only and `"Infinity"`. For these the `isNaN` test and `parseFloat` disagree, so the server can store NaN, 0 or Infinity; for example `[]` passes the test and stores NaN, and `["5"]` stores 5. JSON `null` is treated as absent.
- Ledger.FromRest: the REST quantity is a number. A quantity sent as the string `"0"` would be truthy in the server, and that record would be counted with amount 0.
- Ledger.NormaliseEdges: `null` entries inside the edge array are not modelled. Neither are `null` items in the REST array, or ids that are not strings.
- Server.TipGoal.Broadcast: the transport removes closed sockets from the set and changes their ready state. That is not an operation here. A send that throws is not modelled.
- `public/script.js`, the widget's DOM rendering and animations, is not part of this model.

## Findings

| source | as written | input that shows it | evidently intended | confidence | as-written member | corrected member |
|---|---|---|---|---|---|---|
| server.js:161-170 | the id is added to `processedTxs` before the log line. The log line calls `tx.owner.slice(...)` and `new Date(tx.timestamp * 1000).toISOString()`. If either throws, `currentTipsAR` is never increased, nothing is broadcast, and the rest of the batch is abandoned. The id stays marked, so no later poll counts it | a REST history item `{txid: "tip", target: <wallet>, quantity: 5e12}` with no `owner` (or a GraphQL node whose `owner.address` is null) | marking and adding happen together, so every id in `processedTxs` has its amount in the total | high (not executed) | `Accumulator.LostTipExample` | `Accumulator.IntendedScanCountsEveryMarkedId` |
