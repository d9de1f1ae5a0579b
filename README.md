# DAV SDK core: contract workflows, gas and price helpers, event-watcher cursor, vessel status parameters

This project models the self-contained logic of the DAV SDK (`captain`).

- `src/Contracts.ts`
  - the module-level contract artifact table and `getContract`;
  - the gas safety margin `toSafeGasLimit` and the price normalisation `calculatePrice`;
  - the transaction record that `registerIdentity`, `approveMission`, `startMission` and `finalizeMission` assemble;
  - the deduplicating cursor behind `watchContract`.
- `src/vessel-charging/messages/StatusMessageParams.ts`
  - the constructor's validation of `location`;
  - `serialize` and `deserialize`.

Files:

- `wrappers.dfy`: `Option` and `Result`.
- `json_values.dfy`: JavaScript values and their truthiness.
- `gas_and_price.dfy`: module `GasAndPrice`.
- `contract_registry.dfy`: module `ContractRegistry`, the artifact table as a value and the lookup on it.
- `contracts.dfy`: module `Contracts`. Class `Contracts` holds the mutable module-level table, and its methods are `getContract` and the workflows.
- `event_watcher.dfy`: module `EventWatcher`.
  - `Scan` is the filter as a function over a stream of events. `Watcher` holds the two closure variables; its `Poll` is proved equal to `Scan`.
  - Lemmas cover the cursor invariant, strict increase of the output, re-polling, and how successive polls compose.
- `status_message_params.dfy`: module `StatusMessage`.

Notes on how the source is modelled:

- An absent contract type or network makes the source read `.abi` / `.address` of `undefined` and throw a TypeError. The model returns `Failure(UnknownContract(..))`, after the override has taken effect.
- `dist/Contracts.js` is compiled output and is not modelled. Its `TOKEN_AMOUNT` (`1500000000000000`) differs from the source's `1500000000000`, and the model uses the source's value.

Behaviour that the proofs make explicit:

- The filter keys events only by (block number, transaction index). A second log of the same transaction is dropped (`SameTransactionLogDropped`).
- An event at (0, 0) is never emitted (`ZeroPositionNeverEmitted`).
- Every event whose position is new (after the cursor and after all earlier events) is emitted (`NewEventEmitted`); together with `SeenEventDropped` and `OutOfOrderDropped` this decides every event, since the order is total.
- An event that comes out of order within the stream is compared against the cursor that earlier events already advanced, so it is dropped (`OutOfOrderDropped`).

## Model

| member | source | states |
|---|---|---|
| `GasAndPrice.ToSafeGasLimit` | src/Contracts.ts:76-78 | The limit is at most 4,000,000 and at most estimate + 100, and equals one of the two: it is their minimum |
| `GasAndPrice.SafeGasLimitBelowThreshold` | src/Contracts.ts:76-78 | For an estimate of at most 3,999,900 the limit is exactly estimate + 100 |
| `GasAndPrice.SafeGasLimitAboveThreshold` | src/Contracts.ts:76-78 | For an estimate above 3,999,900 (e.g. 3,999,901) the limit is the cap 4,000,000 |
| `GasAndPrice.SafeGasLimitMonotone` | src/Contracts.ts:76-78 | A larger estimate never yields a smaller limit |
| `GasAndPrice.Selected` | src/Contracts.ts:81-83 | The element examined is the argument itself, or element 0 of an array; there is none exactly for an empty array |
| `GasAndPrice.CalculatePrice` | src/Contracts.ts:80-85 | Fails exactly for an empty array (reading `.value` of `undefined`). Otherwise a record with a truthy `value` yields that value. Anything else (a bare amount, a record whose `value` is absent or 0) comes back unchanged. The result is always a value the function leaves alone |
| `GasAndPrice.CalculatePriceUsesHead` | src/Contracts.ts:81-83 | For an array only element 0 matters: the result equals that of element 0 alone |
| `GasAndPrice.CalculatePriceIdempotent` | src/Contracts.ts:84 | Feeding a result back in returns it unchanged; in particular a bare amount is returned as itself |
| `GasAndPrice.CalculatePriceExample` | src/Contracts.ts:80-85 | `calculatePrice([{value: 5}, {value: 9}]) == 5` |
| `EventWatcher.Passes` | src/Contracts.ts:308-313 | An event passes iff its (block, transaction index) is strictly after the cursor in lexicographic order |
| `EventWatcher.Scan` | src/Contracts.ts:308-317 | `.filter` then `.do` over one stream of events: each event is tested against the cursor left by the events before it, and an emitted event moves the cursor onto itself; it emits no more events than the stream holds |
| `EventWatcher.ScanInvariant` | src/Contracts.ts:300-317 | The cursor ends on the last emitted event, or where it started when nothing is emitted. The cursor never moves back. Every emitted event lies strictly after the starting cursor, and emitted positions strictly increase, so there are no duplicates. Every event of the stream ends at or before the final cursor |
| `EventWatcher.ScanEmitsSubsequence` | src/Contracts.ts:308-313 | The emitted events are the stream with some events dropped, in stream order |
| `EventWatcher.ScanOfSeenEventsEmitsNothing` | src/Contracts.ts:308-317 | A stream whose events are all at or before the cursor emits nothing and leaves the cursor where it was |
| `EventWatcher.RepollEmitsNothing` | src/Contracts.ts:302-317 | Polling again a history that was already fully filtered emits nothing |
| `EventWatcher.ScanAppend` | src/Contracts.ts:302-317 | Filtering two polls in turn equals filtering their concatenation. Emitted events concatenate and the cursor carries over, so the batches form one stream |
| `EventWatcher.AcrossPollsStrictlyIncreasing` | src/Contracts.ts:302-317 | Across successive polls the emitted positions still strictly increase |
| `EventWatcher.SameTransactionLogDropped` | src/Contracts.ts:308-317 | Right after an event is emitted, another log of the same block and transaction index is dropped |
| `EventWatcher.OutOfOrderDropped` | src/Contracts.ts:308-317 | An event at or before an earlier event of the same stream is dropped and leaves the cursor where it was |
| `EventWatcher.CursorFromStream` | src/Contracts.ts:314-317 | The cursor is where it started or the position of some event of the stream: only events move it |
| `EventWatcher.NewEventEmitted` | src/Contracts.ts:308-317 | An event strictly after the starting cursor and after every earlier event of the stream is always emitted, and the cursor moves onto it; no new event is missed, same-block events included |
| `EventWatcher.SeenEventDropped` | src/Contracts.ts:308-313 | An event at or before the starting cursor is dropped and leaves the cursor alone, whatever precedes it |
| `EventWatcher.ZeroPositionNeverEmitted` | src/Contracts.ts:300-313 | From the initial cursor (0, 0), no event at (0, 0) is ever emitted |
| `EventWatcher.SyntheticStreamExample` | src/Contracts.ts:300-317 | Events at (1,0), (2,0), (2,1), (3,0) are each emitted once, in order, ending at cursor (3,0). A later tick that fetches a subset of them emits nothing |
| `EventWatcher.Watcher.constructor` | src/Contracts.ts:300-301 | The cursor starts at (0, 0) |
| `EventWatcher.Watcher.Poll` | src/Contracts.ts:308-317 | One batch processed event by event. The emitted events and the new cursor are exactly `Scan` from the old cursor, so every `Scan` lemma applies to the watcher |
| `ContractRegistry.EffectiveTable` | src/Contracts.ts:38-40 | A configuration carrying `contracts` replaces the table; otherwise the table is kept |
| `ContractRegistry.Resolve` | src/Contracts.ts:41-45 | Succeeds iff the contract type is in the table and has an entry for the network. The abi is `table[type].abi` and the address `table[type].networks[network].address`; otherwise it fails with an unknown-contract error |
| `ContractRegistry.TableAfter` | src/Contracts.ts:38-40 | The module-level `contracts` table after a sequence of `getContract` calls, each replacing it when its configuration carries a table; the table in force is always the bundled one or one that some configuration supplied |
| `ContractRegistry.OverridePersists` | src/Contracts.ts:38-40 | After a call that supplies a table, every later call that supplies none still sees that table |
| `ContractRegistry.NoOverrideKeepsTable` | src/Contracts.ts:11-15 | Without overrides the bundled table stays in force |
| `Contracts.PlainTx` | src/Contracts.ts:139-145 | Register, approve and finalize transactions carry no nonce. Their gas is `toSafeGasLimit(estimate)` (so at most 4,000,000) and their gas price the node's, both as plain numbers |
| `Contracts.HexTx` | src/Contracts.ts:231-238 | The `startMission` transaction carries a nonce, and its nonce, gas limit (at most 4,000,000) and gas price all go through `toHex` |
| `Contracts.Contracts.constructor` | src/Contracts.ts:11-15 | The table starts as the bundled artifacts |
| `Contracts.Contracts.GetContract` | src/Contracts.ts:33-46 | The table becomes the configuration's own when it carries one, permanently; the result is the lookup in the new table |
| `Contracts.Contracts.IsIdentityRegistered` | src/Contracts.ts:93-105 | Resolves the Identity contract, failing as the lookup fails, and returns the node's answer for that address; no transaction |
| `Contracts.Contracts.RegisterIdentity` | src/Contracts.ts:107-155 | If the identity is registered, returns `ALREADY_REGISTERED` and builds no transaction. Otherwise it builds a `register(davId, v, r, s)` transaction to the Identity address from the wallet, with gas estimated from the wallet and no nonce |
| `Contracts.Contracts.ApproveMission` | src/Contracts.ts:157-197 | Builds an `approve(BasicMission address, 1500000000000)` transaction to the DAVToken address from `davId`. Gas is estimated with `{from: davId, to: token}` and there is no nonce. Either lookup failing fails the call |
| `Contracts.Contracts.StartMission` | src/Contracts.ts:199-250 | Builds a `create(missionId, vehicleId, davId, 1500000000000)` transaction to BasicMission from `walletPublicKey`. Its nonce is the wallet's transaction count, and nonce, gas and gas price are hex-encoded |
| `Contracts.Contracts.FinalizeMission` | src/Contracts.ts:252-291 | Builds a `fulfilled(missionId)` transaction to BasicMission. Its `from` is `davId`, but its gas was estimated `from: walletPublicKey` |
| `Contracts.Contracts.WatchContract` | src/Contracts.ts:293-301 | Resolves the contract, failing as the lookup fails, and returns a fresh watcher whose cursor is (0, 0) |
| `StatusMessage.ConstructionError` | src/vessel-charging/messages/StatusMessageParams.ts:12-15 | Construction throws exactly when `values` is given and its `location` is falsy, with the message "location is a required field"; no `values` never throws |
| `StatusMessage.MessageParams.constructor` | src/vessel-charging/messages/StatusMessageParams.ts:10-18 | The message type given to the base is `'vessel_status_message'`. `location` is `values.location`, or unset without `values` |
| `StatusMessage.MessageParams.New` | src/vessel-charging/messages/StatusMessageParams.ts:10-18 | `new MessageParams(values)` fails iff `values` lacks a truthy `location`. On success the type is `'vessel_status_message'` and `location` is exactly `values.location`, or unset when no `values` is given |
| `StatusMessage.Serialized` | src/vessel-charging/messages/StatusMessageParams.ts:20-25 | The serialization has the base's keys plus `location`, `location` maps to this object's location, and every other base key is untouched |
| `StatusMessage.MessageParams.Serialize` | src/vessel-charging/messages/StatusMessageParams.ts:20-26 | Returns the base serialization extended with `location == this.location` |
| `StatusMessage.MessageParams.Deserialize` | src/vessel-charging/messages/StatusMessageParams.ts:28-31 | `location` becomes `json.location` (unset when absent); what `super.deserialize` does is not modelled |
| `StatusMessage.SerializeThenDeserialize` | src/vessel-charging/messages/StatusMessageParams.ts:20-31 | After `y.deserialize(x.serialize())`, `y.location == x.location`; `y.messageType` is unchanged |

## Left out

- Everything that talks to the node is an input of the model and not modelled itself:
  - `initWeb3`;
  - `estimateGas`, `getGasPrice` and `getTransactionCount`;
  - the `isRegistered` call.

  The `Node` value supplies their answers. The web3 contract object inside `IContract` is left out.
- A node call that rejects is not modelled: a reverting `estimateGas`, or a failing `getGasPrice`, `getTransactionCount` or `isRegistered().call()`. The source propagates each of these errors to the caller; in the model every node query answers.
- Signing and sending are left out: `privateKeyToAccount`/`sign` over the registration digest, `signTransaction` and `sendSignedTransaction` with its receipt, hash and error events. The workflows end with the unsigned transaction. The registration signature is an input.
- The sha3 registration digest (`REGISTRATION_REQUEST_HASH`) is left out; it is a foreign hash.
- `generateMissionId` is left out; it is random key generation inside web3.
- Timing and concurrency in `watchContract` are left out:
  - the 2-second interval;
  - promise flattening;
  - ticks that overlap.

  The watcher is modelled one polled batch at a time. `ScanAppend` shows that this equals the flattened stream.
- `getPastEvents` is left out; each batch is an input.
- The base class `MessageParams` of `StatusMessageParams` is not part of this model. What it stores and checks is left out, and its `serialize` output is passed in.
- `StatusMessage.MessageParams.Deserialize`: takes `json` as an object. A `json` of `null` or `undefined`, on which the source throws, is not modelled. `super.deserialize` is not part of this model and is assumed to change no field of the model (in particular `messageType`).
- `StatusMessage.SerializeThenDeserialize`: only `location` is carried through the round trip; the base class's fields are not modelled, so `deserialize(serialize(x)) == x` is not stated for the whole object.
- `Contracts.Contracts.RegisterIdentity`: workflows are modelled as running alone. In the source the Identity contract is looked up before and again after the `await` on `isIdentityRegistered` (src/Contracts.ts:114), and another call whose configuration carries `contracts` may replace the module-level table in between. The second lookup could then throw or give a different Identity address from the one that was checked; the model does not capture this interleaving.
- `GasAndPrice.CalculatePrice`: `IPrice` and `BigInteger` are not part of this model, and a price `value` is taken to be a number, so only an absent value or `0` is falsy. If `value` were a decimal string, `"0"` would be truthy and `""` falsy; if it were a BigNumber object, it would always be truthy.
- JavaScript numbers are modelled as unbounded integers: no floating point, no NaN, and no precision loss above 2^53 in gas amounts or block numbers.
- `src/drone-charging/MissionParams.ts` is not modelled: it only supplies two constants and delegates to a base class that is not part of this model.
- `src/Message.ts` is not modelled: its constructor and method have empty bodies.
