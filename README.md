# angular-data: `DS.update` and `DS.lastSaved`, modelled in Dafny

This project models two operations of angular-data's data store (`DS`).
The data store caches records per resource and runs mutating operations through lifecycle hooks and a pluggable adapter.

- `DS.update(resourceName, id, attrs[, options])` checks its arguments in a fixed order, each check with its own typed error.
  It defaults `options.cacheResponse`.
  It threads `attrs` through `beforeValidate → validate → afterValidate → beforeUpdate → serialize → adapter.update → deserialize → afterUpdate`, stopping at the first failure.
  With caching on, it injects the result into the resource's collection, snapshots it into `previousAttributes`, advances `saved` and returns the stored record.
- `DS.lastSaved(resourceName, id)` runs the same resource and id checks.
  It then reads `store[resourceName].saved[id]`, writing 0 there the first time the id is seen.
  A fault inside the read becomes `UnhandledError`.

Layout, one module per file:

- `values.dfy` (`Values`): JavaScript values as a tagged datatype.
  It holds the `isString`/`isNumber`/`isObject` tests, truthiness, and the string coercion of a value used as a property key.
  Because of that coercion, `saved[5]` and `saved["5"]` are the same entry.
- `errors.dfy` (`Errors`): the error kinds and the `Result` type.
  Every rejection and every throw becomes a `Failure`.
- `resources.dfy` (`Resources`): resource definitions with their hooks, adapters, and the per-resource `Collection` (records, `saved`, `previousAttributes`).
  It also holds the resource/id check shared by both operations and the single-record `inject` step.
- `pipeline.dfy` (`Pipeline`): the lifecycle pipeline executor.
  A run records the payload fed to each invoked stage and the outcome.
- `update.dfy` (`Update`): `update` as a value-level outcome function, with its properties.
  `StageStep` and `UpdateSteps` define the eight stages; `StagesRunInOrder`, `SuccessfulPipelineChain` and `MissingAdapterStopsBeforeSerialize` describe what they do.
- `last_saved.dfy` (`LastSaved`): `lastSaved` as a value-level outcome function, with its properties.
- `data_store.dfy` (`DataStore`): the `DS` class.
  Its map fields are `definitions`, `adapters` and `store`.
  Its methods `Update` and `LastSaved` change `store` in place and are proved equal to the outcome functions.

Parameters stand in for code outside the model:

- Hooks, `serialize`, `deserialize` and `adapter.update` are function-valued fields of the definition and adapter datatypes, returning a `Result`.
- `utils.updateTimestamp` is the parameter `stamp: Option<int> -> int`; the old `saved` entry is `None` when absent.
- The wall clock is never read.

## Model

| member | source | states |
|---|---|---|
| `Values.NatDigits` | src/datastore/sync_methods/lastSaved.js:50-53 | the key of a non-negative numeric id (below 10^21) is a non-empty string of decimal digits without a leading zero, one digit exactly for numbers below 10 |
| `Values.NatDigitsValue` | src/datastore/sync_methods/lastSaved.js:50-53 | read back in base ten (`NumeralValue`, most significant digit first), NatDigits(n) denotes n |
| `Values.Decimal` | src/datastore/sync_methods/lastSaved.js:50-53 | String(n) for an integer of magnitude below 10^21: a leading `-` exactly when n is negative, then the digits of the magnitude without a leading zero |
| `Values.DecimalValue` | src/datastore/sync_methods/lastSaved.js:50-53 | read back in base ten, Decimal(n) denotes n, its digits after the `-` denoting -n for a negative n |
| `Values.DecimalInjective` | src/datastore/sync_methods/lastSaved.js:50-53 | two different numeric ids are never coerced to the same property key |
| `Values.NumericIdKeys` | src/datastore/sync_methods/lastSaved.js:50-53 | for integer ids of magnitude below 10^21, a numeric id shares its key with a string id exactly when the string is its decimal numeral; two numeric ids share a key only when equal |
| `Values.PropertyKey` | src/datastore/sync_methods/lastSaved.js:50 | the key of an id used as `saved[id]`: a string is its own key, an integer is the numeral that denotes it, with a leading `-` exactly when negative, an object is `[object Object]` |
| `Resources.CheckResourceAndId` | src/datastore/sync_methods/lastSaved.js:44-47 | RuntimeError exactly when the resource is unregistered; IllegalArgumentError exactly when it is registered and the id is neither string nor number; no error exactly when both pass |
| `Resources.Inject` | src/datastore/async_methods/update.js:94 | succeeds exactly for an object whose idAttribute is a string or number; stores the record under that attribute's key and changes no other entry; the record carries every field of the data and keeps the existing record's other fields |
| `Resources.InjectedRecordKey` | src/datastore/async_methods/update.js:94-95 | the id read back from the injected record is the key it was stored under |
| `Pipeline.Execute` | src/datastore/async_methods/update.js:73-91 | stages run in order: the first is fed the payload, each later one its predecessor's success value; on failure the last invoked stage produced the result; on success every stage ran and the last one's output is the result |
| `Pipeline.ThreadsIsUnique` | src/datastore/async_methods/update.js:73-91 | the ordering and short-circuit contract of Execute admits exactly one run |
| `Pipeline.ExecuteAppend` | src/datastore/async_methods/update.js:73-91 | running a + b equals running a and, only if a succeeded, running b on a's output |
| `Pipeline.AlwaysFailingStageStops` | src/datastore/async_methods/update.js:73-91 | a stage that always fails makes the pipeline fail, and no later stage is invoked |
| `Pipeline.IdentityStageIsInvisible` | src/datastore/async_methods/update.js:73-91 | inserting a pass-through stage (an omitted hook) anywhere leaves the outcome unchanged |
| `Update.OrEmpty` | src/datastore/async_methods/update.js:52-60 | truthy options are kept; falsy ones become `{}`; so the options check fails exactly for truthy options that are not objects |
| `Update.CheckArguments` | src/datastore/async_methods/update.js:54-61 | the cascade: unregistered resource, then bad id, then non-object attrs, then non-object options; each error exactly when all earlier checks passed and its own fails; no error exactly when all pass |
| `Update.DefaultCacheResponse` | src/datastore/async_methods/update.js:67-71 | cacheResponse becomes true when absent, else the boolean coercion of its value; every other option is unchanged |
| `Update.DefaultCacheResponseIdempotent` | src/datastore/async_methods/update.js:67-71 | defaulting twice equals defaulting once |
| `Update.PreconditionFailureRunsNothing` | src/datastore/async_methods/update.js:54-61 | a failed check is the result; no stage is invoked and the store is unchanged |
| `Update.FalsyOptionsAreEmptyOptions` | src/datastore/async_methods/update.js:52-61 | a call with falsy options behaves exactly like one with `{}` and never fails the options check |
| `Update.StagesRunInOrder` | src/datastore/async_methods/update.js:73-91 | after the checks, stage i of beforeValidate … afterUpdate is fed stage i-1's output, the first is fed attrs; a failing stage is the last invoked, its failure is the result and the store is unchanged; on success all eight stages ran |
| `Update.SuccessfulPipelineChain` | src/datastore/async_methods/update.js:73-91 | on success each hook got its predecessor's output; the selected adapter exists and received serialize(beforeUpdate output) with the defaulted options; afterUpdate received deserialize(adapter response) |
| `Update.AdapterName` | src/datastore/async_methods/update.js:87 | an absent or falsy `options.adapter` selects the definition's defaultAdapter; a non-empty string names the adapter itself |
| `Update.WriteBack` | src/datastore/async_methods/update.js:92-98 | fails exactly when the collection is missing or the data is not an object with a string or number idAttribute; on success only the resource's collection changes: under the data's id records and previousAttributes hold the returned record and saved holds stamp(old saved), and nothing else in the collection changes |
| `Update.UpdateOutcome` | src/datastore/async_methods/update.js:48-107 | at most the eight stages are invoked; no resource gains or loses its collection; a failure leaves the store unchanged; a changed store differs only in a registered resource's collection |
| `Update.MissingAdapterStopsBeforeSerialize` | src/datastore/async_methods/update.js:87 | with an unknown adapter name the call fails, no later stage runs and the store is unchanged; if the four hooks succeed, the failure is the engine's TypeError, raised before serialize runs |
| `Update.UncachedUpdateLeavesStore` | src/datastore/async_methods/update.js:92-101 | with cacheResponse given and falsy, the result is afterUpdate's output and the store is unchanged |
| `Update.CachedUpdateWritesBack` | src/datastore/async_methods/update.js:92-101 | with caching on, the key comes from the injected record's idAttribute, not the id argument; records[key] and previousAttributes[key] become the returned record; saved[key] becomes stamp(old saved[key]); nothing else changes |
| `Update.UpdateSucceedsExactlyWhen` | src/datastore/async_methods/update.js:54-102 | success exactly when the checks pass, the pipeline succeeds and, with caching on, the collection exists and the output is an object with a string or number idAttribute |
| `Update.InitialisedStoreOnlyInjectCanFail` | src/datastore/async_methods/update.js:63-98 | when every registered resource has a collection, a cached update whose pipeline succeeded fails only by inject's refusal, never by the missing-collection fault; the set of collections stays the same |
| `LastSaved.LastSavedOutcome` | src/datastore/sync_methods/lastSaved.js:43-57 | no resource gains or loses its collection; a failure leaves the store unchanged; on success the id's saved entry holds the result |
| `LastSaved.LastSavedFailures` | src/datastore/sync_methods/lastSaved.js:44-56 | RuntimeError exactly when unregistered; IllegalArgumentError exactly when registered with a bad id; UnhandledError exactly for a registered resource without a collection; no other kind; failures leave the store unchanged |
| `LastSaved.LastSavedReadsOrInitialises` | src/datastore/sync_methods/lastSaved.js:49-53 | an existing entry is returned with the store unchanged; a missing one is set to 0 and 0 is returned; afterwards the entry equals the result |
| `LastSaved.LastSavedFrame` | src/datastore/sync_methods/lastSaved.js:50-51 | only the id's saved entry may be added: other resources, records, snapshots and all existing saved values stay |
| `LastSaved.LastSavedIdempotent` | src/datastore/sync_methods/lastSaved.js:50-53 | a second identical call returns the same value and changes nothing |
| `LastSaved.NumericAndStringIdsShareEntry` | src/datastore/sync_methods/lastSaved.js:50-53 | for an integer n of magnitude below 10^21, `lastSaved(r, n)` and `lastSaved(r, String(n))` behave identically |
| `LastSaved.InitialisedStoreNeverFaults` | src/datastore/sync_methods/lastSaved.js:49-56 | when every registered resource has a collection, lastSaved never fails with UnhandledError and the set of collections stays the same |
| `LastSaved.OmittedIdIsRejected` | src/datastore/sync_methods/lastSaved.js:43-47 | for a registered resource, an omitted (undefined) id is rejected with the id IllegalArgumentError and the store is unchanged |
| `LastSaved.LastSavedChangesAcrossCachedUpdate` | src/datastore/async_methods/update.js:96-97 | lastSaved, a cached update of the same id, then lastSaved: the second read returns stamp(first value), which differs from the first when stamp never returns its input |
| `DataStore.DS.Update` | src/datastore/async_methods/update.js:48-107 | keeps Valid (names agree with definitions, every registered resource has a collection); the in-place update yields UpdateOutcome's result and store; a failure leaves the store unchanged; a cached update whose pipeline succeeded fails only by inject's refusal |
| `DataStore.DS.CacheResponse` | src/datastore/async_methods/update.js:92-101 | the in-place inject and writes of previousAttributes and saved yield WriteBack's result and store; a failure leaves the store unchanged |
| `DataStore.DS.LastSaved` | src/datastore/sync_methods/lastSaved.js:43-57 | keeps Valid; the in-place read yields LastSavedOutcome's result and store; never fails with UnhandledError; on success the id's saved entry equals the result; a failure or an already-present id leaves the store unchanged |

## Left out

- The `$q` deferred and promise machinery (`$q.defer`, `$q.promisify`) is not modelled.
  Rejections and throws are one synchronous `Result`, and a hook's callback or promise form is a function returning a `Result`.
- Adapter operations other than `update`, and the HTTP adapter and its URL/query encoding, are not modelled.
  They are outside these two operations.
- `inject`, `get` and `utils.deepMixIn` are not part of this model.
  `inject` is the single-record overwrite `Resources.Inject`.
  `get(name, id)` is a read of the records map.
  The `deepMixIn({}, updated)` snapshot is the record value itself.
- Resources.Inject: does not model injecting an array, merging nested objects field by field, the beforeInject/afterInject hooks, or modification timestamps.
  It refuses, with UnhandledError, data that is not an object or whose idAttribute is not a string or number.
  What the real `inject` does there is not part of this model.
- Records are values, so the identity of live record objects is not captured: callers holding an old reference seeing it change in place.
- Aliasing of options is not captured.
  The caller's options object sees `cacheResponse` written back, and the adapter, the only stage given options (update.js:87), could mutate them before line 93 reads them.
- `utils.updateTimestamp` and the clock are the parameter `stamp`.
  The only property assumed, and only where needed, is that `stamp(Some(t)) != t`.
- The `updateAll` driver, `DS.filter` and `lastModified` are not modelled.
  Their sources are not part of this model.
- Concurrent in-flight pipelines are not modelled; the model is sequential.
- Numbers are integers of magnitude below 10^21 (`Values.PlainInt`) plus NaN.
  In that range `String(n)` is the plain decimal numeral.
  Fractional numbers, the infinities, magnitudes of 10^21 and above (printed in exponent form, such as `1e+21`) and the rounding of integers beyond 2^53 to doubles are not modelled.
- Values.NatDigits: gives the plain numeral, which is String(n) only for numbers below 10^21; larger numbers print in exponent form and are outside `Values.PlainInt`.
- Values.NumericIdKeys: covers only numeric ids of magnitude below 10^21; a larger id such as `1e21` shares its key with the string `"1e+21"`, which is not modelled.
- LastSaved.NumericAndStringIdsShareEntry: covers only integer ids of magnitude below 10^21, for the same reason.
- `resourceName` and the ids are strings looked up in plain maps.
  Property names inherited from `Object.prototype` are not modelled.
  A resource called `toString` would pass the registration check.
  An id such as `"toString"` or `"__proto__"` is already `in` every `saved` object through the prototype, so the real `lastSaved` returns the inherited value and writes nothing, where the model writes 0.
- The detail object `{ id: { actual, expected } }` on lastSaved's IllegalArgumentError is not modelled; only the message is.
- The engine TypeErrors are `Fault`s whose messages stand for the engine's wording.
  They are reading `.update` of an unknown adapter (a rejection of its own, since update.js catches nothing), and `.saved` of a missing resource (wrapped in UnhandledError by the catch at lastSaved.js:54-56).
- update.js has no try/catch, so a missing collection during the cache step arrives as UnhandledError only if `inject` wraps its own failure.
  The model assumes it does, as the documented rejection with UnhandledError (update.js:42-46) suggests; `inject` is not part of this model.
- `utils.isObject` is taken to accept plain objects only: not scalars, null, functions or arrays.
  The utils module is not part of this model; if it were `angular.isObject`, arrays would pass the attrs and options checks.

## Documentation and code

The lastSaved documentation (lastSaved.js:1, 13) shows the id as optional, and its example (lastSaved.js:19-20) has a never-seen item read as `undefined`.
The code rejects an omitted id with IllegalArgumentError (lastSaved.js:46-47), and a never-seen id reads 0 (lastSaved.js:50-53).
The model follows the code: `LastSaved.OmittedIdIsRejected` and `LastSaved.LastSavedReadsOrInitialises`.
