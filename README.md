# LocalBanker bookkeeping in Dafny

A model of the bookkeeping state machine of rtbkit's `LocalBanker`
(`rtbkit/core/banker/local_banker.cc`). This is the client-side budget cache that bid routers and
post-auction processors use. The model treats the network as two kinds of event. A method that
sends a request appends a `Request` to the banker's ordered `effects` log. A response handler is a
method that receives the status and the already-decoded body. Mutating calls into the account
store go into the same log as `StoreCall` entries. The store itself is opaque: its current key set
(`accounts.exists`) is a parameter of each step that reads it, and its bid/win decisions are
function parameters of `Bid`/`Win`. No debit or credit semantics are assumed.

Modules:

- `Ledger` (ledger.dfy): account keys, amounts, requests per ledger endpoint, store calls, decoded bodies.
- `Keys` (keys.dfy): key suffixing, the dot-free suffix, the role tag, and the protocols each role runs.
- `OverlapGuard` (overlap_guard.dfy): the single-flight guard shared by reauthorize and spend-update. Its tick and response steps are pure functions, and runs of ticks and responses are proved about.
- `Dispatch` (dispatch.dfy): what the spend-update and reauthorize handlers emit for a decoded body.
- `Registration` (registration.dfy): the transitions of the pending-registration set `uninitializedAccounts`.
- `Banker` (banker.dfy): class `LocalBanker`, with the source's fields and one method per operation. Each method is specified by the functions above.

Behaviour of the code that the model keeps as written, although a reader might expect otherwise:

- The reauthorize handler passes each record's `name` to `accumulateBalance` and `setRate` unchanged. The suffix is not applied (local_banker.cc:320, :331, :335). Only the debug-only telemetry lookup at :325 appends it.
- The spend-update handler fetches the account named in the response exactly as given (local_banker.cc:251, :256). It does not strip the replica suffix.
- `setRate` sends the banker's own `spendRate`, not the rate from the record (local_banker.cc:381).
- `addAccount` called twice for a key the store lacks posts two registrations. The pending set still holds one entry (local_banker.cc:113-114, :163).
- A spend-update status counts as out of sync unless it is exactly `"no need"` or `"success"` (local_banker.cc:253).

## Model

| member | source | states |
|---|---|---|
| Keys.FullKey | rtbkit/core/banker/local_banker.cc:98-101 | the local key is the caller's key, then ':', then the account suffix |
| Keys.FullKeyInjective | rtbkit/core/banker/local_banker.cc:100 | for a fixed suffix, distinct caller keys map to distinct local keys |
| Keys.NoDot | rtbkit/core/banker/local_banker.cc:32 | same length; every '.' becomes '_' and every other character is kept |
| Keys.NoDotProperties | rtbkit/core/banker/local_banker.cc:23-32 | no '.' is left; a dot-free suffix is unchanged; applying it twice changes nothing more |
| Keys.AccountType | rtbkit/core/banker/local_banker.cc:154-161 | the registration's accountType is "Router" exactly for the router role and "PostAuction" exactly for the post-auction role |
| Keys.PeriodicProtocols | rtbkit/core/banker/local_banker.cc:63-69 | every role sweeps registrations; only routers reauthorize; only post-auction bankers send spend updates (a standalone table: the class's Reauthorize and SpendUpdate methods, like the source's, do not check the role themselves) |
| OverlapGuard.Tick | rtbkit/core/banker/local_banker.cc:209-219 | after any tick the flag is set; an idle tick always issues; an issuing tick resets the counter; the counter bound 0..3 is kept |
| OverlapGuard.Respond | rtbkit/core/banker/local_banker.cc:229 | the response handler clears the flag and leaves the skip counter as it is |
| OverlapGuard.BusyTick | rtbkit/core/banker/local_banker.cc:276-286 | a busy tick issues exactly when the counter was already 3; otherwise it only increments the counter |
| OverlapGuard.RunKeepsBound | rtbkit/core/banker/local_banker.cc:209-219 | under any interleaving of ticks and responses, the skip counter stays within 0..3 |
| OverlapGuard.BusyTicks | rtbkit/core/banker/local_banker.cc:276-286 | with a request outstanding and no response, n ticks issue (k+n)/4 forced requests and leave the counter at (k+n) mod 4 |
| OverlapGuard.IdleTicks | rtbkit/core/banker/local_banker.cc:209-219 | from an idle guard, n ticks issue 1 + (n-1)/4 requests |
| OverlapGuard.FourthBusyTickForces | rtbkit/core/banker/local_banker.cc:209-219 | from the constructor's state: tick 1 issues; ticks 2-4 are skipped (counter 3); tick 5, the 4th busy one, issues and resets the counter |
| OverlapGuard.NoStarvation | rtbkit/core/banker/local_banker.cc:279-283 | from any bounded guard state, any 4 consecutive ticks issue at least one request |
| OverlapGuard.BoundedBacklog | rtbkit/core/banker/local_banker.cc:212-215 | with no response, n ticks issue at most 1 + n/4 requests |
| Dispatch.OutOfSync | rtbkit/core/banker/local_banker.cc:253 | a status is in sync exactly when it is "no need" or "success"; anything else is out of sync |
| Dispatch.Fetches | rtbkit/core/banker/local_banker.cc:250-258 | the spend-update loop emits only account fetches, at most one per entry; which accounts it fetches is stated by FetchedIff and FetchedOnce |
| Dispatch.SpendUpdateEffects | rtbkit/core/banker/local_banker.cc:234-249 | a non-200 status or a parse error emits nothing |
| Dispatch.FetchedIff | rtbkit/core/banker/local_banker.cc:250-258 | an account is fetched iff some entry names it with a status other than "no need" and "success" |
| Dispatch.FetchedOnce | rtbkit/core/banker/local_banker.cc:250-258 | with distinct entry names (a JSON object), each out-of-sync account is fetched exactly once and every other account never |
| Dispatch.DesyncScenario | rtbkit/core/banker/local_banker.cc:253-256 | one "desync" entry gives exactly one fetch of that name as reported; "no need" and "success" give none |
| Dispatch.ReauthorizeEffects | rtbkit/core/banker/local_banker.cc:301-317 | a non-200 status or a parse error emits nothing, so the store is untouched |
| Dispatch.RecordEffects | rtbkit/core/banker/local_banker.cc:320-336 | one record first accumulates its balance, then adds a setRate exactly when its rate exceeds the spend rate (two effects, otherwise one) |
| Dispatch.RecordsEffects | rtbkit/core/banker/local_banker.cc:319-337 | the reauthorize loop emits between one and two effects per record; their content and order are stated by ReauthorizeAccumulates and ReauthorizeSetsRates |
| Dispatch.RecordDispatch | rtbkit/core/banker/local_banker.cc:331-336 | one record gives one accumulateBalance with its balance, then a setRate only if its rate exceeds the spend rate |
| Dispatch.ReauthorizeAccumulates | rtbkit/core/banker/local_banker.cc:319-331 | the store calls of a parsed 200 response are exactly one accumulateBalance per record, in record order |
| Dispatch.ReauthorizeSetsRates | rtbkit/core/banker/local_banker.cc:333-336 | the requests of a parsed 200 response are exactly one setRate per record whose rate exceeds the spend rate, in record order |
| Dispatch.RateRequestedIff | rtbkit/core/banker/local_banker.cc:333-336 | setRate is requested for a name iff one of its records has a rate strictly above the spend rate |
| Registration.RegisterRequest | rtbkit/core/banker/local_banker.cc:151-163 | the registration is a POST to /accounts naming the key, with accountType "Router" exactly for a router and "PostAuction" exactly for a post-auction banker |
| Registration.AfterAdd | rtbkit/core/banker/local_banker.cc:107-115 | after addAccountImpl, the key is pending iff the store lacks it; no other key changes |
| Registration.AddRequests | rtbkit/core/banker/local_banker.cc:112-163 | addAccountImpl posts nothing for a stored key, and exactly one /accounts registration with the role's accountType otherwise |
| Registration.AfterResponse | rtbkit/core/banker/local_banker.cc:130-148 | a 200 removes the key whether or not the store accepted the body; any other status leaves the set unchanged |
| Registration.AfterSweep | rtbkit/core/banker/local_banker.cc:52-60 | after a sweep, a key is pending iff it was pending before and the store lacks it |
| Registration.Registrations | rtbkit/core/banker/local_banker.cc:58-59 | the sweep's registrations are one POST per key it leaves pending, and every registration in it is for such a key |
| Registration.AddIdempotent | rtbkit/core/banker/local_banker.cc:113-114 | two addAccountImpl calls for one key leave the same pending set as one call |
| Registration.AcknowledgedNotRetried | rtbkit/core/banker/local_banker.cc:140-146 | after a 200 for a key, the next sweep neither keeps it pending nor re-posts it |
| Registration.FailedIsRetried | rtbkit/core/banker/local_banker.cc:130-137 | after a failed registration, the next sweep keeps the key pending and posts it again while the store lacks it |
| Registration.Replay | rtbkit/core/banker/local_banker.cc:52-60 | a run of sweeps and registration responses (no addAccount) only ever shrinks the pending set |
| Registration.Reposted | rtbkit/core/banker/local_banker.cc:58-59 | the sweeps of such a run post registrations only for keys pending at its start; which ones is stated by the two lemmas below |
| Registration.NotPendingNeverReposted | rtbkit/core/banker/local_banker.cc:52-60 | a key not pending stays out of the set and is never posted by any sweep until addAccount asks for it again |
| Registration.AcknowledgedNeverReposted | rtbkit/core/banker/local_banker.cc:140-146 | after a 200 for a key, no sweep of a later run without addAccount re-posts it or keeps it pending (a later addAccount can re-add it when the store rejected the body) |
| Registration.RetriedUntilAcknowledged | rtbkit/core/banker/local_banker.cc:52-60 | a pending key that gets no 200 and that the store lacks at every sweep stays pending, and every run containing a sweep posts it again |
| Registration.SweepConverges | rtbkit/core/banker/local_banker.cc:52-60 | once the store holds every pending key, a sweep empties the set and posts nothing |
| Banker.LocalBanker.constructor | rtbkit/core/banker/local_banker.cc:18-33 | both guards start idle with counter 0; spend rate 100000; the dot-free suffix is computed; nothing pending |
| Banker.LocalBanker.SetSpendRate | rtbkit/core/banker/local_banker.cc:72-77 | the spend rate becomes the new one and is passed to the store; nothing else changes |
| Banker.LocalBanker.AddAccount | rtbkit/core/banker/local_banker.cc:97-102 | addAccountImpl applied to the suffixed key |
| Banker.LocalBanker.AddAccountImpl | rtbkit/core/banker/local_banker.cc:104-164 | the pending set becomes AfterAdd and the log grows by AddRequests; guards and spend rate are unchanged |
| Banker.LocalBanker.OnRegistrationResponse | rtbkit/core/banker/local_banker.cc:120-150 | on 200 the body goes to addFromJsonString and the key leaves the pending set; otherwise nothing changes |
| Banker.LocalBanker.SweepPending | rtbkit/core/banker/local_banker.cc:51-61 | swaps out the pending set and re-runs addAccountImpl on every taken key; the pending set becomes AfterSweep; the new log entries are, as a multiset, exactly one registration per key left pending |
| Banker.LocalBanker.ReplaceAccount | rtbkit/core/banker/local_banker.cc:166-204 | issues one GET /accounts/<key> and changes nothing else |
| Banker.LocalBanker.OnReplaceResponse | rtbkit/core/banker/local_banker.cc:172-200 | on 200 the body goes to replaceFromJsonString; otherwise nothing happens |
| Banker.LocalBanker.SetRate | rtbkit/core/banker/local_banker.cc:353-383 | issues one rate request carrying the banker's spend rate |
| Banker.LocalBanker.SpendUpdate | rtbkit/core/banker/local_banker.cc:206-271 | the guard moves as Tick says; exactly when Tick issues, one /spendupdate post covering the store's accounts is logged |
| Banker.LocalBanker.OnSpendUpdateResponse | rtbkit/core/banker/local_banker.cc:223-261 | clears the flag on every outcome; the log grows by SpendUpdateEffects, one fetch per out-of-sync entry |
| Banker.LocalBanker.DispatchStatuses | rtbkit/core/banker/local_banker.cc:250-258 | the loop over the entries grows the log by exactly Fetches of them (one replaceAccount fetch per out-of-sync entry, in order) |
| Banker.LocalBanker.Reauthorize | rtbkit/core/banker/local_banker.cc:273-351 | the guard moves as Tick says; exactly when Tick issues, one /reauthorize/1 post of the store's keys is logged |
| Banker.LocalBanker.OnReauthorizeResponse | rtbkit/core/banker/local_banker.cc:290-340 | clears the flag on every outcome; the log grows by ReauthorizeEffects (accumulateBalance per record, setRate when the rate exceeds spendRate) |
| Banker.LocalBanker.DispatchRecords | rtbkit/core/banker/local_banker.cc:319-337 | the loop over the records grows the log by exactly RecordsEffects of them, in record order |
| Banker.LocalBanker.DispatchRecord | rtbkit/core/banker/local_banker.cc:320-336 | the log grows by exactly RecordEffects of that record; guards, pending set and spend rate are unchanged |
| Banker.LocalBanker.Bid | rtbkit/core/banker/local_banker.cc:385-399 | returns the store's decision for the suffixed key; the only effect is that one store call, with no ledger request and no guard or pending change |
| Banker.LocalBanker.Win | rtbkit/core/banker/local_banker.cc:401-415 | returns the store's decision for the suffixed key; the only effect is that one store call, with no ledger request and no guard or pending change |

## Left out

- The account store (`accounts.bid`, `win`, `accumulateBalance`, `exists`, `addFromJsonString`, `replaceFromJsonString`, `getBalance`, `setSpendRate`) is defined outside local_banker.cc and is not part of this model. Its key set and decisions are parameters; its mutations are logged calls.
- Banker.LocalBanker.SpendUpdate: the request records which accounts are reported (`PostSpendUpdate(accounts)`). It does not record each account's JSON snapshot, because `toJson` belongs to the store.
- The HTTP client (`init`'s client construction, `post`/`get`, callback objects) is foreign I/O. A request is only an entry in the log, and a response is a method call with its status and decoded body.
- JSON encoding and decoding is left out. Bodies arrive already decoded, as `Parsed(value)` or `ParseError`. The decoded records assume the fields `name`, `balance` and `rate` are present. A `jsoncpp` conversion exception thrown inside the loop is not modelled.
- Telemetry, logging and the debug flag are left out: `recordHit`, `recordLevel`, `recordCount`, `cout`, `setDebug`, latency in floating-point milliseconds, and the debug-only balance lookup. None of them changes bookkeeping state.
- The response handler of `setRate` only records telemetry, so it is not modelled.
- `start`, `shutdown` and the scheduling periods (1.0 s and 0.5 s) are scheduler plumbing. Only the choice of protocols per role is modelled (`Keys.PeriodicProtocols`).
- The mutex, concurrent callers and lambda capture lifetimes are left out. Each step is one atomic method, and a sweep sees one store snapshot throughout.
- The skip counters' C++ integer width is not modelled. The counters are proved to stay within 0..3, so they cannot overflow.
- `Amount` is an unbounded integer. The 64-bit bound of `MicroUSD` amounts and `asInt`'s 32-bit range are not modelled.
