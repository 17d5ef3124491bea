# Offline-first field cache of the tradelead UI, in Dafny

This project models the data core of the tradelead web client. Its centre is a
reactive field store (`OfflineObservable`). Many observers watch named or
parameterised fields of a trader, and one state per distinct field is shared
between them with an observer count. Each observed list of fields gets one
merged snapshot of data, loading flag and combined error. A field is kept fresh
in one of two ways: a TTL timer that refetches it (pull mode) or a push
subscription (push mode).

Underneath the store is a durable stale-while-revalidate cache
(`OfflineStorage`). It returns the stored value at once and starts a refresh
when the entry is missing or older than its TTL. The refreshed value is
persisted as JSON, stamped with the time.

Above the store sit these pieces:

- the trader's field routing (`Trader`): the field key, the TTL table, and which backend owns which key;
- the cached trader lookup (`TraderService.getTrader`);
- the pure data shaping of three containers:
  - the leaderboard's id union and user join;
  - the exchange-key labels and mutation variables;
  - the score chart's query variables.

Modules, one per file:

| file | module | models |
|---|---|---|
| `values.dfy` | `Values` | JavaScript values, property reads that throw on `undefined`/`null`, and the JSON round trip |
| `offline_storage.dfy` | `DurableCache` | the cache, as a class over a key/value medium and a clock |
| `offline_observable.dfy` | `OfflineObservable` | the field store, as a class with its states and runtime bookkeeping |
| `trader.dfy` | `TraderFields` | `Trader`: field keys, TTLs, fetch routing, write pass-throughs |
| `trader_service.dfy` | `TraderRecords` | `TraderService.getTrader` |
| `leaderboard.dfy` | `Leaderboard` | `getUserIDs` and `reduceTopTraders` |
| `exchange_keys.dfy` | `ExchangeKeys` | `exchangesMap`, `keys`, and the add/delete key variables |
| `score_chart.dfy` | `ScoreChart` | the score-history query variables |

How the store is modelled:

- **State.** The class `FieldStore` holds the states (`store`, keyed by the
  field descriptor) and a `Runtime` value. The runtime holds what the
  JavaScript runtime keeps for the store:
  - the running TTL timers;
  - the open push subscriptions;
  - the push callbacks;
  - the subscriptions already disposed;
  - the promises the store awaits.
- **Promises.** Every `await` is a pending operation. A later method completes it:
  - `ResumeFetch` and `RejectFetch`, after the cache's `fetch`;
  - `CompleteRefresh`, when a refresh settles;
  - `CompleteSeed`, when the offline seed of a push field arrives;
  - `Push`, for a push callback;
  - `Tick`, for a timer firing.

  Every run of the source is some order of those calls. Not every order is a
  run of the source: the model also allows, for instance, `RejectFetch` on an
  entry it never makes corrupt.
- **Invariant.** `Consistent` says that:
  - every state has at least one observer;
  - each state owns exactly one timer or one subscription, and each timer or subscription belongs to one state;
  - identifiers are fresh.

  Every method keeps it.
- **Pure transitions.** The bookkeeping of registering and disposing is the
  pair of functions `Watch` and `Release`. The methods do what these functions
  say.

Behaviour of the source worth noting, which the model keeps:

- **Calling one dispose function twice.** It decrements the count twice: the
  source's dispose closure has no guard. `Dispose(f)` captures only the field,
  as the closure does.
- **An error is never cleared by a refresh.** A successful refresh keeps an
  earlier error, so a snapshot keeps reporting it. A later failed refresh
  replaces it with the new error (`Settled`). Only a push whose payload has an
  `error` property can clear it: `null` clears it (`Pushed`).
- **A corrupt cache entry.** Parsing it fails, which makes the cache's `fetch` reject, and the store
  records that as the field's error (`RejectFetch`). It does not degrade to "no
  cached value".

## Model

| member | source | states |
|---|---|---|
| Values.Member | src/core/OfflineObservable.js:95 | reading a property fails exactly on `undefined`/`null`, and otherwise yields the property or `undefined` |
| Values.Normalize | src/core/OfflineStorage.js:11 | the JSON round trip maps `undefined` to `undefined` and nothing else to it |
| Values.NormalizeIsJson | src/core/OfflineStorage.js:11 | after the round trip no `undefined` is left below the top |
| Values.NormalizeKeepsJson | src/core/OfflineStorage.js:11 | a value JSON represents exactly survives the round trip unchanged |
| Values.NormalizeIdempotent | src/core/OfflineStorage.js:4 | persisting a value read back from the medium stores it unchanged |
| DurableCache.Read | src/core/OfflineStorage.js:4 | a missing entry reads as `{}`, with data and time both undefined; a present one yields its data and time |
| DurableCache.IsStale | src/core/OfflineStorage.js:8 | a missing entry is stale; with no TTL only undefined data is stale; with a TTL, defined data is stale once more than the TTL has passed since it was written |
| DurableCache.Write | src/core/OfflineStorage.js:11 | a write adds or replaces exactly one entry, holding the JSON form of the value and the current time; all other entries stay |
| DurableCache.OfflineStorage.Get | src/core/OfflineStorage.test.js:11-17 | an entry has a time exactly when it was written; a written entry gives back its stored data and time, and an unwritten one has undefined data |
| DurableCache.OfflineStorage.Update | src/core/OfflineStorage.test.js:11-17 | `update` persists the value with the current time, and `get` then returns it in JSON form with that time |
| DurableCache.OfflineStorage.Fetch | src/core/OfflineStorage.js:3-17 | returns the stored data even when expired, and starts a refresh for that key exactly when the entry is stale |
| DurableCache.OfflineStorage.Settle | src/core/OfflineStorage.js:9-13 | a refresh result is persisted with the time of settling and passed on; a rejection is passed on and writes nothing |
| DurableCache.ReadAfterWrite | src/core/OfflineStorage.test.js:26-33 | reading right after writing a key gives the written value and time, and other keys read as before |
| DurableCache.ReadAfterWriteJson | src/core/OfflineStorage.test.js:11-17 | a JSON-representable value reads back identical |
| DurableCache.FreshAfterWrite | src/core/OfflineStorage.js:8 | a defined value just written is not stale, for any non-negative or undefined TTL |
| DurableCache.StaleAfterTtl | src/core/OfflineStorage.js:8 | an entry is stale once the clock passes its time plus the TTL, and its data is still what is served |
| DurableCache.MissingIsStale | src/core/OfflineStorage.test.js:20-23 | a missing entry is always refetched, and it serves undefined |
| OfflineObservable.SnapshotDataKeys | src/core/OfflineObservable.js:19-25 | the snapshot has a data key exactly when some observed descriptor with that key has a state |
| OfflineObservable.SnapshotDataValue | src/core/OfflineObservable.js:19-25 | under a key, the snapshot holds the data of the last observed descriptor with that key that has a state |
| OfflineObservable.SnapshotLoading | src/core/OfflineObservable.js:27-29 | the snapshot is loading exactly when some observed state is loading |
| OfflineObservable.SnapshotOf | src/core/OfflineObservable.js:10-41 | `getData` (also `FieldStore.GetData`): the snapshot has an error exactly when some observed state has one, and it then combines all of them in descriptor order |
| OfflineObservable.Messages | src/core/OfflineObservable.js:37 | one message per combined error, in order |
| OfflineObservable.CombinedError.Message | src/core/OfflineObservable.js:37 | the combined message starts with the first error's message, and is just that message for a single error |
| Values.Join | src/core/OfflineObservable.js:37 | joining starts with the first part and ends with the separator and the last part |
| Values.JoinAppend | src/core/OfflineObservable.js:37 | joining one more part appends the separator and that part, so the parts appear in order |
| OfflineObservable.MessageAppend | src/core/OfflineObservable.js:37 | combining one more error appends "; " and its message, so the combined message lists all messages in descriptor order |
| OfflineObservable.CombinedMessageExample | src/core/OfflineObservable.test.js:99-113 | failing `bio` and `website` give the single message "test error; test error 2" |
| OfflineObservable.Resumed | src/core/OfflineObservable.js:156-172 | after the cache's answer, the data is the cached value and the state is loading exactly while a refresh is awaited |
| OfflineObservable.Settled | src/core/OfflineObservable.js:159-172 | a refresh result replaces the data; a failure sets the error and keeps the stale data; loading ends either way |
| OfflineObservable.Seeded | src/core/OfflineObservable.js:113-119 | the offline seed sets the data and loading only while the data is still undefined |
| OfflineObservable.Pushed | src/core/OfflineObservable.js:122-142 | the first payload clears loading, and only the parts a payload defines overwrite the state |
| OfflineObservable.EmptyPayloadKeepsState | src/core/OfflineObservable.js:122-142 | after the first payload, a payload that defines nothing changes nothing |
| OfflineObservable.TimedUnique | src/core/OfflineObservable.js:83-87 | the running timers are determined by the states that started them |
| OfflineObservable.SubscribedUnique | src/core/OfflineObservable.js:81-82 | the open subscriptions are determined by the states that started them |
| OfflineObservable.Watch | src/core/OfflineObservable.js:74-88 | a registration adds one observer and leaves other states alone; an existing state starts nothing new, and a new, empty state starts one timer (pull) or one subscription with its seed (push), and nothing else in the runtime |
| OfflineObservable.WatchConsistent | src/core/OfflineObservable.js:74-88 | registering keeps the store's invariant |
| OfflineObservable.Release | src/core/OfflineObservable.js:94-106 | a dispose removes one observer; the last one clears the state's timer, disposes its subscription and deletes the state; nothing else changes |
| OfflineObservable.ReleaseConsistent | src/core/OfflineObservable.js:94-106 | disposing keeps the store's invariant |
| OfflineObservable.WatchThenRelease | src/core/OfflineObservable.js:74-106 | registering and then disposing a descriptor restores the states, timers and subscriptions |
| OfflineObservable.FieldStore.constructor | src/core/OfflineObservable.js:43-54 | a new store has no states, timers, subscriptions or pending work |
| OfflineObservable.FieldStore.FetchField | src/core/OfflineObservable.js:145-158 | pull mode asks the cache for the field and awaits its answer, with a refresh exactly when the entry is stale; push mode does nothing |
| OfflineObservable.FieldStore.RegisterFieldWatch | src/core/OfflineObservable.js:74-92 | the bookkeeping of `Watch`, then a fetch on every pull-mode registration |
| OfflineObservable.FieldStore.Dispose | src/core/OfflineObservable.js:94-106 | `Release` on an existing state; with no state it throws the TypeError of reading `observerCount` of undefined and changes nothing |
| OfflineObservable.FieldStore.Observe | src/core/OfflineObservable.js:56-66 | each listed descriptor gains one observer per occurrence; new states start empty; the first snapshot is that of the listed fields |
| OfflineObservable.FieldStore.Unobserve | src/core/OfflineObservable.js:68-71 | nothing throws exactly when each descriptor has at least as many observers as occurrences; the counts then drop by those occurrences |
| OfflineObservable.FieldStore.ObserveThenUnobserve | src/core/OfflineObservable.test.js:161-180 | observing and disposing at once leaves states, timers and subscriptions as they were |
| OfflineObservable.FieldStore.Tick | src/core/OfflineObservable.js:85-87 | a running timer refetches its own field; a cleared one does nothing |
| OfflineObservable.FieldStore.ResumeFetch | src/core/OfflineObservable.js:156-163 | an existing state takes the cached data and awaits a started refresh; a disposed one is untouched, and its refresh goes on unawaited |
| OfflineObservable.FieldStore.RejectFetch | src/core/OfflineObservable.test.js:75-85 | a rejected cache read sets the field's error and ends loading, if the state still exists |
| OfflineObservable.FieldStore.Lookup | src/core/OfflineObservable.js:150-154 | the cache answers with the stored data of this field and a refresh exactly when its entry is stale for the field's TTL |
| OfflineObservable.FieldStore.CompleteRefresh | src/core/OfflineObservable.js:159-172 | the refresh settles with what the store's `fetch` gives for the field; the cache persists a result anyway; the store writes it (or the error) only if it awaited it and the state still exists |
| OfflineObservable.FieldStore.CompleteSeed | src/core/OfflineObservable.js:113-119 | the offline seed is applied to an existing state as `Seeded` says; a disposed state is untouched |
| OfflineObservable.FieldStore.Push | src/core/OfflineObservable.js:122-142 | a push to a disposed state does nothing; otherwise the payload is applied and defined data persisted to the cache |
| TraderFields.Ttl | src/core/Trader.js:5-12 | bio and website live 2 hours, exchangeKeys 30 s, score, rank and scores 60 s; any other key has no TTL |
| TraderFields.FieldKey | src/core/Trader.js:34-36 | a plain descriptor is its own key; a structured one has its `key` |
| TraderFields.Owner | src/core/Trader.js:45-53 | `scores`, `score` and `rank` belong to the trader-score service, `bio`, `website` and `exchangeKeys` to the account service, and no other key to any backend |
| TraderFields.FetchRequest | src/core/Trader.js:42-56 | a score key asks the trader-score service and an account key the account service, for this trader and just this field; any other key asks nobody |
| TraderFields.Fetch | src/core/Trader.js:42-56 | per key: an unowned key answers null; an owned one answers the owner's rejection unchanged, the key's property of an object response, and a TypeError for an undefined or null response |
| TraderFields.UnownedFetchIsNull | src/core/Trader.js:55 | an unowned key answers null whatever the backends would say |
| TraderFields.OwnedFetchReadsKey | src/core/Trader.js:45-53 | an owned key answers its own property of the owner's object response |
| TraderFields.OwnedFetchPassesRejection | src/core/Trader.js:45-53 | an owner's rejection is passed on unchanged |
| TraderFields.TtlIffOwned | src/core/Trader.js:5-56 | a field has a TTL exactly when some backend owns it |
| TraderFields.FreshWithinTtl | src/core/Trader.js:38-40 | a defined answer stored for a field is not refetched until its TTL has passed |
| TraderFields.NewTraderStore | src/core/Trader.js:25-29 | the trader's store is in pull mode, keyed by the field key, refreshed on the field TTL, and its `fetch` is the trader's `Fetch` |
| TraderFields.UnownedRefreshIsNull | src/core/Trader.js:25-29 | in the trader's store, a refresh of an unowned field sets its data to null, keeps its error and ends loading |
| TraderFields.Update | src/core/Trader.js:81-83 | (no contract) `update` forwards its argument to the account service's `updateUser` |
| TraderFields.AddExchangeKey | src/core/Trader.js:85-87 | (no contract) `addExchangeKey` forwards its argument to the account service |
| TraderFields.DeleteExchangeKey | src/core/Trader.js:89-91 | (no contract) `deleteExchangeKey` forwards its argument to the account service |
| TraderRecords.CacheKey | src/core/TraderService.js:10 | the cache key of a trader is `trader-` followed by the id |
| TraderRecords.CacheKeyInjective | src/core/TraderService.js:10 | different trader ids use different cache entries |
| TraderRecords.GetTrader | src/core/TraderService.js:7-27 | a fresh record is returned as cached; a stale one is refetched, and a result is persisted, stamped with the time it settled, and returned, while a failure falls back to the cached record |
| TraderRecords.GetTraderFrom | src/core/TraderService.js:7-27 | running the cache object's `fetch`, the clock moving on to the settling time, and the refresh gives what `GetTrader` says |
| TraderRecords.GetTraderResolves | src/core/TraderService.js:19-26 | a failed refetch never makes `getTrader` reject: it resolves to the refetched or the cached record |
| TraderRecords.GetTraderTwice | src/core/TraderService.js:9-17 | after a successful refetch, asking again within a day of its settling returns that record without consulting the source |
| TraderRecords.GetTraderSeparate | src/core/TraderService.js:10 | `getTrader` for one id leaves other traders' entries alone |
| Leaderboard.Union | src/components/Leaderboard/LeaderboardContainer.js:65 | `union` keeps exactly the listed values, each once |
| Leaderboard.UnionOrder | src/components/Leaderboard/LeaderboardContainer.js:65 | `union` orders values by first occurrence |
| Leaderboard.GetUserIDs | src/components/Leaderboard/LeaderboardContainer.js:55-66 | the ids of all three lists, each once; absent data or lists contribute nothing |
| Leaderboard.UserIdsOrder | src/components/Leaderboard/LeaderboardContainer.js:55-66 | ids come in first-occurrence order across all-time, then weekly, then daily |
| Leaderboard.UsersById | src/components/Leaderboard/LeaderboardContainer.js:69-72 | the user table has an entry exactly for each listed user id |
| Leaderboard.LastRecordWins | src/components/Leaderboard/LeaderboardContainer.js:69-72 | for a repeated id, the last record is kept |
| Leaderboard.FirstScore | src/components/Leaderboard/LeaderboardContainer.js:78 | the first entry's `score` of a score history; undefined for a missing or empty history, without throwing |
| Leaderboard.Row | src/components/Leaderboard/LeaderboardContainer.js:75-82 | a row holds the trader's user record, if any, with `rank` and `score` set from the trader |
| Leaderboard.ReduceTopTraders | src/components/Leaderboard/LeaderboardContainer.js:74-83 | one row per trader, in order, with the trader's rank and the first score of its history |
| Leaderboard.JoinedRow | src/components/Leaderboard/LeaderboardContainer.js:74-83 | apart from rank and score, a row holds exactly the properties of the last user record with the trader's id |
| Leaderboard.UnknownTraderRow | src/components/Leaderboard/LeaderboardContainer.js:75 | a trader without a user record gets only rank and score |
| ExchangeKeys.Labels | src/components/AccountSettings/ExchangeKeys/ExchangeKeysContainer.js:54-57 | the label table has an entry exactly for each listed exchange id |
| ExchangeKeys.LastLabelWins | src/components/AccountSettings/ExchangeKeys/ExchangeKeysContainer.js:54-57 | for a repeated exchange id, the later label wins |
| ExchangeKeys.Labelled | src/components/AccountSettings/ExchangeKeys/ExchangeKeysContainer.js:60-61 | a labelled key keeps every property of the key and adds the label of its exchange, undefined for an unknown exchange |
| ExchangeKeys.ExchangesMap | src/components/AccountSettings/ExchangeKeys/ExchangeKeysContainer.js:54 | the table is absent exactly when the exchanges are |
| ExchangeKeys.Keys | src/components/AccountSettings/ExchangeKeys/ExchangeKeysContainer.js:59-62 | absent keys stay absent; keys without a table throw a TypeError; otherwise each key is labelled, with length and order kept |
| ExchangeKeys.LabelledKey | src/components/AccountSettings/ExchangeKeys/ExchangeKeysContainer.js:59-62 | a labelled key keeps all its properties, and its label is that of the last exchange with its id |
| ExchangeKeys.AddKeyVariables | src/components/AccountSettings/ExchangeKeys/ExchangeKeysContainer.js:79 | the add-key input holds every input property and the user's id unless the input has its own |
| ExchangeKeys.DeleteKeyVariables | src/components/AccountSettings/ExchangeKeys/ExchangeKeysContainer.js:80 | the delete variables hold every input property and the user's `id` unless the input has its own |
| ScoreChart.ScoreVariables | src/components/ScoreChart/ScoreChartContainer.js:25-38 | limit 499 and the user's id always; 0 days means weekly groups with no window, more than 7 means daily groups, and any non-zero count gives a window of that many days |
| ScoreChart.DaysRoundTrip | src/components/ScoreChart/ScoreChartContainer.js:31-38 | the selected days can be read back from the variables, so distinct selections send distinct variables |
| ScoreChart.DefaultVariables | src/components/ScoreChart/ScoreChartContainer.js:24 | the chart first asks for 30 days in daily groups |

## Left out

- A failed write to the medium is not modelled: `Settle` always persists a result. In the source, a `JSON.stringify` or `localStorage.setItem` that throws turns a successful backend answer into a rejection. The store would then record an error, and `getTrader` would fall back to the cached record.
- TraderRecords.GetTraderResolves: the medium holds only well-formed entries, so a corrupt `trader-<id>` entry, or a `localStorage.getItem` that throws, is not modelled. In the source either one makes the cache's `fetch` reject before `getTrader` reaches its `try` (src/core/TraderService.js:9-13, src/core/OfflineStorage.js:4), so `getTrader` rejects too.
- Reactivity: the MobX observable store, the `reaction` that resends a snapshot on every change, and the memoisation of `getData` are not modelled. The snapshot is a function of the states, so a resend is `GetData` applied to the new state.
- FieldStore.Observe: the first snapshot is taken when `observe` returns. The source sends it on the next tick, and the model does not capture work that could slip in between.
- `object-hash`: two descriptors share a state exactly when they are equal values. The hash library is not part of this model.
- `src/core/OfflineFetcher.js` is not part of this model. Its `get` and `update` are taken to read and write the same medium that `OfflineStorage.fetch` uses.
- The offline seed stores what `get` resolves to, and the model takes that to be the bare stored data, as the store's own tests stub it (`src/core/OfflineObservable.test.js:307-308`). `get` itself is modelled after `src/core/OfflineStorage.test.js:11-17`, where it resolves to the `{data, time}` record; with that `get`, the source would store the whole record as the field's data.
- Timer periods: a timer fires when `Tick` is called. The period handed to `setInterval`, including an undefined TTL, is not modelled.
- Backends, the account service and the GraphQL client are parameters: the answer function of `Fetch`, the `source` of `GetTrader`, and the store's `fetch`, indexed by the operation that called it so that answers may change over time.
- The push store's `subscribe` is not a parameter: the payloads it delivers are the arguments of `Push`.
- `Trader.upload` is left out: it builds a multipart form, posts it with axios, and reports progress as a rounded floating-point percentage.
- `Trader.update`, `addExchangeKey` and `deleteExchangeKey` are modelled as `Update`, `AddExchangeKey` and `DeleteExchangeKey`. Each forwards its argument to the account service and returns the answer unchanged, which leaves nothing further to state, so they carry no contract.
- Numbers are integers. NaN arises only from an undefined TTL, where it is encoded as "never stale by age".
- Plain JavaScript objects used as dictionaries are maps. Inherited properties such as `constructor`, which a lookup by an arbitrary id would find, are not modelled.
- An absent list or exchange table is one case: `undefined` and `null` are not told apart.
- Rendering, React state and hooks, query polling, `refetchQueries` and the formatting of mutation errors are left out.
- Durations are whole numbers of days.
- A `getData` field that throws inside `fieldKey` is not modelled: field keys are total functions here.
