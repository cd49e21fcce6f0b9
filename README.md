# bridgeETH, modelled in Dafny

`src/bridge.js` exports one asynchronous function, `bridgeETH(originChainId,
destinationChainId, amount, privateKeys, rpcUrl, explorerUrl)`, which bridges
native ETH for a batch of wallets through the Relay SDK. This project models
the logic that surrounds the SDK calls:

- **Network selection** (`network.dfy`, module `Network`): the relay client
  is configured once, before any key is processed, with the testnet API when
  the origin chain is 11155111 and with the mainnet API otherwise, and with the
  source tag `"my-app"`.
- **Progress flattening** (`progress.dfy`, module `Progress`): a progress
  snapshot is a nested, partly optional structure (steps, items, hash records,
  `txHash`). `TxHashes` follows the callback's `flatMap`/`flatMap`/`map`/`filter`
  pipeline stage by stage. `StepListHashes` is an independent structural
  definition of the same list. `FlattenOrder` proves that the two agree.
- **Completion detection and the key loop** (`bridge.dfy`, module `Bridge`):
  the `onProgress` closure is the method `OnProgress`. Its captured `logged`
  flag is an in/out parameter. The `execute` call is the method `Execute`,
  which starts a fresh flag and feeds the snapshots in order. The `try`/`catch`
  body is `ProcessKey`, and the whole function is `BridgeEth`. The log sink is a
  `seq<LogEntry>` that these methods append to. Each method is proved against a
  specification function (`ProgressStep`, `Watch`, `WalletLog`, `BatchLog`).
- **Properties** (`properties.dfy`, module `BridgeProperties`) cover the
  following: at most one SUCCESS per key, and the hash it links to; the fixed
  INFO/DEBUG/SUCCESS/ERROR shape of each key's entries; failure isolation
  between keys; one INFO per key in input order; key redaction; and a `logged`
  flag that starts fresh for every key.
- `scenario.dfy` (module `BridgeScenario`) works one concrete two-key run
  through the specification.

The foreign calls are inputs. For each private key a `KeyAttempt` says what
happens:
- the wallet adapter throws (`WalletFails`), or the wallet is built;
- once the wallet is built, `getQuote` throws (`QuoteFails`) or returns a
  quote (`QuoteOk`);
- a returned quote comes with the snapshots that `execute` hands to
  `onProgress`, and with whether `execute` finally resolves (`Settled`) or
  throws (`ExecFails`).

`parseEther(amount.trim())` and `formatEther` are deterministic, so every key
sees the same result. The `amount` argument is therefore given as what they make
of it, an `Amount`: either `Unparsable(message)` (parsing throws) or
`Parsed(formatted)`, the text `formatEther` gives for the parsed amount.
Thrown errors carry their `error.message` as a string.

The INFO line puts `...` after the key prefix (`src/bridge.js:15`), the ERROR
line a colon (`src/bridge.js:54`). `LogEntry.keyPrefix` keeps only
`privateKey.slice(0, 6)`, which both lines show.

## Model

| member | source | states |
|---|---|---|
| Network.SelectNetwork | src/bridge.js:7-11 | the testnet API is chosen exactly when `originChainId` is 11155111, the mainnet API for every other id, and the source tag is "my-app" |
| Progress.Truthy | src/bridge.js:42 | the filter keeps only present, non-empty hashes |
| Progress.TxHashes | src/bridge.js:37-42 | the hash list is absent exactly when `steps` is missing, and every hash in it is non-empty; it is built stage by stage from `ItemsOf` (line 39), `RecordsOf` (line 40), `HashFields` (line 41) and `Truthy` (line 42) |
| Progress.FirstHash | src/bridge.js:47 | `txHashes[0]` is a non-empty hash |
| Progress.MapFilterIsRecordHashes | src/bridge.js:41-42 | `Truthy(HashFields(records))` equals `RecordHashes(records)`: mapping records to `tx?.txHash` and filtering truthy values is, record by record, dropping null records, missing hashes and empty hashes |
| Progress.RecordsOfIsItemListHashes | src/bridge.js:40-42 | `RecordHashes(RecordsOf(items))` equals `ItemListHashes(items)`: flattening items' `txHashes || []` keeps item order, and a missing `txHashes` contributes nothing |
| Progress.ItemsOfIsStepListHashes | src/bridge.js:39-42 | `ItemListHashes(ItemsOf(steps))` equals `StepListHashes(steps)`: flattening steps' `items || []` keeps step order, and a missing `items` contributes nothing |
| Progress.FlattenOrder | src/bridge.js:37-42 | a missing `steps` gives no list; otherwise the list is the concatenation, in step, item and record order, of the truthy hashes |
| Progress.NoHashedStep | src/bridge.js:38-42 | steps that carry no truthy hash flatten to an empty list |
| Progress.HashedStep | src/bridge.js:38-42 | a step that carries a truthy hash makes the flattened list non-empty |
| Progress.FirstHashedStepLeads | src/bridge.js:38-42 | the first element of the flattened list is the first hash of the first step that has one |
| Progress.SnapshotFirstHash | src/bridge.js:38-47 | `HasHash`, the line-44 test: a snapshot passes the `txHashes && txHashes.length > 0` test exactly when some step carries a truthy hash, and `txHashes[0]` is the first hash of the first such step |
| Bridge.KeyPrefix | src/bridge.js:15 | the logged prefix is a prefix of the key, of length 6, or the whole key when the key is shorter |
| Bridge.OnProgress | src/bridge.js:36-51 | with hashes present and `logged` false, exactly one SUCCESS entry for the explorer URL of the first hash is appended and `logged` becomes true; otherwise nothing is appended and `logged` is unchanged |
| Bridge.Execute | src/bridge.js:32-52 | starting from `logged = false`, handing the snapshots to `onProgress` in order appends exactly what the specification `Watch` gives |
| Bridge.ProcessKey | src/bridge.js:14-55 | one loop iteration appends INFO, then what the `try` block logs (`TryBlock`, lines 17-52, which also gives the message that reaches the `catch`), then ERROR with the key prefix and the message when any stage throws (`WalletLog`) |
| Bridge.BridgeEth | src/bridge.js:6-57 | exactly one client configuration, `SelectNetwork(originChainId)`, is created even for an empty key list; the log is every key's entries, in key order (`BatchLog`) |
| BridgeProperties.SilentAfterSuccess | src/bridge.js:44-50 | once `logged` is true, later snapshots log nothing and leave the flag set |
| BridgeProperties.WatchOutcome | src/bridge.js:32-50 | after any snapshots, `logged` is true exactly when one had a hash; with none there are no entries; otherwise the one entry is the SUCCESS for the first snapshot with a hash |
| BridgeProperties.FirstWithHashExists | src/bridge.js:44 | when some snapshot has a hash, there is a first such snapshot |
| BridgeProperties.SuccessAtMostOnce | src/bridge.js:44-49 | over any snapshots for one key, the log holds one SUCCESS entry when some snapshot has a hash and nothing otherwise |
| BridgeProperties.SuccessLinksFirstHash | src/bridge.js:44-48 | that SUCCESS entry's URL is the explorer prefix followed by the first hash of the first snapshot that has one |
| BridgeProperties.WalletLogCases | src/bridge.js:14-55 | when wallet build, parse or quote fails, a key logs INFO and one ERROR with its prefix; otherwise INFO, DEBUG, what `onProgress` logged, and ERROR with `execute`'s message when it throws |
| BridgeProperties.WalletLogShape | src/bridge.js:14-55 | a key logs INFO, ERROR when wallet build, parse or quote fails (no DEBUG, no SUCCESS); otherwise INFO, DEBUG, SUCCESS exactly when a snapshot had a hash, and ERROR last when `execute` throws |
| BridgeProperties.WalletSuccessEntry | src/bridge.js:30-48 | DEBUG is a key's second entry and its SUCCESS the third, with the formatted amount, the destination chain and the explorer URL of the first hash |
| BridgeProperties.WatchOnlySuccess | src/bridge.js:44-50 | `onProgress` logs nothing but SUCCESS entries |
| BridgeProperties.TryBlockEntries | src/bridge.js:17-52 | the `try` block itself logs only DEBUG and SUCCESS entries |
| BridgeProperties.WalletLogRedacted | src/bridge.js:15-54 | the key field of a key's INFO and ERROR entries is its `slice(0, 6)` prefix; DEBUG and SUCCESS entries carry no key field |
| BridgeProperties.BatchLogAppend | src/bridge.js:13-56 | the log of a batch is the log of its first part followed by the log of the rest |
| BridgeProperties.KeySegment | src/bridge.js:13-56 | whatever the other keys' modelled outcomes, each key's own entries appear whole, after every earlier key's and before every later key's |
| BridgeProperties.WalletInfo | src/bridge.js:15 | each key logs exactly one INFO entry, with its prefix |
| BridgeProperties.OneInfoPerKey | src/bridge.js:13-15 | the batch has exactly one INFO entry per key, in input order |
| BridgeProperties.BatchLogRedacted | src/bridge.js:15-54 | the key field of every INFO and ERROR entry of the batch is at most 6 characters long and is the prefix of one of the keys |
| BridgeProperties.OneSuccessPerSucceedingKey | src/bridge.js:32-50 | the batch logs one SUCCESS per key that got a quote and saw a hash, so one key's success never suppresses another's |
| BridgeScenario.TwoKeyRun | src/bridge.js:6-57 | origin 1 selects mainnet. Key 1 executes with hash "0xabc" and key 2's quote fails. The log is INFO, DEBUG, SUCCESS "https://x/0xabc" for key 1, then INFO, ERROR for key 2 |

## Left out

- The Relay SDK (`createClient`, `getQuote`, `execute`) is not part of this model. What its calls return or throw for each key is an input (`KeyAttempt`). The text of `MAINNET_RELAY_API`/`TESTNET_RELAY_API` belongs to the SDK and appears only as two symbols.
- `createAdaptedWallet` (from `./adapter`) is not part of this model. Whether it throws for a key is an input, so `rpcUrl`, which only reaches the adapter, is not a parameter.
- `ethers.utils.parseEther`, `String.prototype.trim` and `formatEther` are not part of this model. Only their combined result for the `amount` string is an input (`Amount`). Decimal fixed-point conversion is not modelled.
- The quote request's arguments (chain ids, the zero-address currency sentinels, `EXACT_INPUT`, the parsed amount, the wallet) are not modelled. They only go to the SDK.
- The logger: only the level and the structural parts of each message are kept (key prefix, amount, destination, URL, error message). Message text and output are not modelled.
- `async`/`await` and the SDK's timing of `onProgress` calls: the snapshots are a given sequence, delivered in order before `execute` resolves or throws.
- Exceptions thrown inside `onProgress` are not modelled. They come from a null or undefined step or item, and from a `steps` that is neither null nor undefined and has no `flatMap` method, such as `0`, `false` or `""`, which `?.` does not stop (`src/bridge.js:38-40`). How the SDK propagates them is not visible.
- `Progress.TxHashes`: `steps`, `items` and `txHashes` are typed `Option<seq<…>>`, so only arrays (or missing values) are represented at these levels. A truthy non-array `items` or `txHashes` does not throw: `flatMap` adds it as a single element (`src/bridge.js:39-40`). An object then contributes its own `txHashes` or `txHash`, and a string contributes nothing. These cases are not modelled.
- `txHash` values are strings or missing. Non-string truthy values are not modelled.
- `Bridge.KeyPrefix`: `slice` counts UTF-16 code units, while the model counts Dafny characters. The two agree on the hexadecimal keys the function is given.
- `originChainId === 11155111` is a strict comparison. Only integer ids are modelled, so a string "11155111" (which selects mainnet in the code) is not represented.
- `Bridge.BridgeEth`: it states that exactly one configuration is created. That this happens before the first log entry is visible in its body, not stated by its contract.
- `BridgeProperties.WalletLogRedacted`: only the key field of INFO and ERROR entries is redacted. An ERROR entry's message is the foreign `error.message` (`src/bridge.js:54`), which the model does not constrain; an adapter error that quotes the whole key puts the whole key in the log. `BridgeProperties.BatchLogRedacted` is limited in the same way.
- `BridgeProperties.KeySegment`: every thrown value is modelled as an error with a string `message`, and every key as a string. In the code, a thrown `null` or `undefined`, or a non-string key (whose `slice` throws at `src/bridge.js:15` and again at `src/bridge.js:54`), makes the `catch` block throw. That exception leaves the `for` loop and abandons every later key, so isolation does not hold there. A thrown non-Error value logs the message `undefined`. None of these cases is modelled.
- The case where `execute` resolves without any hash (no SUCCESS and no ERROR for that key) is modelled as the code has it, silent.
