# vagmi wallet connection layer, modelled in Dafny

This project models the decision logic of a small Vue wallet-connection layer
built around `@wagmi/core`, `@tanstack/vue-query` and ethers:

- **AccountWatcher** (`account_watcher.dfy`) models the account transition watcher of `useAccount`.
  - It keeps the previously observed account, which starts absent.
  - It fires `onConnect` on an edge into `connected`, with `isReconnected` true exactly when the previous status was `reconnecting`.
  - It fires `onDisconnect` on a `connected → disconnected` edge.
  - It overwrites the previous snapshot after every run.
  - `Watcher` is a class: `Deliver` is one run of the watch callback and `Dispose` releases the subscription.
  - `Trace` folds a sequence of runs, and lemmas about it give properties of whole connect/disconnect histories.
- **VagmiPlugin** (`vagmi_plugin.dfy`) models `createClient` and the plugin:
  - the `shouldDehydrateQuery` filter, which decides which cached queries go to durable storage;
  - the default query client, storage and persister;
  - the plugin's `install` bookkeeping: auto-connect, store subscription, the `unmount` wrapper and `provide`, on an `App` class;
  - the `useClient` guard.
- **Connect** (`connect.dfy`) models `useConnect`: the mutation key, the required-connector check in the mutation function, the `??` merging of call-time arguments over the hook's options, and `pendingConnector`.
- **Wallet** (`wallet.dfy`) models the legacy `useWallet` composable:
  - `getProvider` and its two error messages;
  - the reactive wallet record as the `WalletState` class;
  - `getUserBalance`, `getAccountAssets`, `subscribeProvider`, `onConnect` and the `accountsChanged`/`chainChanged` listeners.
  - Every MetaMask/ethers answer is a parameter: whether a wallet is detected, whether the account request succeeds, the signer address, the network, and the formatted balance.
- **Wrappers** (`wrappers.dfy`) holds `Option` and `Result`.

Two behaviours of the code are worth stating up front:

- An empty `accountsChanged` list does not disconnect. The code sets the address to `undefined` and stays connected (`Wallet.EmptyAccountsKeepConnection`).
- Provider listeners are never removed. Each `onConnect` that gets past `getProvider`, on a provider with `on`, registers another set, even when a later read in it rejects (`Wallet.WalletState.OnConnect`, `Wallet.ReconnectDuplicatesListeners`).

## Model

| member | source | states |
|---|---|---|
| `AccountWatcher.Transition` | src/plugins/vagmi/composables/accounts/useAccount.ts:39-61 | At most one callback per run. `onConnect` fires iff it is set, the previous status is not `connected` (an absent previous counts as not connected) and the current one is `connected`. It receives the current address and connector, and `isReconnected` is true iff the previous status was `reconnecting`, so it is false on the first run. `onDisconnect` fires iff it is set, the previous status is `connected` and the current one is `disconnected`. Re-delivering the same account fires nothing. |
| `AccountWatcher.TraceSnoc` | src/plugins/vagmi/composables/accounts/useAccount.ts:39-61 | One more run extends the callback trace by exactly that run's transition, taken from the snapshot the previous runs left. |
| `AccountWatcher.RepeatedAccountFiresNothing` | src/plugins/vagmi/composables/accounts/useAccount.ts:43-60 | After any history, delivering the last account again adds no callback. |
| `AccountWatcher.DisconnectsNeverOutrunConnects` | src/plugins/vagmi/composables/accounts/useAccount.ts:43-60 | Over any run sequence with `onConnect` set, the number of `onDisconnect` calls plus 1 if the last snapshot is connected is at most the number of `onConnect` calls plus 1 if the start was connected. From an absent start, disconnects never outnumber connects. |
| `AccountWatcher.Watcher.constructor` | src/plugins/vagmi/composables/accounts/useAccount.ts:33-38 | The account starts as the current account. The previous snapshot is absent, the `watchAccount` subscription is active and nothing has fired. |
| `AccountWatcher.Watcher.Deliver` | src/plugins/vagmi/composables/accounts/useAccount.ts:36-61 | While subscribed, the account becomes the delivered one and the callbacks fired are `Transition` of the old snapshot. The snapshot becomes the delivered account whether or not anything fired, given that the callbacks return normally. The full log stays equal to `Trace` of the history. After disposal nothing changes and nothing fires. |
| `AccountWatcher.Watcher.Dispose` | src/plugins/vagmi/composables/accounts/useAccount.ts:62-64 | Releases the account subscription and changes nothing else. |
| `AccountWatcher.ConnectDisconnectConnect` | src/plugins/vagmi/composables/accounts/useAccount.ts:43-60 | Connect, disconnect, connect fires `onConnect` (not reconnected), `onDisconnect`, then `onConnect` (not reconnected), in that order. |
| `AccountWatcher.NothingFiresAfterDispose` | src/plugins/vagmi/composables/accounts/useAccount.ts:36-64 | Once the scope is disposed, a later account change fires no callback. |
| `VagmiPlugin.ShouldDehydrateQuery` | src/plugins/vagmi/plugin.ts:81-85 | A query is persisted iff cache time ≠ 0 and the first key element's `persist` is not `false`. A missing `persist`, or a non-object first element, counts as persist. Cache time 0 is never persisted and short-circuits before the key is read. With a nonzero cache time, an empty key or a nullish first element throws. |
| `VagmiPlugin.DefaultStorage` | src/plugins/vagmi/plugin.ts:53-58 | The default storage wraps `localStorage` iff `window` and `localStorage` exist, otherwise the no-op storage. |
| `VagmiPlugin.DefaultPersister` | src/plugins/vagmi/plugin.ts:59-68 | A default persister exists iff `window` is defined. It is the sync-storage persister under key "cache" over the resolved storage. |
| `VagmiPlugin.CreateClient` | src/plugins/vagmi/plugin.ts:39-90 | The returned client carries the given query client, or the default one (24 h cache time, offline-first, no refetch on focus, no retry). It uses the given or the default storage. Persistence is installed iff a persister is given, or left unset where `window` is defined. An explicit `null` disables it. `autoConnect` is passed through. |
| `VagmiPlugin.UseClient` | src/plugins/vagmi/plugin.ts:131-145 | Fails with the "must be used within `WagmiConfig`" message iff nothing is injected. Otherwise it returns the injected client unchanged. |
| `VagmiPlugin.UnmountEffects` | src/plugins/vagmi/plugin.ts:119-123 | The wrapped `unmount` releases each install's store subscription exactly once, newest first, and only then calls the original unmount, once. |
| `VagmiPlugin.UnmountReleasesEachOnce` | src/plugins/vagmi/plugin.ts:115-123 | When every install subscribed under its own handle, the wrapped unmount releases every installed subscription and repeats no call. |
| `VagmiPlugin.App.Install` | src/plugins/vagmi/plugin.ts:104-127 | In order: vue-query is installed with the client's query client, `autoConnect` is called iff configured, one store subscription is opened, and the client is provided. The unmount wrapper records that subscription. `useClient` then returns the installed client. |
| `VagmiPlugin.App.Unmount` | src/plugins/vagmi/plugin.ts:119-123 | Performs `UnmountEffects` of the installed wrappers, in which no call repeats, since every install subscribed under its own handle. No store subscription of the plugin stays live. |
| `VagmiPlugin.InstallThenUnmount` | src/plugins/vagmi/plugin.ts:113-123 | One install then one unmount: the subscription is released once, before the original unmount, and none stays live. |
| `Connect.MutationKey` | src/plugins/vagmi/composables/accounts/useConnect.ts:18-20 | The key is a one-element list whose record has `entity: "connect"` and the argument's connector and chain id. |
| `Connect.MutationKeyInjective` | src/plugins/vagmi/composables/accounts/useConnect.ts:18-20 | Two argument records get the same key iff they are equal. |
| `Connect.HookMutationKey` | src/plugins/vagmi/composables/accounts/useConnect.ts:50-54 | The key registered by `useConnect` holds the values of the connector and chain id options at setup time. |
| `Connect.MutationFn` | src/plugins/vagmi/composables/accounts/useConnect.ts:22-26 | Throws "connector is required", without calling `connect`, iff the connector is missing. Otherwise it forwards exactly that connector and chain id. |
| `Connect.Resolve` | src/plugins/vagmi/composables/accounts/useConnect.ts:64-76 | The corrected merging from the first row under "## Findings": `connect` and `connectAsync` resolve each field to the call-time value when it is not nullish, otherwise to the option's unwrapped value. The source falls back to the raw option instead, which is `ResolveAsWritten`. On plain options the two agree (`AsWrittenAgreesOnPlainOptions`). |
| `Connect.ConnectRequiresConnector` | src/plugins/vagmi/composables/accounts/useConnect.ts:22-76 | With the corrected merging (first row under "## Findings"), an attempt fails with "connector is required" iff neither the call nor the options give a connector. Otherwise `connect` gets the resolved connector and chain id. The source's own guard is `MutationFnAsWritten` over `ResolveAsWritten`, which lets any ref option through. |
| `Connect.ResolveAsWritten` | src/plugins/vagmi/composables/accounts/useConnect.ts:64-76 | As written, the fallback of each field is the option exactly as given, a ref object included. |
| `Connect.MutationFnAsWritten` | src/plugins/vagmi/composables/accounts/useConnect.ts:22-26 | As written, the guard rejects only a plain missing connector. Any ref object passes it. |
| `Connect.AsWrittenAgreesOnPlainOptions` | src/plugins/vagmi/composables/accounts/useConnect.ts:64-76 | With plain options, the written merging equals `Resolve` and the written guard rejects exactly when `MutationFn` does. |
| `Connect.EmptyRefBypassesConnectorCheck` | src/plugins/vagmi/composables/accounts/useConnect.ts:64-69 | With the connector option `ref(undefined)`, the written `connect()` passes the guard and hands wagmi the ref object. `MutationFn` over `Resolve` rejects it. |
| `Connect.PendingConnector` | src/plugins/vagmi/composables/accounts/useConnect.ts:88 | The pending connector is the connector in the mutation's variables. It is undefined while no variables exist. |
| `Connect.UseConnectAsWritten` | src/plugins/vagmi/composables/accounts/useConnect.ts:36-92 | Fails with the "must be used within `WagmiConfig`" message iff the plugin is not installed (`useClient()` at line 36). Otherwise it returns the setup-time key and a `pendingConnector` evaluated once, against the freshly created mutation, which is undefined. |
| `Connect.PendingConnectorNeverSet` | src/plugins/vagmi/composables/accounts/useConnect.ts:64-88 | As written, `pendingConnector` is undefined for every set of options. After any attempts whose last one resolves a connector, it differs from the pending connector read at access time. |
| `Connect.PendingConnectorFollowsLatestAttempt` | src/plugins/vagmi/composables/accounts/useConnect.ts:64-88 | Read at access time, after any sequence of `connect`/`connectAsync` calls, the pending connector is the resolved connector of the last call. It is undefined before any call. Each attempt replaces the variables of the one before. |
| `Connect.Mutate` | src/plugins/vagmi/composables/accounts/useConnect.ts:64-76 | A `mutate` call leaves the mutation holding exactly that attempt's variables. |
| `Connect.LaterAttemptReplacesEarlier` | src/plugins/vagmi/composables/accounts/useConnect.ts:64-88 | After `connect(a)` and then `connect(b)`, the pending connector is `b`'s resolved connector. |
| `Wallet.GetProvider` | src/composables/useWallet.ts:11-29 | Succeeds iff a wallet is detected and the account request succeeds. No wallet gives "No MetaMask Wallet found". Any failure while building the provider or requesting accounts gives "User Rejected", and the cause is discarded. |
| `Wallet.WalletState.constructor` | src/composables/useWallet.ts:40-49 | Initial state: provider null, address null, not connected, chain id 1, signer null, not fetching, assets 0. |
| `Wallet.WalletState.GetUserBalance` | src/composables/useWallet.ts:51-60 | Returns 0 without querying iff the provider is missing or the address is missing or empty. Otherwise it queries and returns the formatted balance, or rejects when the query rejects. |
| `Wallet.WalletState.GetAccountAssets` | src/composables/useWallet.ts:62-66 | Sets `fetching` to true, never back, then sets `assets` to the balance unless the query rejected. Nothing else changes. |
| `Wallet.WalletState.SubscribeProvider` | src/composables/useWallet.ts:68-77 | Registers one more listener set iff the provider can emit events. Nothing else changes. |
| `Wallet.WalletState.OnConnect` | src/composables/useWallet.ts:89-106 | If `getProvider` fails, nothing changes and its message is the error. Listeners are registered before the signer and network are read. If either read rejects, no record field changes. On success it sets provider, connected, address, chain id and signer, then refreshes assets. |
| `Wallet.WalletState.AccountsChanged` | src/composables/useWallet.ts:78-81 | The address becomes the first account, or absent for an empty list. `connected`, chain id, signer and provider are unchanged, then assets are refreshed. |
| `Wallet.WalletState.ChainChanged` | src/composables/useWallet.ts:82-86 | Only the chain id changes before the asset refresh. If `getNetwork` rejects, nothing changes. |
| `Wallet.EmptyAccountsKeepConnection` | src/composables/useWallet.ts:78-105 | After a successful connect, an empty `accountsChanged` leaves the wallet connected on the same chain, with no address and assets 0. |
| `Wallet.ReconnectDuplicatesListeners` | src/composables/useWallet.ts:68-106 | Two successful connects on an event-emitting provider register two listener sets. |

## Left out

- Internals of `@wagmi/core` are external library code and appear only as values. This covers `getAccount`, `watchAccount`, `connect`, `autoConnect`, `createClient`, `createStorage` and the store's subscription mechanism. A call into them is an entry in an effect log or a parameter.
- vue-query's mutation state machine, `persistQueryClient`, `createSyncStoragePersister` and cache (de)serialization are external engines. The model records which persister and filter are handed over, not what the engine does with them. `MutationState` holds only the variables of the latest `mutate`.
- Vue reactivity is not modelled (`ref`, `shallowRef`, `triggerRef`, `markRaw`, `watch` scheduling, `inject`/`provide`). A watch firing is one `Deliver` step, and several account changes batched into one flush are not modelled. Injection is an optional value. The provided `markRaw(shallowRef(client))` is modelled as the client itself.
- The `triggerRef` listener passed to `client.subscribe` and `app.use(VueQueryPlugin, …)` appear only as effects.
- src/plugins/vagmi/utils is not part of this model. `getMaybeRefValue` is taken to return a ref's value or the plain value (`Connect.Unref`).
- ethers and MetaMask calls are foreign I/O, so their answers are parameters. This covers `detectEthereumProvider`, `Web3Provider`, `send`, `getSigner`, `getAddress`, `getNetwork`, `getBalance` and `formatEther`; the decimal formatting of wei is not modelled.
- Async interleaving is concurrency and is not modelled. This includes overlapping connect attempts and listeners running between the awaits of `onConnect`. Each handler runs to completion as one step.
- The dispatch of provider events to registered listeners is done by the provider. A handler method is one invocation of one registered listener. `listeners` records how many sets are registered, but an event is not replayed once per set.
- The `close` listener returns a function and does nothing, so it has no method.
- `Wallet.WalletState`: `walletAddress` uses one "absent" value for both `null` (initial) and `undefined` (after an empty `accountsChanged`). Both are falsy to the balance guard.
- `AccountWatcher.Watcher.Deliver`: assumes the user's `onConnect` and `onDisconnect` return normally. In the source, a callback that throws aborts the watch run before the snapshot update at src/plugins/vagmi/composables/accounts/useAccount.ts:60. `previous` then keeps the stale snapshot, and a later delivery can fire `onConnect` again. `Callbacks` records only whether each callback is set, so this case is not modelled.
- `Connect.UseConnectAsWritten`: the returned `connectors` (`client.value.connectors`) and the mutation's other fields pass through unmodelled, because the connector list is wagmi client state.
- `AccountWatcher.Account`: `address` and `connector` are plain identifiers.
- `VagmiPlugin.KeyElement`: a `persist` flag that is neither boolean nor absent is not modelled. The source's type allows only a boolean.
- `VagmiPlugin.QueryClient`: a caller-supplied query client is an arbitrary value of the same record. The options of a real `QueryClient` beyond the defaults set here are not modelled.
- `VagmiPlugin.App.Unmount`: does not model what Vue's own unmount does. It is the effect `OriginalUnmount`.
- Error objects are modelled by their messages. Stack traces and error classes are not modelled.

## Findings

| source | as written | input that shows it | evidently intended | confidence | as-written member | corrected member |
|---|---|---|---|---|---|---|
| src/plugins/vagmi/composables/accounts/useConnect.ts:64-76 | `args?.connector ?? connector` falls back to the hook option as given. A `MaybeRef` option is therefore passed to the mutation as the ref object, not its value. `mutationKey` at lines 51-54 does unwrap it. | `useConnect({ connector: ref(undefined) })` then `connect()`: the guard `!connector` sees a ref object and lets it through, and wagmi's `connect` receives a ref instead of a connector. | Unwrap the option, as `getMaybeRefValue` does for the key, so that a missing connector fails with "connector is required". | medium, not executed | `Connect.EmptyRefBypassesConnectorCheck` | `Connect.Resolve` |
| src/plugins/vagmi/composables/accounts/useConnect.ts:88 | `pendingConnector: variables.value?.connector` is evaluated once, when `useConnect` returns, against a mutation that has just been created and so has no variables. | any options, then `connect({ connector: A })`: the returned `pendingConnector` stays undefined. | A value read at access time (a computed ref), giving the connector of the latest attempt. | medium, not executed | `Connect.PendingConnectorNeverSet` | `Connect.PendingConnector` |
