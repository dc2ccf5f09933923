# IntersendAuth connector, modelled in Dafny

`IntersendAuth` (packages/web3-react-starter/src/intersendAuthConnector.ts) is a
@web3-react connector for the Intersend SDK wallet. It reports into an injected
connection store holding `{chainId, accounts, activating}`. It drives the SDK
client singleton through `init()`, `getAddress()` and `getProvider()`. It reacts to the
provider's `disconnect`, `chainChanged` and `accountsChanged` events, and it offers
`activate`, `connectEagerly` and `deactivate` to the UI.

The model has six modules:

- `Wrappers` (wrappers.dfy): `Option`, which stands for JavaScript's `undefined`.
- `Store` (store.dfy): the contract of the connection store. It has a value-level
  function per store action, and the class `Actions` that the connector changes in place.
- `Sdk` (sdk.dfy): the SDK client's observable state. This is an optional address,
  an optional provider handle (with or without `on`/`off`, and with an `off` that may throw), a count of `init()` calls
  and the provider's table of registered listeners, kept as a multiset like an event
  emitter's. The class `SdkClient` changes it in place. How an `init()` call ends is
  a parameter (`InitResult`).
- `ConnectorSpec` (connector_spec.dfy): one function per connector member. Each
  function maps the whole observable `World` to the `World` after the call. The
  world holds the connector's fields, the SDK state and the store. Each function's
  contract states what the call does.
- `Connector` (connector.dfy): the class `IntersendAuth` with the source's fields
  and methods. Each method is proved to change the world exactly as its
  `ConnectorSpec` function says.
- `Traces` (traces.dfy): whole lifetimes of a connector. A lifetime is any sequence
  of UI calls, provider events and SDK address changes. A provider event reaches a
  handler only while that handler is registered. The invariants proved here hold for
  every lifetime.

Assumed contract of the store (its code is not part of this model):
- `startActivation` raises `activating`.
- The cancellation token it returns lowers `activating`.
- `update` is a field-wise merge. It clears `activating` once the merged state has
  both a chain id and a non-empty account list.
- `resetState` returns the store to the baseline `{chainId: undefined, accounts: [], activating: false}`.

The model also counts the calls of the cancellation token, of `init()` and of
`setupEventListeners`. This is how it states the "exactly once" and "at most once" guarantees.

Initialisation has two steps, because `isomorphicInitialize` (lines 75-84) does not
await the promise it assigns to `eagerConnection`:
- `ConnectorSpec.IsomorphicInitialize` calls `init()` once and leaves the promise pending.
- `ConnectorSpec.InitSettled` is the rest of that promise. It runs when `init()`
  settles: it copies the provider (line 80) and sets up the listeners (line 81), or,
  on a rejection, does nothing else.

The pending promise may settle at the `await` of the waiting `activate` or
`connectEagerly` (lines 98 and 119). These take a parameter `settle` saying whether
and how it settles there. It may also settle later, as the `InitSettles` step of a trace.

Some behaviour of the code that one might not expect:
- A first `connectEagerly` whose `init()` is still pending when it resumes rejects
  with NoExistingConnection, because `this.provider` is not yet set. This holds
  whatever the SDK holds (`ConnectorSpec.PendingConnectEagerlyFails`). A first `activate`
  in the same situation rejects with NoAddress when the SDK client has no address yet,
  as at construction (`ConnectorSpec.Fresh`, `ConnectorSpec.FirstCallRacesInit`). After
  an address change it succeeds (`ConnectorSpec.PendingActivateReadsSdk`).
- A rejected `init()` never reaches the caller. It settles the promise as rejected,
  and `init()` is never tried again.
- `deactivate` has no try/catch. A provider whose `off` throws makes it reject before
  the store is reset (`ConnectorSpec.Deactivate`).
- The chain id written on activation is the constant 1 (`ConnectorSpec.DefaultChainId`).
- `chainId` need not be set while `accounts` is non-empty. An `accountsChanged`
  event after an eager connection that found no address leaves an account without
  a chain (`Traces.AccountsWithoutChain`).
- Initialisation is one-shot. Once `init()` has settled and `deactivate` has removed
  the listeners, no provider event reaches the connector again, even after a new
  `activate` (`Traces.DeafAfterDeactivate`). A `deactivate` while `init()` is still
  pending removes nothing. If `init()` then resolves with a provider that has `on`,
  the continuation registers all three handlers (`Traces.DeactivateWhilePending`).

## Model

| member | source | states |
|---|---|---|
| `ConnectorSpec.Fresh` | packages/web3-react-starter/src/intersendAuthConnector.ts:19-24 | A newly constructed connector has no `eagerConnection`, no provider, no setup and no error reports, beside a baseline store with no cancellations. The SDK client has not been initialised: no address, no provider, no listeners and no `init()` call, so the connector is not connected. |
| `ConnectorSpec.OnDisconnect` | packages/web3-react-starter/src/intersendAuthConnector.ts:27-30 | The store is reset to the baseline whether or not an error is present. A present error is forwarded to `onError` only when a callback exists, and the callback sees the already reset store. Nothing else changes. |
| `ConnectorSpec.OnChainChanged` | packages/web3-react-starter/src/intersendAuthConnector.ts:33-35 | The chain id becomes the event's. The accounts are unchanged. `activating` is cleared exactly when accounts are present. Nothing else changes. |
| `ConnectorSpec.OnAccountsChanged` | packages/web3-react-starter/src/intersendAuthConnector.ts:38-44 | An empty list yields the baseline, whatever the prior state. A non-empty list becomes the accounts and the chain id is kept. The SDK and the connector's fields are untouched. |
| `ConnectorSpec.SetupEventListeners` | packages/web3-react-starter/src/intersendAuthConnector.ts:50-57 | One registration of each of the three handlers is added if the SDK has a provider with `on`. Otherwise nothing is registered. Nothing but the listener table and setup count changes. |
| `ConnectorSpec.RemoveEventListeners` | packages/web3-react-starter/src/intersendAuthConnector.ts:62-69 | If the SDK's provider has an `off` that throws, the call rejects and nothing is removed. Otherwise one registration of each handler is removed if the provider has `off`, and nothing changes if it does not. |
| `ConnectorSpec.Connected` | packages/web3-react-starter/src/intersendAuthConnector.ts:86-89 | The connector is connected exactly when the SDK's address is present and not the empty string, which is JavaScript's `Boolean(getAddress())`. |
| `ConnectorSpec.IsomorphicInitialize` | packages/web3-react-starter/src/intersendAuthConnector.ts:75-84 | It has no effect once `eagerConnection` is assigned or without a window. Otherwise it calls `init()` once and leaves the promise pending. Nothing else changes: not the provider, the listeners or the store. |
| `ConnectorSpec.InitSettled` | packages/web3-react-starter/src/intersendAuthConnector.ts:78-82 | A rejected `init()` only settles the promise as rejected. A resolved one gives the whole new state: the SDK's new address and provider, the connector's copy of the provider, one setup call, and one registration of each handler exactly when the provider has `on`. The promise then settles as resolved. |
| `ConnectorSpec.AwaitInitialize` | packages/web3-react-starter/src/intersendAuthConnector.ts:98 | Without a settling at the `await` this is just starting initialisation. Either way it never touches the store, the error reports or the fixed settings. |
| `ConnectorSpec.Activate` | packages/web3-react-starter/src/intersendAuthConnector.ts:94-110 | It succeeds exactly when the SDK has a truthy address at the moment the call resumes, and then writes `{chainId: 1, accounts: [address]}` without cancelling. Otherwise it rejects with NoAddress, cancels exactly once and keeps the pre-call accounts and chain id. |
| `ConnectorSpec.ConnectEagerly` | packages/web3-react-starter/src/intersendAuthConnector.ts:115-135 | It succeeds exactly when, at the moment the call resumes, the connector holds a provider (so `init()` has resolved) and `connected` holds. The write is the same as `activate`'s. Otherwise it rejects with NoExistingConnection, cancels once and keeps accounts and chain id. The NoAddress throw at line 126 is unreachable. |
| `ConnectorSpec.Deactivate` | packages/web3-react-starter/src/intersendAuthConnector.ts:140-143 | It rejects, changing nothing, exactly when the provider has an `off` that throws. Otherwise listeners are removed when the provider has `off`, and the store is reset to the baseline unconditionally, with no cancellation. |
| `ConnectorSpec.PendingConnectEagerlyFails` | packages/web3-react-starter/src/intersendAuthConnector.ts:115-123 | Whatever the SDK holds, a `connectEagerly` that starts initialisation and resumes before `init()` settles rejects with NoExistingConnection and cancels once, because the connector's provider is still unset. |
| `ConnectorSpec.PendingActivateReadsSdk` | packages/web3-react-starter/src/intersendAuthConnector.ts:94-101 | An `activate` that starts initialisation and resumes before `init()` settles succeeds exactly when the SDK already holds a truthy address, and does not change that address. |
| `ConnectorSpec.FirstCallRacesInit` | packages/web3-react-starter/src/intersendAuthConnector.ts:75-135 | On a connector fresh beside an uninitialised SDK client: if `init()` is still pending when the first call resumes, `connectEagerly` rejects with NoExistingConnection and `activate` with NoAddress. If `init()` resolved with an address first, both succeed. |
| `ConnectorSpec.DeactivateIdempotent` | packages/web3-react-starter/src/intersendAuthConnector.ts:140-143 | Deactivating twice gives the same outcome and world as deactivating once, when no handler is registered twice. This includes a throwing `off`, which rejects both times. |
| `ConnectorSpec.ConnectEagerlyIsGuardedActivate` | packages/web3-react-starter/src/intersendAuthConnector.ts:115-135 | A resolved `connectEagerly` leaves exactly the world `activate` would have left. Whenever `activate` would fail, `connectEagerly` fails too. |
| `Connector.IntersendAuth.constructor` | packages/web3-react-starter/src/intersendAuthConnector.ts:22-24 | It keeps the injected store and SDK client. It starts uninitialised, without a provider, with no listener set up and no error reported. |
| `Connector.IntersendAuth.OnDisconnect` | packages/web3-react-starter/src/intersendAuthConnector.ts:27-30 | The in-place reset and forwarding produce exactly `ConnectorSpec.OnDisconnect`'s world. |
| `Connector.IntersendAuth.OnChainChanged` | packages/web3-react-starter/src/intersendAuthConnector.ts:33-35 | The in-place `update({chainId})` produces exactly `ConnectorSpec.OnChainChanged`'s world. |
| `Connector.IntersendAuth.OnAccountsChanged` | packages/web3-react-starter/src/intersendAuthConnector.ts:38-44 | The in-place reset or `update({accounts})` produces exactly `ConnectorSpec.OnAccountsChanged`'s world. |
| `Connector.IntersendAuth.SetupEventListeners` | packages/web3-react-starter/src/intersendAuthConnector.ts:50-57 | The three `on` calls produce exactly `ConnectorSpec.SetupEventListeners`'s world. |
| `Connector.IntersendAuth.RemoveEventListeners` | packages/web3-react-starter/src/intersendAuthConnector.ts:62-69 | The three `off` calls, the first of which may throw, produce exactly `ConnectorSpec.RemoveEventListeners`'s outcome and world. |
| `Connector.IntersendAuth.IsomorphicInitialize` | packages/web3-react-starter/src/intersendAuthConnector.ts:75-84 | The guarded one-shot call of `init()`, which does not wait for the promise, produces exactly `ConnectorSpec.IsomorphicInitialize`'s world. |
| `Connector.IntersendAuth.InitSettled` | packages/web3-react-starter/src/intersendAuthConnector.ts:78-82 | The continuation after `await init()` produces exactly `ConnectorSpec.InitSettled`'s world. |
| `Connector.IntersendAuth.Connected` | packages/web3-react-starter/src/intersendAuthConnector.ts:86-89 | The getter agrees with `ConnectorSpec.Connected` on the current state. |
| `Connector.IntersendAuth.Activate` | packages/web3-react-starter/src/intersendAuthConnector.ts:94-110 | The outcome and the new world are exactly `ConnectorSpec.Activate`'s. |
| `Connector.IntersendAuth.ConnectEagerly` | packages/web3-react-starter/src/intersendAuthConnector.ts:115-135 | The outcome and the new world are exactly `ConnectorSpec.ConnectEagerly`'s. The second address check is proved never to throw. |
| `Connector.IntersendAuth.Deactivate` | packages/web3-react-starter/src/intersendAuthConnector.ts:140-143 | Detaching, then resetting only if detaching did not throw, produces exactly `ConnectorSpec.Deactivate`'s outcome and world. |
| `Traces.RunKeepsInv` | packages/web3-react-starter/src/intersendAuthConnector.ts:75-84 | Every lifetime keeps six facts together. `init()` has been called once exactly when `eagerConnection` is assigned, and never without a window. Listeners were set up once exactly when `init()` resolved, and none is registered before that. No handler is registered twice. Every `onError` call saw the reset store. |
| `Traces.AtMostOnce` | packages/web3-react-starter/src/intersendAuthConnector.ts:75-84 | From construction, `init()` and `setupEventListeners` each run at most once in any lifetime, and not at all without a window. |
| `Traces.ListenersAtMostOnce` | packages/web3-react-starter/src/intersendAuthConnector.ts:50-57 | No handler is ever registered more than once on the provider. |
| `Traces.StartedStaysStarted` | packages/web3-react-starter/src/intersendAuthConnector.ts:76 | Once `eagerConnection` is assigned, it stays assigned. |
| `Traces.ActivationInitializesOnce` | packages/web3-react-starter/src/intersendAuthConnector.ts:75-84 | With a window, any lifetime that contains an `activate` or `connectEagerly` call has called `init()` exactly once. |
| `Traces.ListenersNeverGrowAfterInit` | packages/web3-react-starter/src/intersendAuthConnector.ts:75-84 | Once `init()` has settled, either way, no operation ever adds a listener registration. |
| `Traces.DeafAfterDeactivate` | packages/web3-react-starter/src/intersendAuthConnector.ts:140-143 | Once `init()` has settled, after a `deactivate` whose provider has a working `off`, no listener stays registered for the rest of the lifetime. |
| `Traces.DeactivateTwice` | packages/web3-react-starter/src/intersendAuthConnector.ts:140-143 | In every reachable state, a second `deactivate` changes nothing. |
| `Traces.DeactivateWhilePending` | packages/web3-react-starter/src/intersendAuthConnector.ts:78-82 | In every reachable state with `init()` pending, a `deactivate` finds no listener left to remove. If `init()` then resolves with a provider that has `on`, all three handlers are registered. If the `deactivate` did not throw, the store is at the baseline too. |
| `Traces.DeactivateBeforeInitSettles` | packages/web3-react-starter/src/intersendAuthConnector.ts:78-82 | In one concrete lifetime (`activate` resuming before `init()` settles, then `deactivate`, then a resolution with a provider that has `on` and `off`), all three handlers end up registered and the store is at the baseline. |
| `Traces.AccountsWithoutChain` | packages/web3-react-starter/src/intersendAuthConnector.ts:38-44 | One concrete lifetime ends with accounts `["0xAA"]` and no chain id. |

## Left out

- packages/web3-react-starter/src/App.tsx: React rendering and hook reads. Its only logic swallows `connectEagerly` rejections, which is UI plumbing.
- The module-level `initializeConnector` call (intersendAuthConnector.ts:147-154): composition-root wiring that refers to an undefined `config`.
- The internals of the SDK client and of the @web3-react store are not part of this model. Only the contracts stated above are modelled. Two features of the actual @web3-react store are not modelled. Its `startActivation` also clears `chainId` and `accounts`. Its cancellation token is guarded by a counter of intervening writes, and in this sequential model no write can come between start and cancel. The store also validates chain ids and addresses, and that is not modelled either.
- Promise scheduling beyond the one point that matters is not modelled. The `init()` promise settles at the waiting caller's `await` or at a later step. Concurrent callers are not interleaved, a handler never runs in the middle of a call, and the unhandled rejection of the initialisation promise is only recorded as its settled state.
- `Number(chainId)` coercion of hex or decimal strings: the event's chain id is taken as an integer already.
- `onError`: the model only records each call and the store state it could see, not what the callback does.
- The SDK has one provider slot, and its listener table belongs to that slot. A provider object replaced by the SDK outside `init()` is not modelled.
- The unreachable second "no address" throw (line 126) is an assertion in the method. The value-level function keeps the branch and its contract shows that the branch never fires.
- ConnectorSpec.Fresh: every lifetime starts from an SDK client whose `getAddress()` is undefined and that has no provider. A singleton that already holds an address is still covered, because a lifetime may begin with an address change, and every trace lemma ranges over all such lifetimes. A singleton that already holds a provider before `init()` is not modelled, because only `init()` sets the SDK's provider here.
- A throwing `on` in `setupEventListeners` is not modelled: only `off` may throw.
- Repeated registrations: a provider event runs its handler once if the handler is registered. This is exact only because `Traces.ListenersAtMostOnce` shows that no handler is registered twice.
