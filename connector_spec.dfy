/**
 * The IntersendAuth connector on values: one function per member of the
 * class, each taking the whole observable world (the connector's own fields,
 * the SDK client and the store) to the world after the call. The class in
 * module Connector is proved to follow these functions step for step.
 *
 * `isomorphicInitialize` does not await the `init()` it starts. The model
 * therefore splits initialisation in two: starting it (IsomorphicInitialize)
 * and its promise settling (InitSettled), which may happen at the caller's
 * `await` or at any later point.
 */
module ConnectorSpec {
  import opened Wrappers
  import opened Store
  import opened Sdk

  /** The chain id written on every successful activation (the SDK reports none). */
  const DefaultChainId := 1

  /** One registration of each of the connector's three handlers. */
  const AllEvents: multiset<EventName> := multiset{Disconnect, ChainChanged, AccountsChanged}

  /** The payload of a provider `disconnect` event. */
  datatype RpcError = RpcError(code: int, message: string)

  /** One call of `onError`, with the store state the callback could observe at that moment. */
  datatype ErrorReport = ErrorReport(error: RpcError, observed: ConnectionState)

  /** The errors the connector's calls reject with. */
  datatype ConnectorError =
    | NoAddress            // "No address from Intersend"
    | NoExistingConnection // "No existing Intersend connection"
    | OffThrew             // the provider's `off` threw during `deactivate`

  /** How a call ends: resolved, or rejected with an error. */
  datatype Outcome = Done | Failed(error: ConnectorError)

  /** The `eagerConnection` field: unassigned, or the initialisation promise, pending or settled. */
  datatype EagerConnection = Unassigned | Pending | Resolved | Rejected

  /**
   * Everything a connector call can read or change. `hasWindow` and
   * `hasOnError` are fixed at construction; `setupCalls` counts the calls of
   * `setupEventListeners`; `reported` lists the calls of `onError`.
   */
  datatype World = World(
    hasWindow: bool,
    hasOnError: bool,
    eagerConnection: EagerConnection,
    provider: Option<Provider>,
    setupCalls: nat,
    reported: seq<ErrorReport>,
    sdk: SdkState,
    actions: ActionsState)

  /**
   * A connector just constructed beside a fresh store and an SDK client
   * that has not been initialised, so `getAddress()` is still undefined.
   */
  function Fresh(hasWindow: bool, hasOnError: bool): (w: World)
    ensures w.hasWindow == hasWindow && w.hasOnError == hasOnError
    ensures w.eagerConnection == Unassigned && w.provider == None && w.setupCalls == 0 && w.reported == []
    ensures w.sdk.address == None && w.sdk.provider == None && w.sdk.initCalls == 0 && w.sdk.listeners == multiset{}
    ensures w.actions.state == Baseline && w.actions.cancelCalls == 0
    ensures !Connected(w)
  {
    World(hasWindow, hasOnError, Unassigned, None, 0, [], Uninitialized, Initial)
  }

  /** The `connected` getter: `Boolean(getAddress())`. */
  function Connected(w: World): (r: bool)
    ensures r <==> w.sdk.address.Some? && w.sdk.address.value != ""
  {
    Truthy(w.sdk.address)
  }

  /** `onDisconnect`: reset the store, then forward a present error to `onError`. */
  function OnDisconnect(w: World, error: Option<RpcError>): (r: World)
    ensures r.actions == ActionsState(Baseline, w.actions.cancelCalls)
    ensures r.reported == if error.Some? && w.hasOnError
                          then w.reported + [ErrorReport(error.value, Baseline)]
                          else w.reported
    ensures r == w.(actions := r.actions, reported := r.reported)
  {
    var reset := w.(actions := Reset(w.actions));
    if error.Some? && w.hasOnError then
      reset.(reported := reset.reported + [ErrorReport(error.value, reset.actions.state)])
    else
      reset
  }

  /** `onChainChanged`: replace the chain and keep the accounts. */
  function OnChainChanged(w: World, chainId: int): (r: World)
    ensures r.actions.state.chainId == Some(chainId)
    ensures r.actions.state.accounts == w.actions.state.accounts
    ensures r.actions.state.activating == (w.actions.state.activating && !IsActive(w.actions.state))
    ensures r == w.(actions := w.actions.(state := r.actions.state))
  {
    w.(actions := Merged(w.actions, StateUpdate(Some(chainId), None)))
  }

  /** `onAccountsChanged`: an empty list disconnects; any other replaces the accounts and keeps the chain. */
  function OnAccountsChanged(w: World, accounts: seq<string>): (r: World)
    ensures |accounts| == 0 ==> r.actions.state == Baseline
    ensures |accounts| > 0 ==>
              && r.actions.state.accounts == accounts
              && r.actions.state.chainId == w.actions.state.chainId
              && r.actions.state.activating == (w.actions.state.activating && w.actions.state.chainId.None?)
    ensures r == w.(actions := w.actions.(state := r.actions.state))
  {
    if |accounts| == 0 then
      w.(actions := Reset(w.actions))
    else
      w.(actions := Merged(w.actions, StateUpdate(None, Some(accounts))))
  }

  /** `setupEventListeners`: register the three handlers on the SDK's current provider, if it has one and it has `on`. */
  function SetupEventListeners(w: World): (r: World)
    ensures r.sdk.listeners == if w.sdk.provider.Some? && w.sdk.provider.value.hasOn
                               then w.sdk.listeners + AllEvents
                               else w.sdk.listeners
    ensures r.setupCalls == w.setupCalls + 1
    ensures r == w.(setupCalls := r.setupCalls, sdk := w.sdk.(listeners := r.sdk.listeners))
  {
    var p := w.sdk.provider;
    var listeners := if p.Some? && p.value.hasOn
                     then w.sdk.listeners + multiset{Disconnect} + multiset{ChainChanged} + multiset{AccountsChanged}
                     else w.sdk.listeners;
    w.(setupCalls := w.setupCalls + 1, sdk := w.sdk.(listeners := listeners))
  }

  /**
   * `removeEventListeners`: unregister the three handlers, if the SDK has a
   * provider and it has `off`. A throwing `off` rejects at the first call,
   * before anything is removed.
   */
  function RemoveEventListeners(w: World): (r: (Outcome, World))
    ensures var p := w.sdk.provider;
      && (r.0.Failed? <==> p.Some? && p.value.hasOff && p.value.offThrows)
      && (r.0.Failed? ==> r.0.error == OffThrew && r.1 == w)
      && (r.0 == Done ==> r.1.sdk.listeners == if p.Some? && p.value.hasOff
                                              then w.sdk.listeners - AllEvents
                                              else w.sdk.listeners)
      && r.1 == w.(sdk := w.sdk.(listeners := r.1.sdk.listeners))
  {
    var p := w.sdk.provider;
    if p.Some? && p.value.hasOff then
      if p.value.offThrows then
        (Failed(OffThrew), w)
      else
        var listeners := w.sdk.listeners - multiset{Disconnect} - multiset{ChainChanged} - multiset{AccountsChanged};
        (Done, w.(sdk := w.sdk.(listeners := listeners)))
    else
      (Done, w)
  }

  /**
   * `isomorphicInitialize`: a no-op once `eagerConnection` is assigned or
   * without a window; otherwise it calls `init()` and assigns the pending
   * promise, and returns without waiting for it.
   */
  function IsomorphicInitialize(w: World): (r: World)
    ensures w.eagerConnection != Unassigned || !w.hasWindow ==> r == w
    ensures w.eagerConnection == Unassigned && w.hasWindow ==>
              r == w.(eagerConnection := Pending, sdk := w.sdk.(initCalls := w.sdk.initCalls + 1))
  {
    if w.eagerConnection != Unassigned || !w.hasWindow then
      w
    else
      w.(eagerConnection := Pending, sdk := InitCalled(w.sdk))
  }

  /**
   * The rest of the initialisation promise, once `init()` has settled as
   * `res`: a rejection settles it as rejected and goes no further; a
   * resolution takes the SDK's new address and provider, copies the
   * provider into the connector, sets up the listeners once and settles it
   * as resolved.
   */
  function InitSettled(w: World, res: InitResult): (r: World)
    requires w.eagerConnection == Pending
    ensures res.InitFailed? ==> r == w.(eagerConnection := Rejected)
    ensures res.InitSucceeded? ==>
              r == w.(eagerConnection := Resolved,
                      provider := res.provider,
                      setupCalls := w.setupCalls + 1,
                      sdk := SdkState(res.address, res.provider, w.sdk.initCalls,
                                      if res.provider.Some? && res.provider.value.hasOn
                                      then w.sdk.listeners + AllEvents
                                      else w.sdk.listeners))
  {
    var s := w.(sdk := Initialized(w.sdk, res));
    if res.InitFailed? then
      s.(eagerConnection := Rejected)
    else
      SetupEventListeners(s.(provider := s.sdk.provider)).(eagerConnection := Resolved)
  }

  /**
   * `await this.isomorphicInitialize()`: start initialising if need be; at
   * the `await`, a pending `init()` may settle (`settle` is how), or stay
   * pending (`settle` is None).
   */
  function AwaitInitialize(w: World, settle: Option<InitResult>): (r: World)
    ensures settle.None? ==> r == IsomorphicInitialize(w)
    ensures r.actions == w.actions && r.reported == w.reported
    ensures r.hasWindow == w.hasWindow && r.hasOnError == w.hasOnError
  {
    var i := IsomorphicInitialize(w);
    if i.eagerConnection == Pending && settle.Some? then InitSettled(i, settle.value) else i
  }

  /** Initialisation neither reads nor writes the store. */
  lemma AwaitInitializeIgnoresStore(w: World, a: ActionsState, settle: Option<InitResult>)
    ensures AwaitInitialize(w.(actions := a), settle) == AwaitInitialize(w, settle).(actions := a)
  {
  }

  /**
   * `activate`: start an activation, await initialisation, then either write
   * chain 1 and the SDK's address, or, when the SDK has no truthy address at
   * that moment, cancel the activation once and reject with NoAddress.
   */
  function Activate(w: World, settle: Option<InitResult>): (r: (Outcome, World))
    ensures var i := AwaitInitialize(w, settle);
      && r.1 == i.(actions := r.1.actions)
      && (r.0 == Done <==> Truthy(i.sdk.address))
      && (r.0.Failed? ==>
            && r.0.error == NoAddress
            && r.1.actions == ActionsState(w.actions.state.(activating := false), w.actions.cancelCalls + 1))
      && (r.0 == Done ==> r.1.actions == ActionsState(ConnectionState(Some(DefaultChainId), [i.sdk.address.value], false),
                                                      w.actions.cancelCalls))
  {
    AwaitInitializeIgnoresStore(w, Started(w.actions), settle);
    var i := AwaitInitialize(w.(actions := Started(w.actions)), settle);
    var address := i.sdk.address;
    if !Truthy(address) then
      (Failed(NoAddress), i.(actions := Cancelled(i.actions)))
    else
      (Done, i.(actions := Merged(i.actions, StateUpdate(Some(DefaultChainId), Some([address.value])))))
  }

  /**
   * `connectEagerly`: as `activate`, but it rejects with NoExistingConnection,
   * cancelling once, unless after the `await` the connector holds a provider
   * (so `init()` has resolved) and the SDK is `connected`.
   */
  function ConnectEagerly(w: World, settle: Option<InitResult>): (r: (Outcome, World))
    ensures var i := AwaitInitialize(w, settle);
      && r.1 == i.(actions := r.1.actions)
      && (r.0 == Done <==> i.provider.Some? && Connected(i))
      && (r.0.Failed? ==>
            && r.0.error == NoExistingConnection
            && r.1.actions == ActionsState(w.actions.state.(activating := false), w.actions.cancelCalls + 1))
      && (r.0 == Done ==> r.1.actions == ActionsState(ConnectionState(Some(DefaultChainId), [i.sdk.address.value], false),
                                                      w.actions.cancelCalls))
  {
    AwaitInitializeIgnoresStore(w, Started(w.actions), settle);
    var i := AwaitInitialize(w.(actions := Started(w.actions)), settle);
    if i.provider.None? || !Connected(i) then
      (Failed(NoExistingConnection), i.(actions := Cancelled(i.actions)))
    else
      var address := i.sdk.address;
      if !Truthy(address) then
        (Failed(NoAddress), i.(actions := Cancelled(i.actions)))
      else
        (Done, i.(actions := Merged(i.actions, StateUpdate(Some(DefaultChainId), Some([address.value])))))
  }

  /**
   * `deactivate`: unregister the listeners, then reset the store, whatever
   * the state was. There is no try/catch: when `off` throws, the call
   * rejects and the store is not reset.
   */
  function Deactivate(w: World): (r: (Outcome, World))
    ensures var p := w.sdk.provider;
      && (r.0.Failed? <==> p.Some? && p.value.hasOff && p.value.offThrows)
      && (r.0.Failed? ==> r.0.error == OffThrew && r.1 == w)
      && (r.0 == Done ==>
            && r.1.actions == ActionsState(Baseline, w.actions.cancelCalls)
            && r.1.sdk.listeners == (if p.Some? && p.value.hasOff then w.sdk.listeners - AllEvents else w.sdk.listeners)
            && r.1 == w.(actions := r.1.actions, sdk := w.sdk.(listeners := r.1.sdk.listeners)))
  {
    var (removed, detached) := RemoveEventListeners(w);
    if removed.Failed? then
      (removed, detached)
    else
      (Done, detached.(actions := Reset(detached.actions)))
  }

  /**
   * Deactivating twice is deactivating once, as long as no handler is
   * registered more than once (Traces.ListenersAtMostOnce shows that every
   * reachable connector meets this).
   */
  lemma DeactivateIdempotent(w: World)
    requires w.sdk.listeners <= AllEvents
    ensures Deactivate(Deactivate(w).1) == Deactivate(w)
  {
    var once := Deactivate(w).1;
    var p := w.sdk.provider;
    if p.Some? && p.value.hasOff && !p.value.offThrows {
      assert once.sdk.listeners == multiset{} by {
        forall e: EventName ensures once.sdk.listeners[e] == 0 {
          assert w.sdk.listeners[e] <= AllEvents[e];
        }
      }
    }
  }

  /** A resolved `connectEagerly` did exactly what `activate` would have done. */
  lemma ConnectEagerlyIsGuardedActivate(w: World, settle: Option<InitResult>)
    ensures ConnectEagerly(w, settle).0 == Done ==> ConnectEagerly(w, settle) == Activate(w, settle)
    ensures Activate(w, settle).0.Failed? ==> ConnectEagerly(w, settle).0.Failed?
  {
  }

  /**
   * Whatever the SDK holds, a `connectEagerly` that starts initialisation
   * and resumes before `init()` settles rejects, because the connector has
   * not yet copied a provider.
   */
  lemma PendingConnectEagerlyFails(w: World)
    requires w.eagerConnection == Unassigned && w.provider == None
    ensures ConnectEagerly(w, None).0 == Failed(NoExistingConnection)
    ensures ConnectEagerly(w, None).1.actions.cancelCalls == w.actions.cancelCalls + 1
  {
  }

  /**
   * An `activate` that resumes before `init()` settles reads whatever
   * address the SDK already held: it succeeds exactly when that address is
   * truthy, so its outcome depends on the SDK's state at construction.
   */
  lemma PendingActivateReadsSdk(w: World)
    requires w.eagerConnection == Unassigned
    ensures Activate(w, None).0 == Done <==> Truthy(w.sdk.address)
    ensures Activate(w, None).1.sdk.address == w.sdk.address
  {
  }

  /**
   * On a fresh connector whose `init()` is still pending when the caller
   * resumes, `connectEagerly` rejects with NoExistingConnection and
   * `activate` with NoAddress; if `init()` resolves with an address before
   * the caller resumes, both succeed.
   */
  lemma FirstCallRacesInit(hasOnError: bool, address: string, p: Provider)
    requires address != ""
    ensures ConnectEagerly(Fresh(true, hasOnError), None).0 == Failed(NoExistingConnection)
    ensures Activate(Fresh(true, hasOnError), None).0 == Failed(NoAddress)
    ensures ConnectEagerly(Fresh(true, hasOnError), Some(InitSucceeded(Some(address), Some(p)))).0 == Done
    ensures Activate(Fresh(true, hasOnError), Some(InitSucceeded(Some(address), Some(p)))).0 == Done
  {
  }
}
