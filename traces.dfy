/**
 * Whole lifetimes of one connector: any sequence of UI calls, provider events
 * and changes of the SDK's address. A provider event reaches a handler only
 * while that handler is registered on the provider.
 */
module Traces {
  import opened Wrappers
  import opened Store
  import opened Sdk
  import opened ConnectorSpec

  /** An event the provider emits, with its payload. */
  datatype ProviderEvent =
    | DisconnectEvent(error: Option<RpcError>)
    | ChainChangedEvent(chainId: int)
    | AccountsChangedEvent(accounts: seq<string>)

  /**
   * One thing that can happen to a connector. A pending `init()` settles
   * either at the `await` of the call that is waiting (the `settle` of
   * CallActivate and CallConnectEagerly) or later, by InitSettles.
   */
  datatype Op =
    | Emit(event: ProviderEvent)
    | CallActivate(settle: Option<InitResult>)
    | CallConnectEagerly(settle: Option<InitResult>)
    | CallDeactivate
    | InitSettles(res: InitResult)
    | SdkAddressChanged(address: Option<string>)

  function NameOf(e: ProviderEvent): (name: EventName) {
    match e
    case DisconnectEvent(_) => Disconnect
    case ChainChangedEvent(_) => ChainChanged
    case AccountsChangedEvent(_) => AccountsChanged
  }

  /** The handler the connector registers for `e`, run on its payload. */
  function Handle(w: World, e: ProviderEvent): (r: World) {
    match e
    case DisconnectEvent(error) => OnDisconnect(w, error)
    case ChainChangedEvent(chainId) => OnChainChanged(w, chainId)
    case AccountsChangedEvent(accounts) => OnAccountsChanged(w, accounts)
  }

  function Step(w: World, op: Op): (r: World) {
    match op
    case Emit(e) => if NameOf(e) in w.sdk.listeners then Handle(w, e) else w
    case CallActivate(settle) => Activate(w, settle).1
    case CallConnectEagerly(settle) => ConnectEagerly(w, settle).1
    case CallDeactivate => Deactivate(w).1
    case InitSettles(res) => if w.eagerConnection == Pending then InitSettled(w, res) else w
    case SdkAddressChanged(address) => w.(sdk := w.sdk.(address := address))
  }

  function Run(w: World, ops: seq<Op>): (r: World)
    decreases |ops|
  {
    if ops == [] then w else Run(Step(w, ops[0]), ops[1..])
  }

  /** The initialisation promise has settled, either way. */
  predicate Settled(w: World) {
    w.eagerConnection == Resolved || w.eagerConnection == Rejected
  }

  /**
   * What holds of every connector in every lifetime: `init()` has been
   * called once exactly when `eagerConnection` is assigned, and never
   * without a window; the listeners were set up once exactly when `init()`
   * resolved, and none is registered before that; no handler is registered
   * twice; every `onError` call saw the reset store.
   */
  predicate Inv(w: World) {
    && (!w.hasWindow ==> w.eagerConnection == Unassigned)
    && w.sdk.initCalls == (if w.eagerConnection == Unassigned then 0 else 1)
    && w.setupCalls == (if w.eagerConnection == Resolved then 1 else 0)
    && (w.eagerConnection != Resolved ==> w.sdk.listeners == multiset{})
    && w.sdk.listeners <= AllEvents
    && forall i :: 0 <= i < |w.reported| ==> w.reported[i].observed == Baseline
  }

  lemma FreshKeepsInv(hasWindow: bool, hasOnError: bool)
    ensures Inv(Fresh(hasWindow, hasOnError))
  {
  }

  lemma InitSettledKeepsInv(w: World, res: InitResult)
    requires Inv(w) && w.eagerConnection == Pending
    ensures Inv(InitSettled(w, res))
  {
  }

  lemma AwaitInitializeKeepsInv(w: World, settle: Option<InitResult>)
    requires Inv(w)
    ensures Inv(AwaitInitialize(w, settle))
  {
    var i := IsomorphicInitialize(w);
    assert Inv(i);
    if i.eagerConnection == Pending && settle.Some? {
      InitSettledKeepsInv(i, settle.value);
    }
  }

  /** Inv does not depend on the store. */
  lemma InvIgnoresStore(w: World, a: ActionsState)
    ensures Inv(w.(actions := a)) == Inv(w)
  {
  }

  lemma ActivationKeepsInv(w: World, settle: Option<InitResult>)
    requires Inv(w)
    ensures Inv(Activate(w, settle).1) && Inv(ConnectEagerly(w, settle).1)
  {
    AwaitInitializeKeepsInv(w, settle);
    InvIgnoresStore(AwaitInitialize(w, settle), Activate(w, settle).1.actions);
    InvIgnoresStore(AwaitInitialize(w, settle), ConnectEagerly(w, settle).1.actions);
  }

  lemma HandleKeepsInv(w: World, e: ProviderEvent)
    requires Inv(w)
    ensures Inv(Handle(w, e))
  {
  }

  lemma DeactivateKeepsInv(w: World)
    requires Inv(w)
    ensures Inv(Deactivate(w).1)
  {
    assert Deactivate(w).1.sdk.listeners <= w.sdk.listeners;
  }

  lemma StepKeepsInv(w: World, op: Op)
    requires Inv(w)
    ensures Inv(Step(w, op))
  {
    match op
    case Emit(e) =>
      HandleKeepsInv(w, e);
    case CallActivate(settle) =>
      ActivationKeepsInv(w, settle);
    case CallConnectEagerly(settle) =>
      ActivationKeepsInv(w, settle);
    case CallDeactivate =>
      DeactivateKeepsInv(w);
    case InitSettles(res) =>
      if w.eagerConnection == Pending {
        InitSettledKeepsInv(w, res);
      }
    case SdkAddressChanged(address) =>
  }

  /** Once `init()` has settled, an activation of either kind leaves the SDK and the promise alone. */
  lemma ActivationAfterSettle(w: World, settle: Option<InitResult>)
    requires Settled(w)
    ensures Activate(w, settle).1.sdk == w.sdk && Activate(w, settle).1.eagerConnection == w.eagerConnection
    ensures ConnectEagerly(w, settle).1.sdk == w.sdk && ConnectEagerly(w, settle).1.eagerConnection == w.eagerConnection
  {
    assert AwaitInitialize(w, settle) == w;
  }

  /** A provider event changes neither the listeners nor the promise. */
  lemma HandleKeepsListeners(w: World, e: ProviderEvent)
    ensures Handle(w, e).sdk.listeners == w.sdk.listeners
    ensures Handle(w, e).eagerConnection == w.eagerConnection
  {
  }

  /** `deactivate` only ever removes listeners, and leaves the promise alone. */
  lemma DeactivateShrinks(w: World)
    ensures Deactivate(w).1.sdk.listeners <= w.sdk.listeners
    ensures Deactivate(w).1.eagerConnection == w.eagerConnection
  {
  }

  /** Once `init()` has settled, no step registers a listener or unsettles it. */
  lemma StepAfterSettleShrinks(w: World, op: Op)
    requires Settled(w)
    ensures Settled(Step(w, op)) && Step(w, op).sdk.listeners <= w.sdk.listeners
  {
    match op
    case Emit(e) =>
      HandleKeepsListeners(w, e);
    case CallActivate(settle) =>
      ActivationAfterSettle(w, settle);
    case CallConnectEagerly(settle) =>
      ActivationAfterSettle(w, settle);
    case CallDeactivate =>
      DeactivateShrinks(w);
    case InitSettles(res) =>
    case SdkAddressChanged(address) =>
  }

  lemma {:induction false} RunKeepsInv(w: World, ops: seq<Op>)
    requires Inv(w)
    ensures Inv(Run(w, ops))
    decreases |ops|
  {
    if ops != [] {
      StepKeepsInv(w, ops[0]);
      RunKeepsInv(Step(w, ops[0]), ops[1..]);
    }
  }

  /** The window and the error callback are fixed for a connector's lifetime. */
  lemma {:induction false} RunKeepsSettings(w: World, ops: seq<Op>)
    ensures Run(w, ops).hasWindow == w.hasWindow && Run(w, ops).hasOnError == w.hasOnError
    decreases |ops|
  {
    if ops != [] {
      RunKeepsSettings(Step(w, ops[0]), ops[1..]);
    }
  }

  /** Running two traces one after the other is running their concatenation. */
  lemma {:induction false} RunAppend(w: World, a: seq<Op>, b: seq<Op>)
    ensures Run(w, a + b) == Run(Run(w, a), b)
    decreases |a|
  {
    if a == [] {
      assert a + b == b;
    } else {
      assert (a + b)[1..] == a[1..] + b;
      RunAppend(Step(w, a[0]), a[1..], b);
    }
  }

  /**
   * In any lifetime of a connector, `init()` and `setupEventListeners` run at
   * most once, neither runs without a window, and no handler is ever
   * registered twice.
   */
  lemma AtMostOnce(hasWindow: bool, hasOnError: bool, ops: seq<Op>)
    ensures var w := Run(Fresh(hasWindow, hasOnError), ops);
      && w.sdk.initCalls <= 1
      && w.setupCalls <= 1
      && (!hasWindow ==> w.sdk.initCalls == 0 && w.setupCalls == 0)
  {
    FreshKeepsInv(hasWindow, hasOnError);
    RunKeepsInv(Fresh(hasWindow, hasOnError), ops);
    RunKeepsSettings(Fresh(hasWindow, hasOnError), ops);
  }

  lemma ListenersAtMostOnce(hasWindow: bool, hasOnError: bool, ops: seq<Op>, e: EventName)
    ensures Run(Fresh(hasWindow, hasOnError), ops).sdk.listeners[e] <= 1
  {
    FreshKeepsInv(hasWindow, hasOnError);
    RunKeepsInv(Fresh(hasWindow, hasOnError), ops);
    assert AllEvents[e] == 1;
  }

  /** No single step unassigns `eagerConnection`. */
  lemma StepKeepsStarted(w: World, op: Op)
    requires w.eagerConnection != Unassigned
    ensures Step(w, op).eagerConnection != Unassigned
  {
    match op
    case Emit(e) =>
    case CallActivate(settle) =>
      assert AwaitInitialize(w, settle).eagerConnection != Unassigned;
    case CallConnectEagerly(settle) =>
      assert AwaitInitialize(w, settle).eagerConnection != Unassigned;
    case CallDeactivate =>
    case InitSettles(res) =>
    case SdkAddressChanged(address) =>
  }

  /** Once `eagerConnection` is assigned it stays assigned. */
  lemma {:induction false} StartedStaysStarted(w: World, ops: seq<Op>)
    requires w.eagerConnection != Unassigned
    ensures Run(w, ops).eagerConnection != Unassigned
    decreases |ops|
  {
    if ops != [] {
      StepKeepsStarted(w, ops[0]);
      StartedStaysStarted(Step(w, ops[0]), ops[1..]);
    }
  }

  /**
   * With a window, the first activation of either kind calls `init()`, and
   * no later call does: whatever came before and after, it ran exactly once.
   */
  lemma ActivationInitializesOnce(hasOnError: bool, before: seq<Op>, op: Op, after: seq<Op>)
    requires op.CallActivate? || op.CallConnectEagerly?
    ensures Run(Fresh(true, hasOnError), before + [op] + after).sdk.initCalls == 1
  {
    var w0 := Fresh(true, hasOnError);
    var w1 := Run(w0, before);
    FreshKeepsInv(true, hasOnError);
    RunKeepsInv(w0, before);
    RunKeepsSettings(w0, before);
    assert Step(w1, op).eagerConnection != Unassigned;
    assert Run(w1, [op]) == Step(w1, op);
    RunAppend(w0, before, [op]);
    StartedStaysStarted(Step(w1, op), after);
    RunAppend(w0, before + [op], after);
    RunKeepsInv(w0, before + [op] + after);
  }

  /** After `init()` has settled, listeners can only be removed, never added again. */
  lemma {:induction false} ListenersNeverGrowAfterInit(w: World, ops: seq<Op>)
    requires Settled(w)
    ensures Run(w, ops).sdk.listeners <= w.sdk.listeners
    decreases |ops|
  {
    if ops != [] {
      var next := Step(w, ops[0]);
      StepAfterSettleShrinks(w, ops[0]);
      ListenersNeverGrowAfterInit(next, ops[1..]);
    }
  }

  /**
   * Once `init()` has settled, a connector whose provider has a working
   * `off` and that has been deactivated never receives a provider event
   * again, even after it is activated anew.
   */
  lemma DeafAfterDeactivate(w: World, ops: seq<Op>)
    requires Inv(w) && Settled(w)
    requires w.sdk.provider.Some? && w.sdk.provider.value.hasOff && !w.sdk.provider.value.offThrows
    ensures Run(Step(w, CallDeactivate), ops).sdk.listeners == multiset{}
  {
    var d := Step(w, CallDeactivate);
    StepKeepsInv(w, CallDeactivate);
    assert d.sdk.listeners == multiset{} by {
      forall e: EventName ensures d.sdk.listeners[e] == 0 {
        assert w.sdk.listeners[e] <= AllEvents[e];
      }
    }
    ListenersNeverGrowAfterInit(d, ops);
  }

  /** In every reachable state, deactivating twice is deactivating once. */
  lemma DeactivateTwice(hasWindow: bool, hasOnError: bool, ops: seq<Op>)
    ensures var w := Run(Fresh(hasWindow, hasOnError), ops);
      Step(Step(w, CallDeactivate), CallDeactivate) == Step(w, CallDeactivate)
  {
    FreshKeepsInv(hasWindow, hasOnError);
    RunKeepsInv(Fresh(hasWindow, hasOnError), ops);
    DeactivateIdempotent(Run(Fresh(hasWindow, hasOnError), ops));
  }

  /**
   * The store can hold an account without a chain: an eager connection that
   * finds no address, then an `accountsChanged` event.
   */
  lemma AccountsWithoutChain()
    ensures var w := Run(Fresh(true, false),
                         [CallConnectEagerly(Some(InitSucceeded(None, Some(Provider(true, true, false))))),
                          Emit(AccountsChangedEvent(["0xAA"]))]);
      w.actions.state == ConnectionState(None, ["0xAA"], false)
  {
    var w0 := Fresh(true, false);
    var ops := [CallConnectEagerly(Some(InitSucceeded(None, Some(Provider(true, true, false))))),
                Emit(AccountsChangedEvent(["0xAA"]))];
    var w1 := Step(w0, ops[0]);
    assert w1.sdk.listeners == AllEvents;
    assert w1.actions.state == Baseline;
    assert Run(w0, ops) == Run(w1, ops[1..]);
  }

  /**
   * A `deactivate` while `init()` is pending finds no listener to remove;
   * when `init()` then resolves with a provider that has `on`, the
   * continuation registers all three handlers after all.
   */
  lemma DeactivateWhilePending(w: World, res: InitResult)
    requires Inv(w) && w.eagerConnection == Pending
    requires res.InitSucceeded? && res.provider.Some? && res.provider.value.hasOn
    ensures Deactivate(w).1.sdk.listeners == multiset{}
    ensures Step(Step(w, CallDeactivate), InitSettles(res)).sdk.listeners == AllEvents
    ensures Deactivate(w).0 == Done ==> Step(Step(w, CallDeactivate), InitSettles(res)).actions.state == Baseline
  {
  }

  /**
   * A `deactivate` while `init()` is still pending does not keep the
   * listeners away: when `init()` later resolves, all three are registered.
   */
  lemma DeactivateBeforeInitSettles()
    ensures var w := Run(Fresh(true, false),
                         [CallActivate(None),
                          CallDeactivate,
                          InitSettles(InitSucceeded(Some("0xAA"), Some(Provider(true, true, false))))]);
      w.sdk.listeners == AllEvents && w.actions.state == Baseline
  {
    var w0 := Fresh(true, false);
    var ops := [CallActivate(None), CallDeactivate,
                InitSettles(InitSucceeded(Some("0xAA"), Some(Provider(true, true, false))))];
    var w1 := Step(w0, ops[0]);
    assert w1.eagerConnection == Pending && w1.sdk.listeners == multiset{};
    var w2 := Step(w1, ops[1]);
    assert w2.eagerConnection == Pending && w2.actions.state == Baseline;
    assert Run(w0, ops) == Run(w2, ops[2..]);
  }
}
