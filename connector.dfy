/**
 * The IntersendAuth connector as the object it is: its own fields, the store
 * it was constructed with and the SDK client it drives, all changed in place.
 * Every method is proved to take the world exactly where the matching
 * function of ConnectorSpec says.
 */
module Connector {
  import opened Wrappers
  import opened Store
  import opened Sdk
  import S = ConnectorSpec

  class IntersendAuth {
    /** The store injected at construction. */
    const actions: Actions
    /** The SDK client singleton. */
    const sdk: SdkClient
    /** Whether `window` is defined (false during server-side rendering). */
    const hasWindow: bool
    /** Whether an `onError` callback was supplied. */
    const hasOnError: bool

    /** The `eagerConnection` promise, if assigned, and how it has settled. */
    var eagerConnection: S.EagerConnection
    /** The provider copied from the SDK after a resolved `init()`. */
    var provider: Option<Provider>
    /** How often `setupEventListeners` has run. */
    var setupCalls: nat
    /** The calls of `onError` so far. */
    var reported: seq<S.ErrorReport>

    function Snapshot(): (w: S.World)
      reads this, actions, sdk
    {
      S.World(hasWindow, hasOnError, eagerConnection, provider, setupCalls, reported, sdk.Snapshot(), actions.Snapshot())
    }

    constructor (actions: Actions, sdk: SdkClient, hasWindow: bool, hasOnError: bool)
      ensures this.actions == actions && this.sdk == sdk
      ensures Snapshot() == S.World(hasWindow, hasOnError, S.Unassigned, None, 0, [], sdk.Snapshot(), actions.Snapshot())
    {
      this.actions := actions;
      this.sdk := sdk;
      this.hasWindow := hasWindow;
      this.hasOnError := hasOnError;
      eagerConnection := S.Unassigned;
      provider := None;
      setupCalls := 0;
      reported := [];
    }

    method OnDisconnect(error: Option<S.RpcError>)
      modifies this, actions
      ensures Snapshot() == S.OnDisconnect(old(Snapshot()), error)
    {
      actions.ResetState();
      if error.Some? && hasOnError {
        reported := reported + [S.ErrorReport(error.value, actions.state)];
      }
    }

    method OnChainChanged(chainId: int)
      modifies actions
      ensures Snapshot() == S.OnChainChanged(old(Snapshot()), chainId)
    {
      actions.Update(StateUpdate(Some(chainId), None));
    }

    method OnAccountsChanged(accounts: seq<string>)
      modifies actions
      ensures Snapshot() == S.OnAccountsChanged(old(Snapshot()), accounts)
    {
      if |accounts| == 0 {
        actions.ResetState();
      } else {
        actions.Update(StateUpdate(None, Some(accounts)));
      }
    }

    method SetupEventListeners()
      modifies this, sdk
      ensures Snapshot() == S.SetupEventListeners(old(Snapshot()))
    {
      var p := sdk.GetProvider();
      if p.Some? {
        if p.value.hasOn {
          sdk.On(Disconnect);
          sdk.On(ChainChanged);
          sdk.On(AccountsChanged);
        }
      }
      setupCalls := setupCalls + 1;
    }

    method RemoveEventListeners() returns (outcome: S.Outcome)
      modifies sdk
      ensures (outcome, Snapshot()) == S.RemoveEventListeners(old(Snapshot()))
    {
      var p := sdk.GetProvider();
      if p.Some? {
        if p.value.hasOff {
          var thrown := sdk.Off(Disconnect);
          if thrown {
            return S.Failed(S.OffThrew);
          }
          // The same provider's `off` does not throw on the next two calls either.
          thrown := sdk.Off(ChainChanged);
          assert !thrown;
          thrown := sdk.Off(AccountsChanged);
          assert !thrown;
        }
      }
      outcome := S.Done;
    }

    /** Calls `init()` at most once and does not wait for its promise. */
    method IsomorphicInitialize()
      modifies this, sdk
      ensures Snapshot() == S.IsomorphicInitialize(old(Snapshot()))
    {
      if eagerConnection != S.Unassigned {
        return;
      }
      if hasWindow {
        sdk.Init();
        eagerConnection := S.Pending;
      }
    }

    /** The continuation of the initialisation promise once `init()` has settled as `res`. */
    method InitSettled(res: InitResult)
      requires eagerConnection == S.Pending
      modifies this, sdk
      ensures Snapshot() == S.InitSettled(old(Snapshot()), res)
    {
      var resolved := sdk.Settle(res);
      if !resolved {
        eagerConnection := S.Rejected;
        return;
      }
      provider := sdk.GetProvider();
      SetupEventListeners();
      eagerConnection := S.Resolved;
    }

    /** The `connected` getter. */
    function Connected(): (r: bool)
      reads this, actions, sdk
      ensures r == S.Connected(Snapshot())
    {
      Truthy(sdk.address)
    }

    /** `settle` says whether and how a pending `init()` settles at the `await`. */
    method Activate(settle: Option<InitResult>) returns (outcome: S.Outcome)
      modifies this, actions, sdk
      ensures (outcome, Snapshot()) == S.Activate(old(Snapshot()), settle)
    {
      actions.StartActivation();
      IsomorphicInitialize();
      if eagerConnection == S.Pending && settle.Some? {
        InitSettled(settle.value);
      }
      var address := sdk.GetAddress();
      if !Truthy(address) {
        actions.CancelActivation();
        return S.Failed(S.NoAddress);
      }
      actions.Update(StateUpdate(Some(S.DefaultChainId), Some([address.value])));
      outcome := S.Done;
    }

    /** `settle` says whether and how a pending `init()` settles at the `await`. */
    method ConnectEagerly(settle: Option<InitResult>) returns (outcome: S.Outcome)
      modifies this, actions, sdk
      ensures (outcome, Snapshot()) == S.ConnectEagerly(old(Snapshot()), settle)
    {
      actions.StartActivation();
      IsomorphicInitialize();
      if eagerConnection == S.Pending && settle.Some? {
        InitSettled(settle.value);
      }
      if provider.None? || !Connected() {
        actions.CancelActivation();
        return S.Failed(S.NoExistingConnection);
      }
      var address := sdk.GetAddress();
      // The second "no address" check can never throw: `connected` just read the same address.
      assert Truthy(address);
      actions.Update(StateUpdate(Some(S.DefaultChainId), Some([address.value])));
      outcome := S.Done;
    }

    method Deactivate() returns (outcome: S.Outcome)
      modifies actions, sdk
      ensures (outcome, Snapshot()) == S.Deactivate(old(Snapshot()))
    {
      outcome := RemoveEventListeners();
      if outcome.Failed? {
        return;
      }
      actions.ResetState();
    }
  }
}
