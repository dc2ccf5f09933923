/**
 * The connection-state store a connector reports into (the `Actions` object
 * of @web3-react). Its implementation is not part of this model; this module
 * states the contract the connector relies on, first on values and then as
 * the mutable object the connector is handed at construction.
 */
module Store {
  import opened Wrappers

  /** What the UI reads: the active chain, the ordered accounts, the loading flag. */
  datatype ConnectionState = ConnectionState(chainId: Option<int>, accounts: seq<string>, activating: bool)

  /** The argument of `update`: a field left `None` is not touched. */
  datatype StateUpdate = StateUpdate(chainId: Option<int>, accounts: Option<seq<string>>)

  /** The store's state, and how often a cancellation token has been invoked. */
  datatype ActionsState = ActionsState(state: ConnectionState, cancelCalls: nat)

  /** The disconnected state `resetState` returns to. */
  const Baseline := ConnectionState(None, [], false)

  /** The store at process start. */
  const Initial := ActionsState(Baseline, 0)

  /** `isActive`, as the UI derives it. */
  predicate IsActive(s: ConnectionState) {
    |s.accounts| > 0
  }

  /** `startActivation`: raise the loading flag. */
  function Started(a: ActionsState): (r: ActionsState) {
    a.(state := a.state.(activating := true))
  }

  /** The cancellation token `startActivation` returns: lower the loading flag. */
  function Cancelled(a: ActionsState): (r: ActionsState) {
    ActionsState(a.state.(activating := false), a.cancelCalls + 1)
  }

  /**
   * `update`: a field-wise merge, last write wins; the loading flag is
   * cleared once the merged state has both a chain and an account.
   */
  function Merged(a: ActionsState, u: StateUpdate): (r: ActionsState) {
    var chainId := if u.chainId.Some? then u.chainId else a.state.chainId;
    var accounts := if u.accounts.Some? then u.accounts.value else a.state.accounts;
    a.(state := ConnectionState(chainId, accounts, a.state.activating && !(chainId.Some? && |accounts| > 0)))
  }

  /** `resetState`: back to the baseline. */
  function Reset(a: ActionsState): (r: ActionsState) {
    a.(state := Baseline)
  }

  /** The store object, one per connector, changed in place by the connector. */
  class Actions {
    var state: ConnectionState
    var cancelCalls: nat

    function Snapshot(): (s: ActionsState)
      reads this
    {
      ActionsState(state, cancelCalls)
    }

    constructor ()
      ensures Snapshot() == Initial
    {
      state := Baseline;
      cancelCalls := 0;
    }

    method StartActivation()
      modifies this
      ensures Snapshot() == Started(old(Snapshot()))
    {
      state := state.(activating := true);
    }

    method CancelActivation()
      modifies this
      ensures Snapshot() == Cancelled(old(Snapshot()))
    {
      state := state.(activating := false);
      cancelCalls := cancelCalls + 1;
    }

    method Update(u: StateUpdate)
      modifies this
      ensures Snapshot() == Merged(old(Snapshot()), u)
    {
      var chainId := if u.chainId.Some? then u.chainId else state.chainId;
      var accounts := if u.accounts.Some? then u.accounts.value else state.accounts;
      var activating := state.activating;
      if activating && chainId.Some? && |accounts| > 0 {
        activating := false;
      }
      state := ConnectionState(chainId, accounts, activating);
    }

    method ResetState()
      modifies this
      ensures Snapshot() == Reset(old(Snapshot()))
    {
      state := Baseline;
    }
  }
}
