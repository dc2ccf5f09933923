/**
 * The Intersend SDK client the connector drives. Its internals are not part
 * of this model: it is an optional address, an optional provider handle, a
 * count of `init()` calls and the provider's table of this connector's
 * listeners. A call of `init()` and the settling of the promise it returns
 * are two separate steps; how it settles is a parameter.
 */
module Sdk {
  import opened Wrappers

  /** The three provider events the connector listens to. */
  datatype EventName = Disconnect | ChainChanged | AccountsChanged

  /** The handle `getProvider()` returns: `on` and `off` may be missing, and its `off` may throw. */
  datatype Provider = Provider(hasOn: bool, hasOff: bool, offThrows: bool)

  /** How the promise of one `init()` call settles: rejected, or resolved with the client's new address and provider. */
  datatype InitResult = InitFailed | InitSucceeded(address: Option<string>, provider: Option<Provider>)

  /** The client's observable state; `listeners` counts registrations per event, as an event emitter does. */
  datatype SdkState = SdkState(address: Option<string>, provider: Option<Provider>, initCalls: nat, listeners: multiset<EventName>)

  /** The client before anything has been initialised. */
  const Uninitialized := SdkState(None, None, 0, multiset{})

  /** JavaScript truthiness of what `getAddress()` returns: `undefined` and `""` are falsy. */
  predicate Truthy(address: Option<string>) {
    address.Some? && address.value != ""
  }

  /** The client just after `init()` was called, its promise still pending. */
  function InitCalled(s: SdkState): (r: SdkState) {
    s.(initCalls := s.initCalls + 1)
  }

  /** The client once the promise of `init()` has settled as `res`. */
  function Initialized(s: SdkState, res: InitResult): (r: SdkState) {
    match res
    case InitFailed => s
    case InitSucceeded(address, provider) => s.(address := address, provider := provider)
  }

  /** The SDK client singleton. */
  class SdkClient {
    var address: Option<string>
    var provider: Option<Provider>
    var initCalls: nat
    var listeners: multiset<EventName>

    function Snapshot(): (s: SdkState)
      reads this
    {
      SdkState(address, provider, initCalls, listeners)
    }

    constructor ()
      ensures Snapshot() == Uninitialized
    {
      address, provider, initCalls, listeners := None, None, 0, multiset{};
    }

    /** A call of `init()`; its promise settles later, by `Settle`. */
    method Init()
      modifies this
      ensures Snapshot() == InitCalled(old(Snapshot()))
    {
      initCalls := initCalls + 1;
    }

    /** The promise of `init()` settles; `resolved` is false when it rejects. */
    method Settle(res: InitResult) returns (resolved: bool)
      modifies this
      ensures resolved == res.InitSucceeded?
      ensures Snapshot() == Initialized(old(Snapshot()), res)
    {
      resolved := res.InitSucceeded?;
      if resolved {
        address, provider := res.address, res.provider;
      }
    }

    method GetAddress() returns (a: Option<string>)
      ensures a == address
    {
      a := address;
    }

    method GetProvider() returns (p: Option<Provider>)
      ensures p == provider
    {
      p := provider;
    }

    /** `provider.on(e, handler)` for the connector's handler of `e`. */
    method On(e: EventName)
      modifies this
      ensures Snapshot() == old(Snapshot()).(listeners := old(listeners) + multiset{e})
    {
      listeners := listeners + multiset{e};
    }

    /**
     * `provider.off(e, handler)`: removes one registration of the
     * connector's handler of `e`, unless the provider's `off` throws.
     */
    method Off(e: EventName) returns (thrown: bool)
      modifies this
      ensures thrown == (provider.Some? && provider.value.offThrows)
      ensures Snapshot() == if thrown then old(Snapshot())
                            else old(Snapshot()).(listeners := old(listeners) - multiset{e})
    {
      thrown := provider.Some? && provider.value.offThrows;
      if !thrown {
        listeners := listeners - multiset{e};
      }
    }
  }
}
