/** `RefreshContext`: a shared counter that components watch to reload.
    `refresh` bumps it; `useRefresh` fails outside a provider. */
module RefreshContext {
  import opened Wrappers

  const NoProviderMessage := "useRefresh must be used within a RefreshProvider"

  class RefreshProvider {
    var refreshKey: int
    /** How many times `refresh` has run since the provider mounted. */
    ghost var refreshCalls: nat

    ghost predicate Valid()
      reads this
    {
      refreshKey == refreshCalls
    }

    /** The provider mounts with `refreshKey` 0. */
    constructor ()
      ensures Valid() && refreshKey == 0 && refreshCalls == 0
    {
      refreshKey := 0;
      refreshCalls := 0;
    }

    /** `refresh`: the functional update `prev + 1`. */
    method Refresh()
      requires Valid()
      modifies this
      ensures Valid()
      ensures refreshKey == old(refreshKey) + 1
      ensures refreshCalls == old(refreshCalls) + 1
    {
      refreshKey := refreshKey + 1;
      refreshCalls := refreshCalls + 1;
    }
  }

  /** `useRefresh`: the context value, or the error thrown when no provider
      is above the caller. */
  function UseRefresh(context: Option<RefreshProvider>): (r: Result<RefreshProvider>)
    ensures r.Success? <==> context.Some?
    ensures r.Success? ==> r.value == context.value
    ensures r.Failure? ==> r.error == NoProviderMessage
  {
    match context
    case Some(p) => Success(p)
    case None => Failure(NoProviderMessage)
  }
}
