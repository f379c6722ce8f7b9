/** The `useGeolocation` hook: one state record that starts pending and settles once,
    to a position or to an error, with no retry. */
module UseGeolocation {
  import opened Platform

  datatype GeolocationState = GeolocationState(location: Option<Coordinates>, loading: bool, error: Option<string>)

  /** The state the hook starts in: nothing known yet, still loading. */
  const Initial := GeolocationState(None, true, None)

  const Unsupported := "Geolocation is not supported by your browser."
  const FailurePrefix := "Failed to get location: "

  /** What every reachable state satisfies: while loading, neither a location nor an
      error; once settled, exactly one of them; an error is never the empty string. */
  predicate Consistent(s: GeolocationState)
  {
    && (s.loading ==> s.location.None? && s.error.None?)
    && (!s.loading ==> (s.location.Some? <==> s.error.None?))
    && (s.error.Some? ==> s.error.value != "")
  }

  class GeolocationHook {
    var state: GeolocationState
    /** The mount effect has run (its dependency list is empty, so it runs once). */
    var mounted: bool
    /** How many times `getCurrentPosition` has been called. */
    ghost var positionRequests: nat

    ghost predicate Valid()
      reads this
    {
      && Consistent(state)
      && (!mounted ==> state == Initial && positionRequests == 0)
      && positionRequests <= 1
      && (mounted && state.loading ==> positionRequests == 1)
    }

    constructor ()
      ensures Valid()
      ensures state == Initial && !mounted && positionRequests == 0
    {
      state := Initial;
      mounted := false;
      positionRequests := 0;
    }

    /** The mount effect. Without geolocation support it settles at once on the
        "not supported" error and requests nothing; otherwise it requests the position
        once and keeps loading. Running it again changes nothing. */
    method RunMountEffect(supported: bool)
      requires Valid()
      modifies this
      ensures Valid()
      ensures old(mounted) ==> state == old(state) && positionRequests == old(positionRequests)
      ensures !old(mounted) && !supported ==>
        state == GeolocationState(None, false, Some(Unsupported)) && positionRequests == 0
      ensures !old(mounted) && supported ==> state == Initial && positionRequests == 1
      ensures mounted
    {
      if mounted {
        return;
      }
      mounted := true;
      if !supported {
        state := GeolocationState(None, false, Some(Unsupported));
        return;
      }
      // navigator.geolocation.getCurrentPosition(onSuccess, onError)
      positionRequests := positionRequests + 1;
    }

    /** The success callback: the position's coordinates, no longer loading, no error. */
    method OnSuccess(coords: Coordinates)
      requires Valid() && mounted && state.loading
      modifies this
      ensures Valid()
      ensures state == GeolocationState(Some(coords), false, None)
      ensures mounted && positionRequests == old(positionRequests) == 1
    {
      state := GeolocationState(Some(coords), false, None);
    }

    /** The error callback: no location, no longer loading, the browser's message prefixed. */
    method OnError(message: string)
      requires Valid() && mounted && state.loading
      modifies this
      ensures Valid()
      ensures state == GeolocationState(None, false, Some(FailurePrefix + message))
      ensures mounted && positionRequests == old(positionRequests) == 1
    {
      state := GeolocationState(None, false, Some(FailurePrefix + message));
    }
  }
}
