/**
 * The provider policy of `LocationHelper`: which providers
 * `requestLocationUpdates` subscribes to, and the `isGpsAvailable` test.
 *
 * The platform's `LocationManager` is modelled as an object whose answers
 * (which providers exist, which one is "best") are fixed inputs and whose
 * only changing state is the list of subscriptions it has accepted.
 */
module LocationUpdates {
  import opened Wrappers

  /** `LocationManager.GPS_PROVIDER` and `LocationManager.NETWORK_PROVIDER`. */
  const GPS_PROVIDER: string := "gps"
  const NETWORK_PROVIDER: string := "network"

  /** `MIN_UPDATE_TIME` (milliseconds) and `MIN_DISTANCE` (metres). */
  const MIN_UPDATE_TIME: int := 3000
  const MIN_DISTANCE: int := 10

  /** The identity of a `LocationListener`. */
  datatype Listener = Listener(id: nat)

  /** One accepted call of `LocationManager.requestLocationUpdates`. */
  datatype Subscription = Subscription(provider: string, minTime: int, minDistance: int, listener: Listener)

  /** The platform location service, reduced to what the helper asks of it. */
  class LocationManager {
    /** Names for which `getProvider` returns a provider (whose name is that name). */
    const providers: set<string>
    /** What `getBestProvider(criteria, true)` answers for fine accuracy;
        `None` is the platform's `null`. */
    const bestProvider: Option<string>
    /** Subscriptions accepted so far, oldest first. */
    var subscriptions: seq<Subscription>

    constructor (providers: set<string>, bestProvider: Option<string>)
      ensures this.providers == providers && this.bestProvider == bestProvider
      ensures subscriptions == []
    {
      this.providers := providers;
      this.bestProvider := bestProvider;
      subscriptions := [];
    }

    /** `getProvider(name)`: the provider's name, or `None` for `null`. */
    function GetProvider(name: string): (r: Option<string>)
      ensures r.Some? <==> name in providers
      ensures r.Some? ==> r.value == name
    {
      if name in providers then Some(name) else None
    }

    /** `requestLocationUpdates(provider, minTime, minDistance, listener)`. */
    method RequestLocationUpdates(provider: string, minTime: int, minDistance: int, listener: Listener)
      modifies this
      ensures subscriptions == old(subscriptions) + [Subscription(provider, minTime, minDistance, listener)]
    {
      subscriptions := subscriptions + [Subscription(provider, minTime, minDistance, listener)];
    }
  }

  /** How `LocationHelper.requestLocationUpdates` ends. */
  datatype UpdatesOutcome =
    | Requested              // returned normally
    | GpsNotAvailableNotice  // no manager: a "GPS not available" notice is shown
    | NoBestProvider         // the best provider is null: an exception escapes

  /** The subscriptions `requestLocationUpdates` makes, in order: the best
      provider if it exists, then the network provider when the best one is
      not the network provider and a network provider exists. */
  function PlannedSubscriptions(providers: set<string>, bestProvider: Option<string>, listener: Listener)
    : (r: seq<Subscription>)
    ensures |r| <= 2
    ensures forall i :: 0 <= i < |r| ==>
      r[i].minTime == MIN_UPDATE_TIME && r[i].minDistance == MIN_DISTANCE &&
      r[i].listener == listener && r[i].provider in providers
    ensures forall i, j :: 0 <= i < j < |r| ==> r[i].provider != r[j].provider
    ensures bestProvider.None? ==> r == []
    ensures bestProvider.Some? && bestProvider.value in providers ==>
      |r| > 0 && r[0].provider == bestProvider.value
    ensures (exists i :: 0 <= i < |r| && r[i].provider == NETWORK_PROVIDER) <==>
      NETWORK_PROVIDER in providers && bestProvider.Some?
    ensures forall i :: 0 <= i < |r| ==>
      r[i].provider == NETWORK_PROVIDER || Some(r[i].provider) == bestProvider
  {
    match bestProvider
    case None => []
    case Some(best) =>
      var first := if best in providers then [Subscription(best, MIN_UPDATE_TIME, MIN_DISTANCE, listener)] else [];
      var second := if best != NETWORK_PROVIDER && NETWORK_PROVIDER in providers
                    then [Subscription(NETWORK_PROVIDER, MIN_UPDATE_TIME, MIN_DISTANCE, listener)] else [];
      var r := first + second;
      assert NETWORK_PROVIDER in providers ==>
        r[if best == NETWORK_PROVIDER then 0 else |first|].provider == NETWORK_PROVIDER;
      r
  }

  /** `LocationHelper.requestLocationUpdates(context, locationManager, listener)`. */
  method RequestLocationUpdates(lm: LocationManager?, listener: Listener) returns (outcome: UpdatesOutcome)
    modifies lm
    ensures lm == null ==> outcome == GpsNotAvailableNotice
    ensures lm != null ==> (outcome == NoBestProvider <==> lm.bestProvider.None?)
    ensures lm != null ==> outcome != GpsNotAvailableNotice
    ensures lm != null ==>
      lm.subscriptions == old(lm.subscriptions) + PlannedSubscriptions(lm.providers, lm.bestProvider, listener)
  {
    if lm == null {
      return GpsNotAvailableNotice;
    }
    if lm.bestProvider.None? {
      // getProvider(null) rejects its argument, and even past it the
      // comparison with the network provider's name dereferences null
      return NoBestProvider;
    }
    var providerType := lm.bestProvider.value;
    var provider := lm.GetProvider(providerType);
    if provider.Some? {
      lm.RequestLocationUpdates(provider.value, MIN_UPDATE_TIME, MIN_DISTANCE, listener);
    }
    if providerType != NETWORK_PROVIDER {
      provider := lm.GetProvider(NETWORK_PROVIDER);
      if provider.Some? {
        lm.RequestLocationUpdates(provider.value, MIN_UPDATE_TIME, MIN_DISTANCE, listener);
      }
    }
    outcome := Requested;
  }

  /** The network provider supplements the best one exactly when the best
      one is something else. */
  lemma NetworkAddedUnlessBest(providers: set<string>, best: string, listener: Listener)
    requires best in providers && NETWORK_PROVIDER in providers
    ensures |PlannedSubscriptions(providers, Some(best), listener)| == if best == NETWORK_PROVIDER then 1 else 2
  {
  }

  /** The state `isGpsAvailable` reads from a location manager. */
  datatype ProviderStates = ProviderStates(enabled: set<string>)

  /** `isGpsAvailable`: the manager is only looked up when the device
      declares the GPS feature; then GPS or network must be enabled. */
  function IsGpsAvailable(hasGpsFeature: bool, locationService: Option<ProviderStates>): (r: bool)
    ensures !hasGpsFeature ==> !r
    ensures locationService.None? ==> !r
    ensures r <==> (hasGpsFeature && locationService.Some? &&
                    (GPS_PROVIDER in locationService.value.enabled || NETWORK_PROVIDER in locationService.value.enabled))
  {
    var locationManager := if hasGpsFeature then locationService else None;
    locationManager.Some? &&
      (GPS_PROVIDER in locationManager.value.enabled || NETWORK_PROVIDER in locationManager.value.enabled)
  }

  /** Enabling more providers never makes GPS unavailable. */
  lemma GpsAvailableMonotone(hasGpsFeature: bool, s: set<string>, t: set<string>)
    requires s <= t
    requires IsGpsAvailable(hasGpsFeature, Some(ProviderStates(s)))
    ensures IsGpsAvailable(hasGpsFeature, Some(ProviderStates(t)))
  {
  }
}
