/**
 * The geocoding paths of `LocationHelper`: address text to map point
 * (`getGeoPointByAddressString`), map point to address
 * (`GetLocationByGeoPointTask.call` run under `getAddressByCoordinates`),
 * and the string form of the latter (`getAddressStringByCoordinates`).
 *
 * The geocoder's reply to a request for one result is an input: a list,
 * `null`, or the `IOException` it threw. How a wait on the background task
 * ended is an input too; no thread is modelled.
 */
module Geocoding {
  import opened Wrappers
  import opened MicroDegrees
  import opened AddressRendering

  /** Message of the exception raised when the geocoder finds nothing. */
  const NO_ADDRESS_FOUND: string := "No address found"

  /** What the geocoder answered: a result list, `null` (which the platform
      allows when nothing is found or no geocoding backend exists), or the
      `IOException` it threw. */
  datatype GeocoderReply =
    | Results(addresses: seq<Address>)
    | NullList
    | ThrewIo(message: string)

  /** The reply holds at least one address. */
  predicate HasResult(reply: GeocoderReply) {
    reply.Results? && |reply.addresses| > 0
  }

  /** The exception `getGeoPointByAddressString` lets escape. */
  datatype GeocodeError =
    | IoException(message: string)  // the geocoder's, or "No address found"
    | NullPointer                   // `isEmpty()` called on a `null` list

  /** `getGeoPointByAddressString`: the first result's coordinates, each
      scaled by a million and cast with `Double.intValue()`; an exception
      from the geocoder is rethrown, an empty list throws
      "No address found", and a `null` list fails on `isEmpty()`. */
  function GetGeoPointByAddressString(reply: GeocoderReply): (r: Result<GeoPoint, GeocodeError>)
    ensures reply.ThrewIo? ==> r == Failure(IoException(reply.message))
    ensures reply.Results? && |reply.addresses| == 0 ==> r == Failure(IoException(NO_ADDRESS_FOUND))
    ensures reply.NullList? ==> r == Failure(NullPointer)
    ensures r.Success? <==> HasResult(reply)
    ensures r.Success? ==>
      r.value == GetGeoPoint(Location(reply.addresses[0].latitude, reply.addresses[0].longitude))
  {
    match reply
    case ThrewIo(message) => Failure(IoException(message))
    case NullList => Failure(NullPointer)
    case Results(addresses) =>
      if |addresses| == 0 then Failure(IoException(NO_ADDRESS_FOUND))
      else
        var address := addresses[0];
        Success(GeoPoint(JavaIntCast(address.latitude * MILLION), JavaIntCast(address.longitude * MILLION)))
  }

  /** Only the first result matters: replies that agree on it give the same point. */
  lemma FirstResultWins(a: Address, rest1: seq<Address>, rest2: seq<Address>)
    ensures GetGeoPointByAddressString(Results([a] + rest1)) == GetGeoPointByAddressString(Results([a] + rest2))
  {
  }

  /** For a valid coordinate, the point found for an address truncates the
      address's coordinates toward zero. */
  lemma AddressPointTruncates(reply: GeocoderReply)
    requires HasResult(reply)
    requires ValidLocation(Location(reply.addresses[0].latitude, reply.addresses[0].longitude))
    ensures GetGeoPointByAddressString(reply).Success?
    ensures Abs(GetGeoPointByAddressString(reply).value.latitudeE6 as real - reply.addresses[0].latitude * MILLION) < 1.0
    ensures Abs(GetGeoPointByAddressString(reply).value.longitudeE6 as real - reply.addresses[0].longitude * MILLION) < 1.0
  {
    TruncationBounds(reply.addresses[0].latitude * MILLION);
    TruncationBounds(reply.addresses[0].longitude * MILLION);
  }

  /** Why `GetLocationByGeoPointTask.call` threw. */
  datatype TaskError =
    | GeocoderFailed(message: string)  // the geocoder's `IOException`, rethrown
    | IndexOutOfBounds                 // `addresses.get(0)` on an empty list
    | NullDereference                  // `addresses.get(0)` on a `null` list

  /** `GetLocationByGeoPointTask.call`: element 0 of the reply. */
  function GetLocationByGeoPointTask(reply: GeocoderReply): (r: Result<Address, TaskError>)
    ensures r.Success? <==> HasResult(reply)
    ensures r.Success? ==> r.value == reply.addresses[0]
    ensures reply.ThrewIo? ==> r == Failure(GeocoderFailed(reply.message))
    ensures reply.Results? && |reply.addresses| == 0 ==> r == Failure(IndexOutOfBounds)
    ensures reply.NullList? ==> r == Failure(NullDereference)
  {
    match reply
    case ThrewIo(message) => Failure(GeocoderFailed(message))
    case NullList => Failure(NullDereference)
    case Results(addresses) => if |addresses| == 0 then Failure(IndexOutOfBounds) else Success(addresses[0])
  }

  /** How the caller's `get` on the task's future ended. */
  datatype WaitEnd =
    | TaskFinished  // the task completed (normally or by throwing) in time
    | WaitInterrupted  // the waiting thread was interrupted
    | WaitTimedOut  // the five-second deadline passed first

  /** What `FutureTask.get` delivers. */
  datatype FutureOutcome =
    | Done(address: Address)   // the value the task returned
    | Interrupted              // `InterruptedException`
    | Failed(cause: TaskError) // `ExecutionException` wrapping the task's exception
    | TimedOut                 // `TimeoutException`

  /** The outcome of `get` given the task's own result and how the wait ended. */
  function Await(task: Result<Address, TaskError>, end: WaitEnd): (r: FutureOutcome)
    ensures r.Done? <==> end == TaskFinished && task.Success?
    ensures r.Done? ==> r.address == task.value
    ensures r.Failed? <==> end == TaskFinished && task.Failure?
    ensures r.Failed? ==> r.cause == task.error
    ensures r.Interrupted? <==> end == WaitInterrupted
    ensures r.TimedOut? <==> end == WaitTimedOut
  {
    match end
    case TaskFinished => (match task case Success(a) => Done(a) case Failure(e) => Failed(e))
    case WaitInterrupted => Interrupted
    case WaitTimedOut => TimedOut
  }

  /** What `getAddressByCoordinates` returns, and whether it cancels the task. */
  datatype AddressLookup = AddressLookup(address: Option<Address>, cancelsTask: bool)

  /** `getAddressByCoordinates`: the task's address on normal completion;
      `null` after an interruption (which also cancels the task), a failure
      of the task, or the timeout (which leaves the task running). */
  function GetAddressByCoordinates(outcome: FutureOutcome): (r: AddressLookup)
    ensures r.address.Some? <==> outcome.Done?
    ensures outcome.Done? ==> r.address == Some(outcome.address)
    ensures r.cancelsTask <==> outcome.Interrupted?
  {
    match outcome
    case Done(a) => AddressLookup(Some(a), false)
    case Interrupted => AddressLookup(None, true)
    case Failed(_) => AddressLookup(None, false)
    case TimedOut => AddressLookup(None, false)
  }

  /** End to end: an address comes back exactly when the task finished in
      time and the geocoder returned a non-empty list, and then it is that
      list's first element. Every failure, an empty or `null` list
      included, reads as `null`. */
  lemma AddressByCoordinatesEndToEnd(reply: GeocoderReply, end: WaitEnd)
    ensures GetAddressByCoordinates(Await(GetLocationByGeoPointTask(reply), end)).address ==
      if end == TaskFinished && HasResult(reply) then Some(reply.addresses[0]) else None
  {
    var task := GetLocationByGeoPointTask(reply);
    var outcome := Await(task, end);
    if end == TaskFinished && HasResult(reply) {
      assert outcome == Done(reply.addresses[0]);
    } else {
      assert !outcome.Done?;
    }
  }

  // --- getAddressStringByCoordinates -----------------------------------------

  /** `getAddressStringByCoordinates` as written: its task is created but
      never run, so `get()` can only end by an interruption, after which the
      rendering of `null` is returned. `None` stands for a call that never
      returns. */
  function AddressStringByCoordinatesAsWritten(interrupted: bool): (r: Option<string>)
    ensures r.Some? <==> interrupted
    ensures r.Some? ==> r.value == ""
  {
    if interrupted then Some(Render(None)) else None
  }

  /** Whatever the geocoder would have said, the method as written never
      returns an address: it blocks, or returns the empty string. */
  lemma AsWrittenNeverReturnsAnAddress(a: Address)
    requires Render(Some(a)) != ""
    ensures AddressStringByCoordinatesAsWritten(false) == None
    ensures forall interrupted: bool :: AddressStringByCoordinatesAsWritten(interrupted) != Some(Render(Some(a)))
  {
  }

  /** The concrete case: a geocoder that answers "Main St" is never heard. */
  lemma AsWrittenCounterexample()
    ensures Render(Some(Address(map[0 := "Main St"], 0.0, 0.0))) == "Main St"
    ensures AddressStringByCoordinatesAsWritten(false) == None
    ensures AddressStringByCoordinatesAsWritten(true) == Some("")
  {
    var a := Address(map[0 := "Main St"], 0.0, 0.0);
    RenderThreeTurns(a);
    assert AddressLine(a, 0) == Some("Main St");
    assert AddressLine(a, 1) == None && AddressLine(a, 2) == None;
    assert "" + "Main St" == "Main St";
  }

  /** `getAddressStringByCoordinates` with its task started, as evidently
      intended: an untimed wait, then the rendering of the address the
      task produced, or of `null` after an interruption or failure. */
  function AddressStringByCoordinates(reply: GeocoderReply, interrupted: bool): (r: string)
    ensures !interrupted && HasResult(reply) ==> r == Render(Some(reply.addresses[0]))
    ensures interrupted || !HasResult(reply) ==> r == ""
  {
    var end := if interrupted then WaitInterrupted else TaskFinished;
    Render(GetAddressByCoordinates(Await(GetLocationByGeoPointTask(reply), end)).address)
  }
}
