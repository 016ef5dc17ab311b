/** Values that the tracking provider returns, and the small wrappers the model uses
    for optional values and for calls that may fail. */
module Parcels {

  datatype Option<+T> = None | Some(value: T)

  datatype Result<+T, +E> = Success(value: T) | Failure(error: E)

  /** Timestamps of provider events. The diff only ever compares them with `==`. */
  type EventTime = int

  /** One status entry in a provider's timeline. */
  datatype TrackingEvent = TrackingEvent(time: EventTime, status: string, description: string)

  /** One provider's view of a parcel: its name and its ordered events. */
  datatype TrackingInfo = TrackingInfo(apiName: string, events: seq<TrackingEvent>)

  /** Why a fetch from the provider failed: the provider answered "not found",
      or the request, the transport or the decoding failed. */
  datatype FetchError = NoTrackingInfo | RequestFailed(reason: string)

  /** What one call to the provider returns. */
  type FetchResult = Result<seq<TrackingInfo>, FetchError>
}
