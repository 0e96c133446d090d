/** Values shared by every part of the chat model. */
module Basics {

  /** A JavaScript value that may be `null`. */
  datatype Option<+T> = None | Some(value: T)

  /** A point in time; the model never inspects it (milliseconds, a `Date` or an ISO string in the source). */
  type Timestamp = int

  /** The identifier PeerJS assigns to an endpoint once it opens. */
  type PeerId = string
}
