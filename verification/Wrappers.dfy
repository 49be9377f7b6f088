/** Small types that several modules use. */
module Wrappers {

  datatype Option<T> = None | Some(value: T)

  type byte = x: int | 0 <= x < 256

  /** The types of an XMPP presence. */
  datatype PresenceType = Available | Error | Probe | Subscribe | Subscribed | Unavailable | Unsubscribe | Unsubscribed
}
