/** Value types shared by every component of the stack server. */
module Types {

  /** One octet on the wire. */
  type byte = bv8

  /** A payload held by the stack: an immutable byte sequence. */
  type Payload = seq<byte>

  /** Identity of a connection (a UUID in the server; only equality matters). */
  type ConnId = nat

  /** Identity of a one-shot notification channel a waiter blocks on. */
  type ChanId = nat

  /** A point in time, in nanoseconds. */
  type Time = int

  datatype Option<+T> = None | Some(value: T)
}
