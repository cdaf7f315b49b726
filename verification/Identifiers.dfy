/** Identifiers, tokens and wall-clock times shared by the durable tables. */
module Identifiers {

  /** Opaque identifiers, ordered as their text is. */
  type JobId = nat
  type SessionId = nat
  type TopicId = nat
  type StopId = nat

  /** A UUID handed to exactly one holder; its SHA-256 digest is injective, so a row keeps the token. */
  type Token = nat

  /** Wall clock in microseconds; UTC isoformat text has the same order. */
  type Wall = int

  const SECOND: Wall := 1_000_000
}
