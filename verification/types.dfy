/**
 Shared vocabulary of the model: bytes, the Rust-style `Result`, network
 addresses, opaque I/O errors and monotonic instants.
 */
module Types {

  /** One octet on the wire or in a buffer. */
  newtype byte = x: int | 0 <= x < 256

  /** Rust's `Option<T>`. */
  datatype Option<+T> = None | Some(value: T)

  /** The `Result<T, E>` the program returns from fallible operations. */
  datatype Result<+T, +E> = Ok(value: T) | Err(error: E)

  /** An error reported by the operating system; its contents are never inspected. */
  datatype IoError = IoError(code: int)

  /** A socket address: host octets plus a port. */
  datatype SocketAddr = SocketAddr(host: seq<byte>, port: nat)

  /** A monotonic instant, in nanoseconds since an arbitrary origin. */
  type Instant = nat

  const NanosPerSecond: nat := 1_000_000_000

  /** `Instant::elapsed`: the time from `since` to `now`, saturating at zero
      when `now` is earlier, as the standard library does. */
  function Elapsed(since: Instant, now: Instant): (d: nat)
    ensures now >= since ==> since + d == now
    ensures now < since ==> d == 0
  {
    if now >= since then now - since else 0
  }

  /** Concatenation of a sequence of byte strings, in order. */
  function Concat(parts: seq<seq<byte>>): seq<byte>
  {
    if |parts| == 0 then [] else parts[0] + Concat(parts[1..])
  }
}
