/** A value that may be missing. */
module Options {
  datatype Option<+T> = None | Some(value: T)
}

/** Transport addresses, 5-tuples and channel numbers, as the TURN library gives them. */
module Turn {

  /** Points on the server's clock. The zero value of Go's `time.Time` is 0. */
  type Time = int

  const ZERO_TIME: Time := 0

  /** A socket handle; only its identity matters. */
  type Conn = int

  /** An IP in canonical form, so that `net.IP.Equal` is equality. `NoIP` is the nil slice. */
  datatype IP = NoIP | V4(bits: nat) | V6(bits: nat)

  datatype Addr = Addr(ip: IP, port: int)

  const ZERO_ADDR := Addr(NoIP, 0)

  /** The IANA protocol number of the client's transport. */
  type Protocol = int

  const PROTO_UDP: Protocol := 17

  datatype FiveTuple = FiveTuple(client: Addr, server: Addr, proto: Protocol)

  const MIN_CHANNEL := 0x4000
  const MAX_CHANNEL := 0x7FFF

  predicate ValidChannel(n: int) {
    MIN_CHANNEL <= n <= MAX_CHANNEL
  }

  function MaxTime(a: Time, b: Time): Time {
    if b > a then b else a
  }
}
