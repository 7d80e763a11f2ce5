/** Base types shared by the server, the client and the robot facade:
    bytes, failure-compatible wrappers and the IPv4 address object. */
module Net {

  newtype byte = x: int | 0 <= x < 256

  datatype Option<+T> = None | Some(value: T)

  datatype Result<+R, +E> = Success(value: R) | Failure(error: E)

  datatype Outcome<+E> = Pass | Fail(error: E)

  /** Decimal digits of a natural number, most significant first. */
  function Decimal(n: nat): (s: string)
    ensures |s| >= 1
    ensures forall i :: 0 <= i < |s| ==> '0' <= s[i] <= '9'
    decreases n
  {
    if n < 10 then [('0' as int + n) as char]
    else Decimal(n / 10) + [('0' as int + n % 10) as char]
  }

  /** The four octets of an IPv4 address. */
  type Octets = s: seq<byte> | |s| == 4 witness [0, 0, 0, 0]

  /** The loopback address 127.0.0.1. */
  const Loopback: Octets := [127, 0, 0, 1]

  /** An IPv4 address object. Like System.Net.IPAddress it is a reference:
      `!=` between two addresses compares identity, not octets. */
  class IpAddress {
    const octets: Octets

    constructor (octets: Octets)
      ensures this.octets == octets
    {
      this.octets := octets;
    }

    /** Dotted-quad text of the address, e.g. "127.0.0.1". */
    function ToString(): (s: string)
    {
      Decimal(octets[0] as nat) + "." + Decimal(octets[1] as nat) + "."
        + Decimal(octets[2] as nat) + "." + Decimal(octets[3] as nat)
    }
  }
}
