/** Backend identifiers shared by the load balancer and the metrics. */
module Ports {

  /** A TCP port number: the source stores backends as `u16`. */
  type Port = p: int | 0 <= p < 0x1_0000

  /** No port occurs twice in `s`. */
  predicate Distinct(s: seq<Port>)
  {
    forall i, j :: 0 <= i < j < |s| ==> s[i] != s[j]
  }
}
