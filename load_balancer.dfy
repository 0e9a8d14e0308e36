/**
  The round-robin load balancer: a queue of backend ports whose front is
  handed out and moved to the back on every selection.
 */
module LoadBalancer {
  import opened Ports
  import opened Rotation

  /** What a selection yields: a backend port, or the panic raised on an empty queue. */
  datatype Choice = Chosen(port: Port) | NoBackendsAvailable

  /**
    The only implementation of the load-balancer interface. `queue` is the
    real state; `backends` (the order given at construction) and `picks`
    (every port handed out so far) are the ghost view its invariant is stated in.
   */
  class RoundRobinBalancer {
    var queue: seq<Port>
    ghost const backends: seq<Port>
    ghost var picks: seq<Port>

    /** The queue is where |picks| round-robin steps take the configured order, and the picks are those steps' results. */
    ghost predicate Valid()
      reads this
    {
      if backends == [] then queue == [] && picks == []
      else queue == Rotations(backends, |picks|) && picks == Picks(backends, |picks|)
    }

    /** The queue starts as the given backends, in the order given. */
    constructor (backends: seq<Port>)
      ensures Valid()
      ensures queue == backends && this.backends == backends && picks == []
    {
      queue := backends;
      this.backends := backends;
      picks := [];
    }

    /** Takes the front port, puts it at the back, and returns it; an empty queue panics. */
    method SelectBackend() returns (c: Choice)
      requires Valid()
      modifies this
      ensures Valid()
      ensures old(queue) == [] ==> c == NoBackendsAvailable && queue == [] && picks == old(picks)
      ensures old(queue) != [] ==>
        && c == Chosen(old(queue)[0])
        && queue == old(queue)[1..] + [old(queue)[0]]
        && picks == old(picks) + [c.port]
      ensures c.Chosen? ==> c.port in backends
    {
      if queue == [] {
        return NoBackendsAvailable;
      }
      var backend := queue[0];
      queue := queue[1..];
      queue := queue + [backend];
      picks := picks + [backend];
      RotationsPermute(backends, |picks| - 1);
      assert backend in multiset(old(queue));
      c := Chosen(backend);
    }
  }

  /** The repository's own unit test: three backends, five selections, wrapping after the third. */
  method TestRoundRobin() returns (got: seq<Choice>)
    ensures got == [Chosen(3001), Chosen(3002), Chosen(3003), Chosen(3001), Chosen(3002)]
  {
    var lb := new RoundRobinBalancer([3001, 3002, 3003]);
    var c1 := lb.SelectBackend();
    var c2 := lb.SelectBackend();
    var c3 := lb.SelectBackend();
    var c4 := lb.SelectBackend();
    var c5 := lb.SelectBackend();
    got := [c1, c2, c3, c4, c5];
  }

  /** Every reachable queue is a rotation of the configured order, cut at the number of selections mod its length. */
  lemma QueueIsRotation(lb: RoundRobinBalancer)
    requires lb.Valid() && lb.backends != []
    ensures lb.queue == lb.backends[|lb.picks| % |lb.backends|..] + lb.backends[..|lb.picks| % |lb.backends|]
    ensures IsRotationOf(lb.queue, lb.backends)
    ensures multiset(lb.queue) == multiset(lb.backends)
  {
    RotationsMod(lb.backends, |lb.picks|);
    RotationsPermute(lb.backends, |lb.picks|);
  }
}
