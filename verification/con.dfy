/**
 * The admission counter of stress/con.go: a capacity and a live count of
 * running tasks. The lock that guards the count is not modelled: every
 * method here runs as one atomic step, which is what holding the mutex
 * for the whole body guarantees.
 */
module Con {

  class Coner {
    /** The capacity given to GetConer; never changes afterwards. */
    const maxRunning: int
    /** Number of admitted tasks that have not released their slot yet. */
    var count: int

    /**
     * The class invariant. The capacity is a plain signed integer, so a
     * non-positive capacity is possible; such a counter admits nothing and
     * its count stays at zero.
     */
    ghost predicate Valid()
      reads this
    {
      0 <= count && (count <= maxRunning || count == 0)
    }

    /** GetConer: a fresh counter with the given capacity and nothing running. */
    constructor (maxRunning: int)
      ensures Valid()
      ensures this.maxRunning == maxRunning && count == 0
    {
      this.maxRunning := maxRunning;
      count := 0;
    }

    /** occupy: take a slot if one is free; never waits. */
    method Occupy() returns (admitted: bool)
      requires Valid()
      modifies this
      ensures Valid()
      ensures admitted <==> old(count) < maxRunning
      ensures count == if admitted then old(count) + 1 else old(count)
    {
      if count < maxRunning {
        count := count + 1;
        admitted := true;
      } else {
        admitted := false;
      }
    }

    /**
     * decc: give a slot back. The source has no lower-bound guard; a caller
     * releases exactly once per successful Occupy, so a slot is held.
     */
    method Decc()
      requires Valid() && count > 0
      modifies this
      ensures Valid()
      ensures count == old(count) - 1
    {
      count := count - 1;
    }

    /**
     * Run: admit the task or reject it. When admitted, the task is started
     * on its own goroutine, which calls Decc once the task returns; in this
     * sequential model that later step is taken by the caller (see
     * Scheduler.Settle), so here only the admission happens and the
     * slot stays held by the spawned task.
     */
    method Run() returns (accepted: bool)
      requires Valid()
      modifies this
      ensures Valid()
      ensures accepted <==> old(count) < maxRunning
      ensures count == if accepted then old(count) + 1 else old(count)
    {
      accepted := Occupy();
    }
  }

  /**
   * The fill / reject / refill scenario of the package's test, for any
   * capacity: `capacity` runs are all accepted, the next `capacity` runs are
   * all rejected while every task is still running, and once every task has
   * finished (each releasing its slot) `capacity` runs are accepted again.
   */
  method FillRejectRefill(capacity: nat) returns (first: seq<bool>, second: seq<bool>, third: seq<bool>)
    ensures |first| == capacity && forall i :: 0 <= i < |first| ==> first[i]
    ensures |second| == capacity && forall i :: 0 <= i < |second| ==> !second[i]
    ensures |third| == capacity && forall i :: 0 <= i < |third| ==> third[i]
  {
    var coner := new Coner(capacity);
    first, second, third := [], [], [];

    var i := 0;
    while i < capacity
      invariant 0 <= i <= capacity
      invariant coner.Valid() && coner.maxRunning == capacity && coner.count == i
      invariant |first| == i && forall k :: 0 <= k < i ==> first[k]
    {
      var ok := coner.Run();
      first := first + [ok];
      i := i + 1;
    }

    i := 0;
    while i < capacity
      invariant 0 <= i <= capacity
      invariant coner.Valid() && coner.maxRunning == capacity && coner.count == capacity
      invariant |second| == i && forall k :: 0 <= k < i ==> !second[k]
    {
      var ok := coner.Run();
      second := second + [ok];
      i := i + 1;
    }

    // every spawned task finishes and releases its slot
    i := 0;
    while i < capacity
      invariant 0 <= i <= capacity
      invariant coner.Valid() && coner.maxRunning == capacity && coner.count == capacity - i
    {
      coner.Decc();
      i := i + 1;
    }

    i := 0;
    while i < capacity
      invariant 0 <= i <= capacity
      invariant coner.Valid() && coner.maxRunning == capacity && coner.count == i
      invariant |third| == i && forall k :: 0 <= k < i ==> third[k]
    {
      var ok := coner.Run();
      third := third + [ok];
      i := i + 1;
    }
  }
}
