/** What the snapshot pool and the close pool have in common. */
module Pools {

  /** One incarnation of a cluster's node on this host. */
  datatype Node = Node(cluster: nat, instance: nat)

  /** The first worker at or after `w` that is not busy, or the number of workers. */
  function FirstIdle(workers: nat, busy: set<nat>, w: nat): (r: nat)
    ensures w <= workers ==> w <= r <= workers
    ensures r < workers ==> r !in busy
    ensures forall v :: w <= v < r && v < workers ==> v in busy
    decreases workers - w
  {
    if w >= workers then workers else if w !in busy then w else FirstIdle(workers, busy, w + 1)
  }
}
