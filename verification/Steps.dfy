/** What the transition systems of the threaded programs have in common. */
module Steps {

  /** The three steps of sendMsg and recvMsg. */
  datatype Op = Wait | Copy | Post

  /** The state after a schedule, if every step of it was possible. */
  datatype Outcome<S> = Impossible | Reached(state: S)

  function Add(a: seq<int>, i: int, d: int): seq<int>
    requires 0 <= i < |a|
  {
    a[i := a[i] + d]
  }
}
