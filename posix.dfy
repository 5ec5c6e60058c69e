/** The descriptor calls the binding makes. `open` is not modelled as an
    operation: its result is handed to the directory setters as a parameter.
    `close` is recorded in a log so that what a release closes can be stated. */
module Posix {

  class Descriptors {
    ghost var closed: seq<int>

    constructor ()
      ensures closed == []
    {
      closed := [];
    }

    method Close(fd: int)
      modifies this
      ensures closed == old(closed) + [fd]
    {
      closed := closed + [fd];
    }
  }
}
