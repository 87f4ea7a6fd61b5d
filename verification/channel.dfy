/**
 * A Go channel as seen by one sequential run: the values buffered in it and
 * whether it has been closed. Sending on a closed channel and closing it twice
 * panic in Go, so those are preconditions; a receive that would block (open
 * and empty) is not part of the model.
 */
module Channel {
  import opened Wrappers

  class Chan<T> {
    var buffer: seq<T>
    var closed: bool

    /** `make(chan T, n)`: an open, empty channel. */
    constructor ()
      ensures buffer == [] && !closed
    {
      buffer := [];
      closed := false;
    }

    /** `ch <- x`: the value joins the back of the queue. */
    method Send(x: T)
      requires !closed
      modifies this
      ensures buffer == old(buffer) + [x]
      ensures closed == old(closed)
    {
      buffer := buffer + [x];
    }

    /** `close(ch)`: buffered values stay readable. */
    method Close()
      requires !closed
      modifies this
      ensures closed
      ensures buffer == old(buffer)
    {
      closed := true;
    }

    /**
     * `v, ok := <-ch`: the oldest buffered value, or None once the channel
     * is closed and drained.
     */
    method Receive() returns (v: Option<T>)
      requires buffer != [] || closed
      modifies this
      ensures old(buffer) != [] ==> v == Some(old(buffer)[0]) && buffer == old(buffer)[1..]
      ensures old(buffer) == [] ==> v == None && buffer == []
      ensures closed == old(closed)
    {
      if buffer != [] {
        v := Some(buffer[0]);
        buffer := buffer[1..];
      } else {
        v := None;
      }
    }
  }
}
