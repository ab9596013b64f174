// The FIFO dispatcher.
module EventLoop {

  // A queued callback with its argument: __next_step, __process_event, __fail or __quit.
  datatype Entry = NextStep | Event(source: nat, line: string) | Fail | Quit

  class Mainloop {
    var active: bool
    var events: seq<Entry>

    constructor ()
      ensures !active && events == []
    {
      active := false;
      events := [];
    }

    method Add(e: Entry)
      modifies this`events
      ensures events == old(events) + [e]
    {
      events := events + [e];
    }

    // events.get: the oldest entry, or nothing when the wait times out on an empty queue
    method Get() returns (got: bool, e: Entry)
      modifies this`events
      ensures got == (old(events) != [])
      ensures got ==> old(events) == [e] + events
      ensures !got ==> events == []
    {
      got := events != [];
      if got {
        e := events[0];
        events := events[1..];
      } else {
        e := Quit;
      }
    }

    method DoQuit()
      modifies this
      ensures !active && events == []
    {
      active := false;
      events := [];
    }
  }
}
