/**
 * The profiler's stopwatch section bound to one request, as the manager
 * proxy uses it: named events that are started, lapped and stopped.
 */
module Profiler {
  import opened Js

  /** A stopwatch event: its name, its category, and how often it was lapped and stopped. */
  datatype Event = Event(name: string, category: Value, laps: nat, stops: nat)

  class StopwatchSection {
    var events: seq<Event>

    constructor()
      ensures events == []
    {
      events := [];
    }

    /** `section.start(name, category)`: the handle is the new event's position. */
    method Start(name: string, category: Value) returns (h: nat)
      modifies this
      ensures events == old(events) + [Event(name, category, 0, 0)]
      ensures h == |old(events)|
    {
      h := |events|;
      events := events + [Event(name, category, 0, 0)];
    }

    /** `event.stop()` */
    method Stop(h: nat)
      requires h < |events|
      modifies this
      ensures events == old(events)[h := old(events)[h].(stops := old(events)[h].stops + 1)]
    {
      events := events[h := events[h].(stops := events[h].stops + 1)];
    }

    /** `event.lap()` */
    method Lap(h: nat)
      requires h < |events|
      modifies this
      ensures events == old(events)[h := old(events)[h].(laps := old(events)[h].laps + 1)]
    {
      events := events[h := events[h].(laps := events[h].laps + 1)];
    }
  }
}
