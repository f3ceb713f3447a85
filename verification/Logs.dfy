/** Logs of handled events: the member table and the sends that they come to. */
module Logs {
  import opened Events
  import RoomCore

  /** An event a task has handled and the iteration order its handler met. */
  datatype Handled<C> = Handled(event: InputEvent<C>, order: seq<PlayerId>)

  function Fold<C>(r: RoomCore.RoomState<C>, log: seq<Handled<C>>): RoomCore.RoomState<C> {
    if log == [] then r
    else RoomCore.Handle(Fold(r, log[..|log| - 1]), log[|log| - 1].event, log[|log| - 1].order).room
  }

  /** What handling the log sends to channel `c`. */
  function SentTo<C(==)>(r: RoomCore.RoomState<C>, log: seq<Handled<C>>, c: C): seq<OutputEvent> {
    if log == [] then []
    else
      var front, last := log[..|log| - 1], log[|log| - 1];
      SentTo(r, front, c) + RoomCore.To(RoomCore.Handle(Fold(r, front), last.event, last.order).sends, c)
  }

  function EventsOf<C>(log: seq<Handled<C>>): seq<InputEvent<C>> {
    seq(|log|, k requires 0 <= k < |log| => log[k].event)
  }
}
