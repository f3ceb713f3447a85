/** The event streams of sessions, and where each event in them comes from. */
module Streams {
  import opened Events
  import opened RoomCore
  import opened Protocol
  import opened Rooms

  /** The deliveries of an outbox that are addressed to session `s`. */
  function PostsTo(outbox: seq<Post>, s: SessionId): seq<Delivery> {
    if outbox == [] then []
    else (if outbox[0].to == s then [outbox[0].delivery] else []) + PostsTo(outbox[1..], s)
  }

  function Marked(events: seq<OutputEvent>, i: IncId, pos: nat): seq<Delivery> {
    seq(|events|, k requires 0 <= k < |events| => Delivery(i, pos, events[k]))
  }

  function EventsIn(deliveries: seq<Delivery>): seq<OutputEvent> {
    seq(|deliveries|, k requires 0 <= k < |deliveries| => deliveries[k].event)
  }

  lemma EventsInConcat(a: seq<Delivery>, b: seq<Delivery>)
    ensures EventsIn(a + b) == EventsIn(a) + EventsIn(b)
  {
  }

  lemma EventsInMarked(events: seq<OutputEvent>, i: IncId, pos: nat)
    ensures EventsIn(Marked(events, i, pos)) == events
  {
  }

  /** Everything that ever reached a session's event channel. */
  function Stream(x: Session): seq<Delivery> {
    x.handled + x.inbox
  }

  lemma {:induction false} PostsToTag(sends: seq<Send<SessionId, OutputEvent>>, i: IncId, pos: nat, s: SessionId)
    ensures PostsTo(Tag(sends, i, pos), s) == Marked(To(sends, s), i, pos)
  {
    if sends != [] {
      PostsToTag(sends[1..], i, pos, s);
      assert Tag(sends, i, pos)[1..] == Tag(sends[1..], i, pos);
      var first := if sends[0].to == s then [sends[0].event] else [];
      assert Marked(first + To(sends[1..], s), i, pos) == Marked(first, i, pos) + Marked(To(sends[1..], s), i, pos);
    }
  }

  lemma {:induction false} PostsToNobody(outbox: seq<Post>, s: SessionId)
    requires forall k :: 0 <= k < |outbox| ==> outbox[k].to != s
    ensures PostsTo(outbox, s) == []
  {
    if outbox != [] {
      PostsToNobody(outbox[1..], s);
    }
  }

  // ---------- Every delivery is the work of one handled event ----------

  /** What the handling of the log's event at `pos` sent. */
  function SendsAt(r: Incarnation, pos: nat): seq<Send<SessionId, OutputEvent>>
    requires pos < |r.log|
  {
    Handle(RoomAt(r, pos), r.log[pos].env.event, r.log[pos].order).sends
  }

  /** A post stems from the event its tags name. */
  ghost predicate Origin(rooms: seq<Incarnation>, post: Post) {
    var d := post.delivery;
    && d.inc < |rooms|
    && d.pos < |rooms[d.inc].log|
    && Send(post.to, d.event) in SendsAt(rooms[d.inc], d.pos)
  }

  ghost predicate OutboxOrigin(rooms: seq<Incarnation>, i: IncId)
    requires i < |rooms|
  {
    forall k :: 0 <= k < |rooms[i].outbox| ==>
      && Origin(rooms, rooms[i].outbox[k])
      && rooms[i].outbox[k].delivery.inc == i
      && rooms[i].outbox[k].delivery.pos == |rooms[i].log| - 1
  }

  ghost predicate StreamOrigin(rooms: seq<Incarnation>, x: Session, s: SessionId) {
    forall k :: 0 <= k < |Stream(x)| ==> Origin(rooms, Post(s, Stream(x)[k]))
  }

  ghost predicate OriginInv(st: State) {
    && (forall i :: 0 <= i < |st.rooms| ==> OutboxOrigin(st.rooms, i))
    && (forall s :: 0 <= s < |st.sessions| ==> StreamOrigin(st.rooms, st.sessions[s], s))
  }

  /** Logs only grow at the end. */
  ghost predicate LogsGrow(before: seq<Incarnation>, after: seq<Incarnation>) {
    && |before| <= |after|
    && forall i :: 0 <= i < |before| ==>
         && after[i].room.id == before[i].room.id
         && after[i].room.config == before[i].room.config
         && before[i].log <= after[i].log
  }

  lemma LogsGrowStep(st: State, step: Step)
    requires Enabled(st, step)
    ensures LogsGrow(st.rooms, Apply(st, step).rooms)
  {
    if !RoomStep(step) {
      if Creates(st, step) {
        CreateKeepsOthers(st, step);
      } else {
        SessionStepRooms(st, step);
      }
      hide Apply, Dispatched, Creates, NewIncarnation;
    } else {
      RoomLogStep(st, step);
    }
  }

  lemma RoomLogStep(st: State, step: Step)
    requires Enabled(st, step) && RoomStep(step)
    ensures LogsGrow(st.rooms, Apply(st, step).rooms)
  {
  }

  lemma RoomAtGrows(r: Incarnation, r': Incarnation, pos: nat)
    requires r'.room.id == r.room.id && r'.room.config == r.room.config && r.log <= r'.log
    requires pos <= |r.log|
    ensures RoomAt(r', pos) == RoomAt(r, pos)
  {
    assert r'.log[..pos] == r.log[..pos];
  }

  lemma OriginGrows(before: seq<Incarnation>, after: seq<Incarnation>, post: Post)
    requires LogsGrow(before, after) && Origin(before, post)
    ensures Origin(after, post)
  {
    RoomAtGrows(before[post.delivery.inc], after[post.delivery.inc], post.delivery.pos);
  }

  lemma TakeOrigin(st: State, i: IncId, order: seq<PlayerId>)
    requires Enabled(st, RoomTake(i, order)) && RoomOk(st.rooms[i])
    ensures OutboxOrigin(Apply(st, RoomTake(i, order)).rooms, i)
  {
    var rooms := Apply(st, RoomTake(i, order)).rooms;
    var r, r' := st.rooms[i], rooms[i];
    RoomAtGrows(r, r', |r.log|);
    assert r.log[..|r.log|] == r.log;
    assert SendsAt(r', |r.log|) == Handle(r.room, r.queue[0].event, order).sends;
    forall k | 0 <= k < |r'.outbox|
      ensures Origin(rooms, r'.outbox[k])
    {
      assert SendsAt(r', |r.log|)[k] == Send(r'.outbox[k].to, r'.outbox[k].delivery.event);
    }
  }

  lemma OutboxOriginStep(st: State, step: Step, i: IncId)
    requires Enabled(st, step) && i < |st.rooms| && i < |Apply(st, step).rooms|
    requires RoomOk(st.rooms[i]) && OutboxOrigin(st.rooms, i)
    ensures OutboxOrigin(Apply(st, step).rooms, i)
  {
    hide RoomOk, Origin;
    LogsGrowStep(st, step);
    if step.RoomTake? && step.i == i {
      TakeOrigin(st, i, step.order);
    } else {
      OutboxShrinks(st, step, i);
      var outbox := Apply(st, step).rooms[i].outbox;
      forall k | 0 <= k < |outbox|
        ensures Origin(Apply(st, step).rooms, outbox[k])
      {
        assert outbox[k] in st.rooms[i].outbox;
        OriginGrows(st.rooms, Apply(st, step).rooms, outbox[k]);
      }
    }
  }

  lemma OutboxShrinks(st: State, step: Step, i: IncId)
    requires Enabled(st, step) && i < |st.rooms|
    requires !(step.RoomTake? && step.i == i)
    ensures i < |Apply(st, step).rooms|
    ensures Apply(st, step).rooms[i].log == st.rooms[i].log
    ensures Apply(st, step).rooms[i].outbox ==
      if step.RoomDeliver? && step.i == i then st.rooms[i].outbox[1..] else st.rooms[i].outbox
  {
  }

  /** A step changes a session's stream only by appending one delivery to it. */
  lemma StreamStep(st: State, step: Step, s: SessionId)
    requires Enabled(st, step) && s < |st.sessions|
    ensures s < |Apply(st, step).sessions|
    ensures Stream(Apply(st, step).sessions[s]) == Stream(st.sessions[s]) +
      if step.RoomDeliver? && st.rooms[step.i].outbox[0].to == s && Alive(st.sessions[s].pc)
      then [st.rooms[step.i].outbox[0].delivery] else []
  {
    if RoomStep(step) || step.Connect? || step.s != s {
      OthersUntouched(st, step, s);
    } else {
      OwnStreamStep(st, step);
    }
  }

  lemma OwnStreamStep(st: State, step: Step)
    requires Enabled(st, step) && !RoomStep(step) && !step.Connect?
    ensures step.s < |Apply(st, step).sessions|
    ensures Stream(Apply(st, step).sessions[step.s]) == Stream(st.sessions[step.s])
  {
    hide InputStep, RequestStep, Enqueue, LoginStep, EventStep;
    if step.TakeEvent? {
      EventStream(st, step.s);
    } else if step.TryLogin? {
      LoginStream(st, step.s);
    } else if step.TakeInput? {
      InputFacts(st, step.s);
    } else if step.SendRequest? {
      RequestFacts(st, step.s);
    }
  }

  lemma EventStream(st: State, s: SessionId)
    requires Enabled(st, TakeEvent(s))
    ensures s < |EventStep(st, s).sessions| && Stream(EventStep(st, s).sessions[s]) == Stream(st.sessions[s])
  {
    var x := st.sessions[s];
    assert x.inbox == [x.inbox[0]] + x.inbox[1..];
  }

  lemma LoginStream(st: State, s: SessionId)
    requires Enabled(st, TryLogin(s))
    ensures s < |LoginStep(st, s).sessions| && Stream(LoginStep(st, s).sessions[s]) == Stream(st.sessions[s])
  {
  }

  lemma StreamOriginStep(st: State, step: Step, s: SessionId)
    requires Enabled(st, step) && s < |st.sessions|
    requires StreamOrigin(st.rooms, st.sessions[s], s)
    requires step.RoomDeliver? ==> OutboxOrigin(st.rooms, step.i)
    ensures StreamOrigin(Apply(st, step).rooms, Apply(st, step).sessions[s], s)
  {
    hide Origin;
    LogsGrowStep(st, step);
    StreamStep(st, step, s);
    var stream, stream' := Stream(st.sessions[s]), Stream(Apply(st, step).sessions[s]);
    forall k | 0 <= k < |stream'|
      ensures Origin(Apply(st, step).rooms, Post(s, stream'[k]))
    {
      if k < |stream| {
        OriginGrows(st.rooms, Apply(st, step).rooms, Post(s, stream[k]));
      } else {
        OriginGrows(st.rooms, Apply(st, step).rooms, st.rooms[step.i].outbox[0]);
      }
    }
  }

  lemma OriginStep(st: State, step: Step)
    requires Inv(st) && OriginInv(st) && Enabled(st, step)
    ensures OriginInv(Apply(st, step))
  {
    hide RoomOk, SentOk, MembersOk, SessionsOk, RegistryOk, FirstEventDue, OutboxOrigin, StreamOrigin;
    var st' := Apply(st, step);
    forall i | 0 <= i < |st'.rooms| ensures OutboxOrigin(st'.rooms, i) {
      if i < |st.rooms| {
        OutboxOriginStep(st, step, i);
      } else {
        NewOutbox(st'.rooms, i);
      }
    }
    forall s | 0 <= s < |st'.sessions| ensures StreamOrigin(st'.rooms, st'.sessions[s], s) {
      if s < |st.sessions| {
        StreamOriginStep(st, step, s);
      } else {
        NewStream(st'.rooms, s);
      }
    }
  }

  lemma NewOutbox(rooms: seq<Incarnation>, i: IncId)
    requires i < |rooms| && rooms[i].outbox == []
    ensures OutboxOrigin(rooms, i)
  {
  }

  lemma NewStream(rooms: seq<Incarnation>, s: SessionId)
    ensures StreamOrigin(rooms, NEW_SESSION, s)
  {
  }

  lemma {:induction false} OriginHolds(bearer: string, steps: seq<Step>)
    requires Valid(bearer, steps)
    ensures OriginInv(Exec(bearer, steps))
  {
    if steps != [] {
      OriginHolds(bearer, steps[..|steps| - 1]);
      InvHolds(bearer, steps[..|steps| - 1]);
      OriginStep(Exec(bearer, steps[..|steps| - 1]), steps[|steps| - 1]);
    }
  }
}
