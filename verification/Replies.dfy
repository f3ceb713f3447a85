/** Which joins get a reply: decided when they are queued. */
module Replies {
  import opened Wrappers
  import opened Events
  import opened RoomCore
  import opened Protocol
  import opened Rooms
  import opened Streams
  import opened Accounting
  import opened Disconnecting

  /** The event sent as number `k` has been handled or will be: it is queued, the room is not on its
      way out, and nothing queued ahead of it leaves the room empty. */
  predicate WillHandle(r: Incarnation, k: nat) {
    || k < |r.log|
    || (GoesOn(r) && k - |r.log| < |r.queue| && !Stops(r.room, r.queue[..k - |r.log|]))
  }

  // ---------- Nothing changes it ----------

  lemma TakeKeeps(r: Incarnation, i: IncId, order: seq<PlayerId>, k: nat)
    requires RoomReady(r, RoomTake(i, order))
    ensures WillHandle(RoomAfter(r, i, RoomTake(i, order)), k) <==> WillHandle(r, k)
  {
    OrderIrrelevant(r.room, r.queue[0].event, order);
    hide Handle, NumPlayers, Enumerates, Iterated;
    if |r.log| < k && k - |r.log| < |r.queue| {
      var m := k - |r.log|;
      assert r.queue[..m][0] == r.queue[0] && r.queue[..m][1..] == r.queue[1..][..m - 1];
    }
  }

  lemma RoomStepKeeps(r: Incarnation, i: IncId, step: Step, k: nat)
    requires RoomStep(step) && RoomReady(r, step)
    ensures WillHandle(RoomAfter(r, i, step), k) <==> WillHandle(r, k)
    ensures RoomAfter(r, i, step).sent == r.sent
  {
    if step.RoomTake? {
      TakeKeeps(r, i, step.order, k);
    }
    hide Handle, NumPlayers, Enumerates, Iterated, Stops, Tag;
  }

  lemma EnqueueKeeps(r: Incarnation, r': Incarnation, env: Envelope, k: nat)
    requires RoomOk(r) && !r.phase.Dropped? && k < |r.sent|
    requires r' == r.(queue := r.queue + [env], sent := r'.sent)
    ensures WillHandle(r', k) <==> WillHandle(r, k)
  {
    hide FoldLog, RoomAt, NumPlayers, Stops;
    if |r.log| <= k {
      assert r'.queue[..k - |r.log|] == r.queue[..k - |r.log|];
    }
  }

  /** The history of sends only grows. */
  lemma SentGrows(st: State, step: Step, i: IncId)
    requires Enabled(st, step) && i < |st.rooms|
    ensures i < |Apply(st, step).rooms| && st.rooms[i].sent <= Apply(st, step).rooms[i].sent
  {
    if RoomStep(step) {
      if step.i == i {
        RoomStepKeeps(st.rooms[i], i, step, 0);
      }
    } else if Creates(st, step) {
      CreateKeepsOthers(st, step);
      hide Apply;
    } else {
      SessionStepRooms(st, step);
      hide Apply;
    }
  }

  lemma WillHandleStep(st: State, step: Step, i: IncId, k: nat)
    requires Inv(st) && Enabled(st, step) && i < |st.rooms| && k < |st.rooms[i].sent|
    ensures i < |Apply(st, step).rooms|
    ensures WillHandle(Apply(st, step).rooms[i], k) <==> WillHandle(st.rooms[i], k)
  {
    SentGrows(st, step, i);
    hide RoomOk, SentOk, MembersOk, SessionsOk, RegistryOk, FirstEventDue, WillHandle;
    if RoomStep(step) {
      if step.i == i {
        RoomStepKeeps(st.rooms[i], i, step, k);
      }
    } else {
      QueueAfter(st, step, i);
      OnlyOpenReceives(st, step);
      hide Apply, Enabled, Dispatched;
      var d := Dispatched(st, step);
      if d.Some? && d.value.inc == i {
        EnqueueKeeps(st.rooms[i], Apply(st, step).rooms[i], d.value.env, k);
      }
    }
  }

  lemma OnlyOpenReceives(st: State, step: Step)
    requires Enabled(st, step)
    ensures Dispatched(st, step).Some? ==>
      Dispatched(st, step).value.inc < |st.rooms| && !st.rooms[Dispatched(st, step).value.inc].phase.Dropped?
  {
  }

  /** Whether an event will be handled is settled once it is queued: it is the same in every later
      state. */
  lemma {:induction false} FateOfSend(bearer: string, steps: seq<Step>, n: nat, i: IncId, k: nat)
    requires Valid(bearer, steps) && n <= |steps|
    requires i < |StateAt(bearer, steps, n).rooms| && k < |StateAt(bearer, steps, n).rooms[i].sent|
    ensures i < |Exec(bearer, steps).rooms|
    ensures StateAt(bearer, steps, n).rooms[i].sent <= Exec(bearer, steps).rooms[i].sent
    ensures WillHandle(Exec(bearer, steps).rooms[i], k) <==> WillHandle(StateAt(bearer, steps, n).rooms[i], k)
  {
    hide Apply, Enabled, Inv, WillHandle;
    if n < |steps| {
      var front, step := steps[..|steps| - 1], steps[|steps| - 1];
      FateOfSend(bearer, front, n, i, k);
      InvHolds(bearer, front);
      SentGrows(Exec(bearer, front), step, i);
      WillHandleStep(Exec(bearer, front), step, i, k);
    }
  }

  // ---------- Replies ----------

  /** What session `s` was sent, or is about to be, in answer to the event sent as number `k`. */
  function Replies(st: State, s: SessionId, i: IncId, k: nat): seq<Delivery>
    requires s < |st.sessions| && i < |st.rooms|
  {
    Answers(Stream(st.sessions[s]), i, k) + Answers(PostsTo(st.rooms[i].outbox, s), i, k)
  }

  /** Which joins get a reply, exactly: once the room has nothing queued any more, a live session
      has one reply to a join if, at any time since it was queued, the room was going to handle it,
      and none otherwise. */
  lemma JoinRepliedIffWillHandle(bearer: string, steps: seq<Step>, n: nat, i: IncId, k: nat)
    requires Valid(bearer, steps) && n <= |steps|
    requires i < |StateAt(bearer, steps, n).rooms| && k < |StateAt(bearer, steps, n).rooms[i].sent|
    requires var env := StateAt(bearer, steps, n).rooms[i].sent[k];
             && env.event.InputJoin?
             && env.from < |Exec(bearer, steps).sessions| && Alive(Exec(bearer, steps).sessions[env.from].pc)
    requires i < |Exec(bearer, steps).rooms| && Exec(bearer, steps).rooms[i].queue == []
    ensures var env := StateAt(bearer, steps, n).rooms[i].sent[k];
            |Replies(Exec(bearer, steps), env.from, i, k)|
            == if WillHandle(StateAt(bearer, steps, n).rooms[i], k) then 1 else 0
  {
    hide Exec, Valid, StateAt, Answers, JoinAnswered, Issued, FoldLog, RoomAt, RoomOk, GoesOn, Stops;
    FateOfSend(bearer, steps, n, i, k);
    RoomHolds(bearer, steps, i);
    var r := Exec(bearer, steps).rooms[i];
    SentSplit(r, k);
    if k < |r.log| {
      RequestsAnswered(bearer, steps, i, k);
    } else {
      UnhandledIsUnanswered(bearer, steps, r.sent[k].from, i, k);
      NothingIssued(bearer, steps, r.sent[k].from, i, k);
    }
  }

  lemma NothingIssued(bearer: string, steps: seq<Step>, s: SessionId, i: IncId, k: nat)
    requires Valid(bearer, steps) && i < |Exec(bearer, steps).rooms| && |Exec(bearer, steps).rooms[i].log| <= k
    ensures Answers(PostsTo(Exec(bearer, steps).rooms[i].outbox, s), i, k) == []
  {
    hide Exec, Valid, Answers, Origin;
    OriginHolds(bearer, steps);
    var r := Exec(bearer, steps).rooms[i];
    assert OutboxOrigin(Exec(bearer, steps).rooms, i);
    PostsWithin(r.outbox, s, k);
    NoAnswers(PostsTo(r.outbox, s), i, k);
  }

  lemma {:induction false} PostsWithin(outbox: seq<Post>, s: SessionId, k: nat)
    requires forall j :: 0 <= j < |outbox| ==> outbox[j].delivery.pos < k
    ensures forall j :: 0 <= j < |PostsTo(outbox, s)| ==> PostsTo(outbox, s)[j].pos < k
  {
    if outbox != [] {
      PostsWithin(outbox[1..], s, k);
    }
  }

  // ---------- At the send ----------

  /** What a client can expect of a join about to be sent: told at once that there is no room if the
      receiver is gone; otherwise replied to if and only if the room is not on its way out and
      nothing queued leaves it empty. */
  lemma JoinRepliedIff(bearer: string, steps: seq<Step>, n: nat, s: SessionId)
    requires Valid(bearer, steps) && n < |steps| && steps[n] == SendRequest(s)
    requires s < |StateAt(bearer, steps, n).sessions| && StateAt(bearer, steps, n).sessions[s].pc.JoinHalf?
    requires var i := StateAt(bearer, steps, n).sessions[s].pc.inc;
             i < |StateAt(bearer, steps, n).rooms| && i < |Exec(bearer, steps).rooms| &&
               Exec(bearer, steps).rooms[i].queue == []
    requires s < |Exec(bearer, steps).sessions| && Alive(Exec(bearer, steps).sessions[s].pc)
    ensures var st := StateAt(bearer, steps, n);
            var x, r := st.sessions[s], st.rooms[st.sessions[s].pc.inc];
            if r.phase.Dropped? then
              s < |StateAt(bearer, steps, n + 1).sessions|
              && StateAt(bearer, steps, n + 1).sessions[s].out
                 == Say(x, JoinResponse(x.pc.roomId, [], None, RoomNotFound)).out
            else
              |Replies(Exec(bearer, steps), s, x.pc.inc, |r.sent|)|
              == if GoesOn(r) && !Stops(r.room, r.queue) then 1 else 0
  {
    var st := StateAt(bearer, steps, n);
    var i := st.sessions[s].pc.inc;
    NextState(bearer, steps, n);
    SendsJoin(st, s);
    if !st.rooms[i].phase.Dropped? {
      PrefixRuns(bearer, steps, n);
      RoomHolds(bearer, steps[..n], i);
      JoinQueued(st.rooms[i], StateAt(bearer, steps, n + 1).rooms[i],
                 Envelope(s, st.sessions[s].sends, RequestEvent(st.sessions[s], s)));
      hide Exec, Valid, StateAt, Apply, Enabled, WillHandle, GoesOn, Stops, Replies;
      JoinRepliedIffWillHandle(bearer, steps, n + 1, i, |st.rooms[i].sent|);
    }
  }

  lemma {:induction false} NextState(bearer: string, steps: seq<Step>, n: nat)
    requires Valid(bearer, steps) && n < |steps|
    ensures Enabled(StateAt(bearer, steps, n), steps[n])
    ensures StateAt(bearer, steps, n + 1) == Apply(StateAt(bearer, steps, n), steps[n])
  {
    hide Apply, Enabled;
    PrefixRuns(bearer, steps, n);
    if n + 1 < |steps| {
      NextState(bearer, steps[..|steps| - 1], n);
    } else {
      assert steps[..n] == steps[..|steps| - 1];
    }
  }

  lemma SendsJoin(st: State, s: SessionId)
    requires Enabled(st, SendRequest(s)) && st.sessions[s].pc.JoinHalf?
    ensures var x, r, st' := st.sessions[s], st.rooms[st.sessions[s].pc.inc], Apply(st, SendRequest(s));
            && s < |st'.sessions| && |st'.rooms| == |st.rooms|
            && if r.phase.Dropped? then
                 st'.sessions[s].out == Say(x, JoinResponse(x.pc.roomId, [], None, RoomNotFound)).out
               else
                 var env := Envelope(s, x.sends, RequestEvent(x, s));
                 env.event.InputJoin? && st'.rooms[x.pc.inc] == r.(queue := r.queue + [env], sent := r.sent + [env])
  {
  }

  lemma JoinQueued(r: Incarnation, r': Incarnation, env: Envelope)
    requires RoomOk(r) && !r.phase.Dropped?
    requires r' == r.(queue := r.queue + [env], sent := r.sent + [env])
    ensures |r'.sent| == |r.sent| + 1 && r'.sent[|r.sent|] == env
    ensures WillHandle(r', |r.sent|) <==> GoesOn(r) && !Stops(r.room, r.queue)
  {
    hide FoldLog, RoomAt, Stops, NumPlayers;
    assert |r.sent| == |r.log| + |r.queue|;
    assert r'.queue[..|r.queue|] == r.queue;
  }
}
