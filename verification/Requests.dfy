/** From the client's message to the room and back: rooms are made, and answer, as clients ask, and
    everyone hears a client's messages as it sent them and in the order it sent them. */
module Requests {
  import opened Wrappers
  import opened Events
  import opened RoomCore
  import opened PlayerCore
  import opened Protocol
  import opened Rooms
  import opened Streams
  import Membership
  import opened Ordering
  import opened Accounting
  import opened ClientLog

  // ---------- What is sent ----------

  /** A request leaves as its client asked: the event put on the room's queue has the session's id,
      and the targets, body or configuration of the message taken last, and the room is the one
      that message names. */
  lemma RequestIsSentAsAsked(bearer: string, steps: seq<Step>, s: SessionId)
    requires Valid(bearer, steps) && Enabled(Exec(bearer, steps), SendRequest(s))
    ensures 0 < TakenCount(steps, s) <= |ClientSent(steps, s)|
    ensures var st, st' := Exec(bearer, steps), Apply(Exec(bearer, steps), SendRequest(s));
            var x, data := st.sessions[s], ClientSent(steps, s)[TakenCount(steps, s) - 1].data;
            var r := st.rooms[x.pc.inc];
            && data.Some? && |st'.rooms| == |st.rooms|
            && if r.phase.Dropped? then st'.rooms == st.rooms
               else
                 && |st'.rooms[x.pc.inc].queue| == |r.queue| + 1
                 && st'.rooms[x.pc.inc].queue[..|r.queue|] == r.queue
                 && var env := st'.rooms[x.pc.inc].queue[|r.queue|];
                 && env.from == s
                 && match data.value
                    case LoginRequest(_, _) => false
                    case JoinRequest(rid, requested) =>
                      && r.room.id == rid && env.event.InputJoin? && env.event.player == Player(x.id, s)
                      && if requested.Some? then env.event.config == requested.value
                        else env.event.config.maxPlayers == 2
                    case LeaveRequest(rid) => r.room.id == rid && env.event == InputLeave(x.id)
                    case SendMessage(targetIds, rid, body) =>
                      r.room.id == rid && env.event == InputMessage(x.id, targetIds, body)
  {
    hide Exec, Valid, ClientSent, TakenCount, Apply;
    InputIsFifo(bearer, steps, s);
    TraceHolds(bearer, steps, s);
    SendRequestAppends(Exec(bearer, steps), s);
    hide Enabled;
  }

  lemma SendRequestAppends(st: State, s: SessionId)
    requires Enabled(st, SendRequest(s))
    ensures var x, st' := st.sessions[s], Apply(st, SendRequest(s));
            && |st'.rooms| == |st.rooms|
            && if st.rooms[x.pc.inc].phase.Dropped? then st'.rooms == st.rooms
               else st'.rooms[x.pc.inc].queue == st.rooms[x.pc.inc].queue + [Envelope(s, x.sends, RequestEvent(x, s))]
  {
    hide RequestEvent;
  }

  /** Taking a message opens a request exactly if it asks to join a room, or to leave or to message
      one that is registered; the request goes to the registered room, or to the one just made. */
  lemma TakingOpensRequest(st: State, s: SessionId)
    requires Enabled(st, TakeInput(s))
    ensures s < |Apply(st, TakeInput(s)).sessions|
    ensures var data, st' := st.sessions[s].input[0].data, Apply(st, TakeInput(s));
            var pc := st'.sessions[s].pc;
            && (RequestHalf(pc) <==>
                  data.Some? && !data.value.LoginRequest? &&
                    (data.value.JoinRequest? || data.value.roomId in st.registry))
            && (RequestHalf(pc) ==>
                  if data.value.roomId in st.registry then pc.inc == st.registry[data.value.roomId]
                  else pc.inc == |st.rooms| && |st'.rooms| == |st.rooms| + 1)
  {
    assert Apply(st, TakeInput(s)) == InputStep(st, s);
    hide Apply;
  }

  // ---------- What is heard ----------

  /** The event was sent to session `t` because of the message that session `s`'s client sent as its
      number `p`. */
  ghost predicate StemsFrom(steps: seq<Step>, st: State, d: Delivery, s: SessionId, p: nat) {
    && Caused(st, d) && Cause(st, d).from == s
    && Cause(st, d).no < |TakenAtSends(steps, s)| && TakenAtSends(steps, s)[Cause(st, d).no] == p + 1
  }

  /** Every message that anyone hears was sent by a client, in these words, to this room, and names
      the session whose client it was. The hearer was in the room when the message was handled,
      and is among the targets that the client gave, if it gave any. */
  lemma MessageStemsFromClient(bearer: string, steps: seq<Step>, t: SessionId, k: nat)
    requires Valid(bearer, steps) && t < |Exec(bearer, steps).sessions|
    requires k < |Stream(Exec(bearer, steps).sessions[t])| &&
      Stream(Exec(bearer, steps).sessions[t])[k].event.OutputMessage?
    ensures var st := Exec(bearer, steps);
            var d := Stream(st.sessions[t])[k];
            exists s: SessionId, p: nat, targetIds ::
              && s < |st.sessions| && StemsFrom(steps, st, d, s, p)
              && d.event.message.senderId == st.sessions[s].id
              && p < |ClientSent(steps, s)|
              && ClientSent(steps, s)[p].data ==
                Some(SendMessage(targetIds, d.event.message.roomId, d.event.message.body))
              && HasMember(RoomAt(st.rooms[d.inc], d.pos).players, t, st.sessions[t].id)
              && (targetIds == [] || st.sessions[t].id in targetIds)
  {
    hide Exec, Valid, RoomAt, ClientSent, TakenAtSends;
    var st := Exec(bearer, steps);
    var d := Stream(st.sessions[t])[k];
    MessagesAreGenuine(bearer, steps, t, k);
    DeliveriesAreCaused(bearer, steps, t, k);
    var env := Cause(st, d);
    CarriesHolds(bearer, steps, d.inc, d.pos);
    assert env.no < |TakenAtSends(steps, env.from)|;
    TraceHolds(bearer, steps, env.from);
    var p := TakenAtSends(steps, env.from)[env.no] - 1;
    assert StemsFrom(steps, st, d, env.from, p);
    assert ClientSent(steps, env.from)[p].data ==
      Some(SendMessage(env.event.targetIds, d.event.message.roomId, d.event.message.body));
  }

  lemma {:induction false} SentPosition(steps: seq<Step>, n: nat, s: SessionId)
    requires n < |steps| && steps[n].ClientSend? && steps[n].s == s
    ensures |ClientSent(steps[..n], s)| < |ClientSent(steps, s)|
    ensures ClientSent(steps, s)[|ClientSent(steps[..n], s)|] == steps[n].message
  {
    var front := steps[..|steps| - 1];
    if n == |front| {
      assert steps[..n] == front;
    } else {
      assert front[..n] == steps[..n] && front[n] == steps[n];
      SentPosition(front, n, s);
    }
  }

  lemma LaterPosition(steps: seq<Step>, n: nat, n': nat, s: SessionId)
    requires n < n' < |steps| && steps[n].ClientSend? && steps[n].s == s
    ensures |ClientSent(steps[..n], s)| < |ClientSent(steps[..n'], s)|
  {
    assert steps[..n'][..n] == steps[..n] && steps[..n'][n] == steps[n];
    SentPosition(steps[..n'], n, s);
  }

  /** A client's messages are heard in the order in which the client sent them: of two messages to
      one room id, anyone who hears both hears the earlier one first, even if the room was
      destroyed and recreated in between. */
  lemma HeardInClientOrder(bearer: string, steps: seq<Step>, s: SessionId, n: nat, n': nat, t: SessionId, k: nat,
      m: nat)
    requires Valid(bearer, steps) && n < n' < |steps|
    requires steps[n].ClientSend? && steps[n].s == s && steps[n'].ClientSend? && steps[n'].s == s
    requires t < |Exec(bearer, steps).sessions|
    requires var stream := Stream(Exec(bearer, steps).sessions[t]);
             && k < |stream| && m < |stream| && stream[k].event.OutputMessage? && stream[m].event.OutputMessage?
             && stream[k].event.message.roomId == stream[m].event.message.roomId
             && StemsFrom(steps, Exec(bearer, steps), stream[k], s, |ClientSent(steps[..n], s)|)
             && StemsFrom(steps, Exec(bearer, steps), stream[m], s, |ClientSent(steps[..n'], s)|)
    ensures k < m
  {
    LaterPosition(steps, n, n', s);
    hide Exec, Valid, ClientSent, TakenAtSends, TakenCount;
    if m < k {
      var st := Exec(bearer, steps);
      MessagesInSendingOrder(bearer, steps, t, m, k);
      CauseInRange(bearer, steps, t, k);
      TraceHolds(bearer, steps, s);
    }
  }

  lemma CauseInRange(bearer: string, steps: seq<Step>, t: SessionId, k: nat)
    requires Valid(bearer, steps) && t < |Exec(bearer, steps).sessions| && k < |Stream(Exec(bearer, steps).sessions[t])|
    ensures var st := Exec(bearer, steps);
            Caused(st, Stream(st.sessions[t])[k]) && Cause(st, Stream(st.sessions[t])[k]).from < |st.sessions|
  {
    hide Exec, Valid;
    DeliveriesAreCaused(bearer, steps, t, k);
    var d := Stream(Exec(bearer, steps).sessions[t])[k];
    LoggedIsSpoken(bearer, steps, d.inc, d.pos);
  }

  /** A handled message is heard as its client asked: by each live member once if the client named
      no targets, otherwise once per mention in the client's own list, and by nobody else; always
      with the client's body and under the id of its session. */
  lemma MessageHeardAsAsked(bearer: string, steps: seq<Step>, t: SessionId, i: IncId, pos: nat)
    requires Valid(bearer, steps)
    requires t < |Exec(bearer, steps).sessions| && Alive(Exec(bearer, steps).sessions[t].pc)
    requires i < |Exec(bearer, steps).rooms| && pos < |Exec(bearer, steps).rooms[i].log|
    requires Exec(bearer, steps).rooms[i].log[pos].env.event.InputMessage?
    ensures var st := Exec(bearer, steps);
            var r, x, s := st.rooms[i], st.sessions[t], st.rooms[i].log[pos].env.from;
            var heard := Answers(Stream(x), i, pos) + Answers(PostsTo(r.outbox, t), i, pos);
            exists p: nat, targetIds, body ::
              && s < |st.sessions| && p < |ClientSent(steps, s)|
              && ClientSent(steps, s)[p].data == Some(SendMessage(targetIds, r.room.id, body))
              && |heard| == (if !HasMember(RoomAt(r, pos).players, t, x.id) then 0
                             else if targetIds == [] then 1 else Occurrences(targetIds, x.id))
              && forall k :: 0 <= k < |heard| ==>
                heard[k].event == OutputMessage(MessageInfo(r.room.id, st.sessions[s].id, body))
  {
    hide Exec, Valid, RoomAt, ClientSent, TakenAtSends, Answers, RoomOk, SentOk, MembersOk, FirstEventDue;
    var st := Exec(bearer, steps);
    var r := st.rooms[i];
    var env := r.log[pos].env;
    MessageCopies(bearer, steps, t, i, pos);
    RoomHolds(bearer, steps, i);
    LoggedWasSent(r, pos);
    CarriesHolds(bearer, steps, i, pos);
    LoggedIsSpoken(bearer, steps, i, pos);
    TraceHolds(bearer, steps, env.from);
    var p := TakenAtSends(steps, env.from)[env.no] - 1;
    assert ClientSent(steps, env.from)[p].data == Some(SendMessage(env.event.targetIds, r.room.id, env.event.body));
  }

  lemma LoggedWasSent(r: Incarnation, pos: nat)
    requires RoomOk(r) && pos < |r.log|
    ensures pos < |r.sent| && r.sent[pos] == r.log[pos].env
  {
    hide FoldLog, RoomAt;
  }

  // ---------- Rooms as requested ----------

  /** Step `n` makes incarnation `i`, because the client of session `s` asked to join a room id that
      is not registered. */
  predicate Makes(bearer: string, steps: seq<Step>, n: nat, s: SessionId, rid: RoomId, requested: Option<RoomConfig>,
      i: IncId)
    requires Valid(bearer, steps)
  {
    && n < |steps| && steps[n] == TakeInput(s)
    && var st := StateAt(bearer, steps, n);
    && s < |st.sessions| && st.sessions[s].input != [] &&
      st.sessions[s].input[0].data == Some(JoinRequest(rid, requested))
    && rid !in st.registry && |st.rooms| == i
  }

  lemma CreationAsAsked(st: State, step: Step)
    requires Enabled(st, step) && |Apply(st, step).rooms| > |st.rooms|
    ensures step.TakeInput? && step.s < |st.sessions| && st.sessions[step.s].input != []
    ensures |Apply(st, step).rooms| == |st.rooms| + 1
    ensures var data, room := st.sessions[step.s].input[0].data, Apply(st, step).rooms[|st.rooms|].room;
            && data.Some? && data.value.JoinRequest? && data.value.roomId == room.id && room.id !in st.registry
            && Wants(data.value.config, room.config)
  {
    assert Creates(st, step);
    CreateKeepsOthers(st, step);
    hide Apply;
  }

  /** Every room was made for a client's join request, under the id it named, with the configuration
      it named, or for two players if it named none. */
  lemma {:induction false} RoomMadeAsRequested(bearer: string, steps: seq<Step>, i: IncId)
    requires Valid(bearer, steps) && i < |Exec(bearer, steps).rooms|
    ensures var room := Exec(bearer, steps).rooms[i].room;
            exists n: nat, s: SessionId, requested ::
              && Makes(bearer, steps, n, s, room.id, requested, i)
              && if requested.Some? then room.config == requested.value else room.config.maxPlayers == 2
  {
    hide Apply, Enabled, Makes;
    var front, step := steps[..|steps| - 1], steps[|steps| - 1];
    var st := Exec(bearer, front);
    RoomIdentity(st, step);
    if i < |st.rooms| {
      RoomMadeAsRequested(bearer, front, i);
      var n: nat, s: SessionId, requested :| Makes(bearer, front, n, s, st.rooms[i].room.id, requested, i)
        && if requested.Some? then st.rooms[i].room.config == requested.value
          else st.rooms[i].room.config.maxPlayers == 2;
      MakesEarlier(bearer, steps, n, s, st.rooms[i].room.id, requested, i);
    } else {
      CreationAsAsked(st, step);
      MakesNow(bearer, steps);
      assert Makes(bearer, steps, |front|, step.s, Exec(bearer, steps).rooms[i].room.id,
        st.sessions[step.s].input[0].data.value.config, i);
    }
  }

  lemma MakesEarlier(bearer: string, steps: seq<Step>, n: nat, s: SessionId, rid: RoomId,
      requested: Option<RoomConfig>, i: IncId)
    requires Valid(bearer, steps) && steps != [] && Makes(bearer, steps[..|steps| - 1], n, s, rid, requested, i)
    ensures Makes(bearer, steps, n, s, rid, requested, i)
  {
  }

  lemma MakesNow(bearer: string, steps: seq<Step>)
    requires Valid(bearer, steps) && steps != []
    requires var st, step := Exec(bearer, steps[..|steps| - 1]), steps[|steps| - 1];
             && step.TakeInput? && step.s < |st.sessions| && st.sessions[step.s].input != []
             && var data := st.sessions[step.s].input[0].data;
             data.Some? && data.value.JoinRequest? && data.value.roomId !in st.registry
    ensures var st, step := Exec(bearer, steps[..|steps| - 1]), steps[|steps| - 1];
            var data := st.sessions[step.s].input[0].data.value;
            Makes(bearer, steps, |steps| - 1, step.s, data.roomId, data.config, |st.rooms|)
  {
    assert StateAt(bearer, steps, |steps| - 1) == Exec(bearer, steps[..|steps| - 1]);
    hide Exec, Valid;
  }

  /** A handled join is answered as its client's request and the request that made the room demand:
      with a mismatch iff the two ask for different rooms, otherwise as a member already, for lack
      of space iff there are as many members as the room was made for, two if no number was named,
      or with success. */
  lemma JoinAnsweredAsRequested(bearer: string, steps: seq<Step>, i: IncId, pos: nat)
    requires Valid(bearer, steps) && i < |Exec(bearer, steps).rooms| && pos < |Exec(bearer, steps).rooms[i].log|
    requires Exec(bearer, steps).rooms[i].log[pos].env.event.InputJoin?
    ensures var st := Exec(bearer, steps);
            var r, s := st.rooms[i], st.rooms[i].log[pos].env.from;
            && s < |st.sessions| && |Issued(r, pos)| == 1
            && var e, id, players := Issued(r, pos)[0], st.sessions[s].id, RoomAt(r, pos).players;
            exists n: nat, maker: SessionId, made, p: nat, requested ::
              && Makes(bearer, steps, n, maker, r.room.id, made, i)
              && p < |ClientSent(steps, s)| && ClientSent(steps, s)[p].data == Some(JoinRequest(r.room.id, requested))
              && (e == OutputJoin(Failure(RoomConfigDoesNotMatch(r.room.id, id))) <==>
                Places(requested) != Places(made))
              && (e == OutputJoin(Failure(AlreadyJoinedRoom(r.room.id, id))) <==>
                    Places(requested) == Places(made) && id in players)
              && (e == OutputJoin(Failure(RoomIsFull(r.room.id, id))) <==>
                    Places(requested) == Places(made) && id !in players && |players| == Places(made))
              && (IsOwnJoin(e, id) <==>
                    Places(requested) == Places(made) && id !in players && |players| < Places(made))
  {
    hide Exec, Valid, RoomAt, ClientSent, TakenAtSends, Issued, RoomOk, SentOk, MembersOk, FirstEventDue, Makes,
      Answers;
    var st := Exec(bearer, steps);
    var r := st.rooms[i];
    var env := r.log[pos].env;
    RequestsAnswered(bearer, steps, i, pos);
    RoomHolds(bearer, steps, i);
    LoggedWasSent(r, pos);
    CarriesHolds(bearer, steps, i, pos);
    TraceHolds(bearer, steps, env.from);
    RoomMadeAsRequested(bearer, steps, i);
    RoomAtIdentity(r, pos);
    var p := TakenAtSends(steps, env.from)[env.no] - 1;
    var requested := ClientSent(steps, env.from)[p].data.value.config;
    assert ClientSent(steps, env.from)[p].data == Some(JoinRequest(r.room.id, requested));
  }

  /** How many players a join request asks room for. */
  function Places(requested: Option<RoomConfig>): nat {
    if requested.Some? then requested.value.maxPlayers else 2
  }

  lemma RoomAtIdentity(r: Incarnation, pos: nat)
    requires pos <= |r.log|
    ensures RoomAt(r, pos).id == r.room.id && RoomAt(r, pos).config == r.room.config
  {
    Membership.FoldLogIdentity(r.room.id, r.room.config, r.log[..pos]);
    hide FoldLog;
  }
}
