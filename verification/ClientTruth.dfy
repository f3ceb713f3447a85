/** What a client is told is true: of messages, of refused and granted joins, and of logins. */
module ClientTruth {
  import opened Wrappers
  import opened Events
  import opened RoomCore
  import opened PlayerCore
  import opened Protocol
  import opened Rooms
  import opened Streams
  import opened Membership
  import opened Projection
  import opened Accounting
  import Login
  import opened ClientLog
  import opened ClientHears
  import opened Requests

  // ---------- From what was told to what was handled ----------

  lemma {:induction false} SaidContains(os: seq<Occasion>, k: nat)
    requires k < |os| && os[k].EventHandled?
    ensures os[k].event in EventsSaid(os)
  {
    if k < |os| - 1 {
      SaidContains(os[..|os| - 1], k);
    }
  }

  /** What was told on the occasion of an event was told because the session handled that event. */
  lemma ToldWasHandled(bearer: string, steps: seq<Step>, t: SessionId, k: nat)
    requires Valid(bearer, steps) && t < |Exec(bearer, steps).sessions| && k < |Exec(bearer, steps).sessions[t].out|
    ensures k < |Occasions(bearer, steps, t)|
    ensures var x, o := Exec(bearer, steps).sessions[t], Occasions(bearer, steps, t)[k];
            && Tells(o, x.id, bearer, x.out[k])
            && (o.EventHandled? ==> exists j :: 0 <= j < |x.handled| && x.handled[j].event == o.event)
  {
    hide Exec, Valid, Occasions, EventsSaid, Tells;
    ToldAsOccasioned(bearer, steps, t);
    EveryEventTold(bearer, steps, t);
    var x, os := Exec(bearer, steps).sessions[t], Occasions(bearer, steps, t);
    if os[k].EventHandled? {
      SaidContains(os, k);
      assert os[k].event in EventsIn(x.handled);
      var j :| 0 <= j < |EventsIn(x.handled)| && EventsIn(x.handled)[j] == os[k].event;
      assert x.handled[j].event == os[k].event;
    }
  }

  lemma NotificationOccasion(o: Occasion, id: PlayerId, expected: string, m: ServerMessage)
    requires Tells(o, id, expected, m) && m.MessageNotification?
    ensures o.EventHandled? && o.event == OutputMessage(MessageInfo(m.roomId, m.senderId, m.body))
  {
  }

  /** A notification is true: the session whose id it shows belongs to a client that sent these words
      to this room, to everyone or to a list with the hearer in it. */
  lemma NotificationIsTrue(bearer: string, steps: seq<Step>, t: SessionId, k: nat)
    requires Valid(bearer, steps) && t < |Exec(bearer, steps).sessions|
    requires k < |Exec(bearer, steps).sessions[t].out| && Exec(bearer, steps).sessions[t].out[k].MessageNotification?
    ensures var st := Exec(bearer, steps);
            var m := st.sessions[t].out[k];
            exists s: SessionId, p: nat, targetIds ::
              && s < |st.sessions| && st.sessions[s].id == m.senderId && p < |ClientSent(steps, s)|
              && ClientSent(steps, s)[p].data == Some(SendMessage(targetIds, m.roomId, m.body))
              && (targetIds == [] || st.sessions[t].id in targetIds)
  {
    hide Exec, Valid, Tells, Occasions, ClientSent, StemsFrom, RoomAt;
    ToldWasHandled(bearer, steps, t, k);
    var st := Exec(bearer, steps);
    var x := st.sessions[t];
    NotificationOccasion(Occasions(bearer, steps, t)[k], x.id, bearer, x.out[k]);
    var j :| 0 <= j < |x.handled| && x.handled[j].event == Occasions(bearer, steps, t)[k].event;
    assert Stream(x)[j] == x.handled[j];
    MessageStemsFromClient(bearer, steps, t, j);
  }

  // ---------- Refused joins ----------

  lemma RefusalIsAnswer<C>(room: RoomState<C>, e: InputEvent<C>, order: seq<PlayerId>, t: C, event: OutputEvent)
    requires Send(t, event) in Handle(room, e, order).sends && event.OutputJoin? && event.join.Failure?
    ensures e.InputJoin? && e.player.sender == t && Handle(room, e, order).sends == [Send(t, event)]
    ensures event.join.error.roomId == room.id && event.join.error.playerId == e.player.id
  {
    match e {
      case InputJoin(player, config) =>
        var added := AddPlayer(room, player, config);
        if added.Success? {
          BroadcastEvent(added.value.players, order,
            OutputJoin(Success(JoinInfo(room.id, player.id, order, room.config))), Send(t, event));
        }
      case InputLeave(playerId) =>
        if playerId in room.players {
          BroadcastEvent(room.players, order, OutputLeave(Success(LeaveInfo(room.id, playerId))), Send(t, event));
        }
      case InputMessage(senderId, targetIds, body) =>
        BroadcastEvent(room.players, if targetIds == [] then order else targetIds,
          OutputMessage(MessageInfo(room.id, senderId, body)), Send(t, event));
    }
  }

  /** A refusal on a session's channel is the answer to a join of its own. */
  lemma RefusalIsIssued(bearer: string, steps: seq<Step>, t: SessionId, j: nat)
    requires Valid(bearer, steps) && t < |Exec(bearer, steps).sessions| && j < |Stream(Exec(bearer, steps).sessions[t])|
    requires var e := Stream(Exec(bearer, steps).sessions[t])[j].event; e.OutputJoin? && e.join.Failure?
    ensures var st := Exec(bearer, steps);
            var d := Stream(st.sessions[t])[j];
            && d.inc < |st.rooms| && d.pos < |st.rooms[d.inc].log|
            && var r := st.rooms[d.inc];
            && d.event.join.error.roomId == r.room.id && d.event.join.error.playerId == st.sessions[t].id
            && r.log[d.pos].env.from == t && r.log[d.pos].env.event.InputJoin? && Issued(r, d.pos) == [d.event]
  {
    hide Exec, Valid, RoomAt, FoldLog, Handle;
    OriginOfDelivery(bearer, steps, t, j);
    var st := Exec(bearer, steps);
    var d := Stream(st.sessions[t])[j];
    var r := st.rooms[d.inc];
    var entry := r.log[d.pos];
    RoomAtIdentity(r, d.pos);
    RefusalIsAnswer(RoomAt(r, d.pos), entry.env.event, entry.order, t, d.event);
    LoggedIsSpoken(bearer, steps, d.inc, d.pos);
    assert [Send(t, d.event)][1..] == [];
    assert To<SessionId, OutputEvent>([], t) == [];
  }

  lemma RefusalOccasion(o: Occasion, id: PlayerId, expected: string, m: ServerMessage)
    requires Tells(o, id, expected, m) && m.JoinResponse? &&
      (m.code == AlreadyJoinedTheRoom || m.code == RoomConfigMismatch)
    ensures o.EventHandled? && o.event.OutputJoin? && o.event.join.Failure? && o.event.join.error.roomId == m.roomId
    ensures if m.code == AlreadyJoinedTheRoom then o.event.join.error.AlreadyJoinedRoom?
            else o.event.join.error.RoomConfigDoesNotMatch?
  {
  }

  /** A refusal told to a client is true: its session's join was handled by an incarnation of the room
      id, and, when told that it has joined already, its id was in and it had asked for as many
      places as the room was made for; when told of a mismatch, it had asked for another number. */
  lemma RefusalIsTrue(bearer: string, steps: seq<Step>, t: SessionId, k: nat)
    requires Valid(bearer, steps) && t < |Exec(bearer, steps).sessions| && k < |Exec(bearer, steps).sessions[t].out|
    requires var m := Exec(bearer, steps).sessions[t].out[k];
             m.JoinResponse? && (m.code == AlreadyJoinedTheRoom || m.code == RoomConfigMismatch)
    ensures var st := Exec(bearer, steps);
            var m := st.sessions[t].out[k];
            exists i: IncId, pos: nat, n: nat, maker: SessionId, made, p: nat, requested ::
              && i < |st.rooms| && pos < |st.rooms[i].log| && st.rooms[i].room.id == m.roomId
              && st.rooms[i].log[pos].env.from == t
              && Makes(bearer, steps, n, maker, m.roomId, made, i)
              && p < |ClientSent(steps, t)| && ClientSent(steps, t)[p].data == Some(JoinRequest(m.roomId, requested))
              && if m.code == RoomConfigMismatch then Places(requested) != Places(made)
                 else Places(requested) == Places(made) && st.sessions[t].id in RoomAt(st.rooms[i], pos).players
  {
    hide Exec, Valid, Tells, Occasions, ClientSent, Makes, RoomAt, Issued;
    ToldWasHandled(bearer, steps, t, k);
    var st := Exec(bearer, steps);
    var x := st.sessions[t];
    RefusalOccasion(Occasions(bearer, steps, t)[k], x.id, bearer, x.out[k]);
    var j :| 0 <= j < |x.handled| && x.handled[j].event == Occasions(bearer, steps, t)[k].event;
    assert Stream(x)[j] == x.handled[j];
    RefusalIsIssued(bearer, steps, t, j);
    var d := x.handled[j];
    JoinAnsweredAsRequested(bearer, steps, d.inc, d.pos);
  }

  // ---------- Granted joins ----------

  lemma GrantOccasion(o: Occasion, id: PlayerId, expected: string, m: ServerMessage)
    requires Tells(o, id, expected, m) && m.JoinResponse? && m.code == NoError
    ensures o.EventHandled? && IsOwnJoin(o.event, id)
    ensures var info := o.event.join.value;
            m == JoinResponse(info.roomId, info.roomPlayerIds, Some(info.roomConfig), NoError)
  {
  }

  lemma GrantIsJoin<C>(room: RoomState<C>, e: InputEvent<C>, order: seq<PlayerId>, t: C, info: JoinInfo)
    requires Send(t, OutputJoin(Success(info))) in Handle(room, e, order).sends
    requires Enumerates(order, Iterated(room, e).Keys)
    ensures e.InputJoin? && info == JoinInfo(room.id, e.player.id, order, room.config)
    ensures Enumerates(info.roomPlayerIds, Handle(room, e, order).room.players.Keys)
  {
    var event := OutputJoin(Success(info));
    match e {
      case InputJoin(player, config) =>
        var added := AddPlayer(room, player, config);
        if added.Success? {
          BroadcastEvent(added.value.players, order,
            OutputJoin(Success(JoinInfo(room.id, player.id, order, room.config))), Send(t, event));
        }
      case InputLeave(playerId) =>
        if playerId in room.players {
          BroadcastEvent(room.players, order, OutputLeave(Success(LeaveInfo(room.id, playerId))), Send(t, event));
        }
      case InputMessage(senderId, targetIds, body) =>
        BroadcastEvent(room.players, if targetIds == [] then order else targetIds,
          OutputMessage(MessageInfo(room.id, senderId, body)), Send(t, event));
    }
  }

  /** A granted join told to a client is true: an incarnation of the room id with the configuration
      told handled a join under the session's id, and had exactly the players told, each once. */
  lemma GrantIsTrue(bearer: string, steps: seq<Step>, t: SessionId, k: nat)
    requires Valid(bearer, steps) && t < |Exec(bearer, steps).sessions| && k < |Exec(bearer, steps).sessions[t].out|
    requires var m := Exec(bearer, steps).sessions[t].out[k]; m.JoinResponse? && m.code == NoError
    ensures var st := Exec(bearer, steps);
            var m := st.sessions[t].out[k];
            exists i: IncId, pos: nat ::
              && i < |st.rooms| && pos < |st.rooms[i].log| && st.rooms[i].room.id == m.roomId
              && m.roomConfig == Some(st.rooms[i].room.config)
              && st.rooms[i].log[pos].env.event.InputJoin? &&
                st.rooms[i].log[pos].env.event.player.id == st.sessions[t].id
              && Enumerates(m.currentPlayers, RoomAt(st.rooms[i], pos + 1).players.Keys)
  {
    hide Exec, Valid, Tells, Occasions, RoomAt, FoldLog, Handle, Enumerates, Iterated, IsOwnJoin, RoomOk, OrdersOk,
      Projected;
    ToldWasHandled(bearer, steps, t, k);
    var st := Exec(bearer, steps);
    var x := st.sessions[t];
    GrantOccasion(Occasions(bearer, steps, t)[k], x.id, bearer, x.out[k]);
    var j :| 0 <= j < |x.handled| && x.handled[j].event == Occasions(bearer, steps, t)[k].event;
    assert Stream(x)[j] == x.handled[j];
    var d := x.handled[j];
    OwnJoinParts(d.event, x.id);
    OriginOfDelivery(bearer, steps, t, j);
    ProjectionHolds(bearer, steps);
    var r := st.rooms[d.inc];
    assert OrdersOk(r);
    GrantInRoom(r, d.pos, t, d.event.join.value);
  }

  lemma OwnJoinParts(e: OutputEvent, id: PlayerId)
    requires IsOwnJoin(e, id)
    ensures e.OutputJoin? && e.join.Success? && e.join.value.playerId == id && e == OutputJoin(Success(e.join.value))
  {
  }

  lemma GrantInRoom(r: Incarnation, pos: nat, t: SessionId, info: JoinInfo)
    requires OrdersOk(r) && pos < |r.log| && Send(t, OutputJoin(Success(info))) in SendsAt(r, pos)
    ensures info.roomId == r.room.id && info.roomConfig == r.room.config
    ensures r.log[pos].env.event.InputJoin? && r.log[pos].env.event.player.id == info.playerId
    ensures Enumerates(info.roomPlayerIds, RoomAt(r, pos + 1).players.Keys)
  {
    hide Enumerates, Iterated, Handle, FoldLog;
    var entry := r.log[pos];
    RoomAtIdentity(r, pos);
    GrantIsJoin(RoomAt(r, pos), entry.env.event, entry.order, t, info);
    FoldLogStep(r.room.id, r.room.config, r.log[..pos + 1]);
    assert r.log[..pos + 1][..pos] == r.log[..pos];
  }

  // ---------- Logins ----------

  /** Step `n` is the attempt of session `s` to log in with its client's message number `p`, the first
      that carries data. */
  ghost predicate Attempts(bearer: string, steps: seq<Step>, n: nat, s: SessionId, p: nat)
    requires Valid(bearer, steps)
  {
    && n < |steps| && steps[n] == TryLogin(s) && TakenCount(steps[..n], s) == p
    && p < TakenCount(steps, s) && FirstData(ClientSent(steps, s), p)
  }

  /** How the attempt ended, given the ids registered when it was made. */
  ghost predicate Ended(bearer: string, x: Session, players: set<PlayerId>, data: ClientData, os: seq<Occasion>) {
    && !x.pc.AwaitLogin?
    && (x.epoch > 0 <==> data.LoginRequest? && data.bearer == Some(bearer) && data.playerId !in players)
    && (x.epoch > 0 ==> x.id == data.playerId)
    && (if data.LoginRequest? then os != [] &&
      os[0] == LoginTried(data.playerId, data.bearer, data.playerId !in players)
        else os == [] && x.pc.Finished?)
  }

  ghost predicate NotTried(steps: seq<Step>, x: Session, s: SessionId, os: seq<Occasion>) {
    && (x.pc.AwaitLogin? || x.pc.Finished?) && x.epoch == 0 && os == []
    && TakenCount(steps, s) <= |ClientSent(steps, s)|
    && forall k :: 0 <= k < TakenCount(steps, s) ==> ClientSent(steps, s)[k].data.None?
  }

  ghost predicate Tried(bearer: string, steps: seq<Step>, s: SessionId, n: nat, p: nat)
    requires Valid(bearer, steps) && s < |Exec(bearer, steps).sessions|
  {
    && Attempts(bearer, steps, n, s, p)
    && Ended(bearer, Exec(bearer, steps).sessions[s], StateAt(bearer, steps, n).players,
         ClientSent(steps, s)[p].data.value, Occasions(bearer, steps, s))
  }

  lemma AttemptStep(st: State, s: SessionId, bearer: string)
    requires Enabled(st, TryLogin(s)) && st.bearer == bearer && SessionOk(st.sessions[s], st.rooms)
    ensures s < |Apply(st, TryLogin(s)).sessions|
    ensures var x, x' := st.sessions[s], Apply(st, TryLogin(s)).sessions[s];
            var data, os := x.input[0].data, OccasionOf(st, TryLogin(s), s);
            && (data.None? ==> x'.pc == x.pc && x'.epoch == 0 && os == [])
            && (data.Some? ==> Ended(bearer, x', st.players, data.value, os))
  {
  }

  lemma EndedLasts(bearer: string, st: State, step: Step, s: SessionId, players: set<PlayerId>, data: ClientData,
      os: seq<Occasion>)
    requires Enabled(st, step) && s < |st.sessions| && SessionOk(st.sessions[s], st.rooms) && SessionsOk(st)
    requires Ended(bearer, st.sessions[s], players, data, os)
    ensures s < |Apply(st, step).sessions|
    ensures Ended(bearer, Apply(st, step).sessions[s], players, data, os + OccasionOf(st, step, s))
  {
    var x := st.sessions[s];
    NotTryingAgain(st, step, s);
    IdKept(st, step, s);
    Login.LoginStepOf(st, step, s);
    if !data.LoginRequest? {
      FinishedSilent(st, step, s);
    }
    hide Apply, Enabled, OccasionOf;
    assert os + [] == os;
  }

  lemma NotTryingAgain(st: State, step: Step, s: SessionId)
    requires Enabled(st, step) && s < |st.sessions| && !st.sessions[s].pc.AwaitLogin?
    ensures step != TryLogin(s)
  {
  }

  lemma FinishedSilent(st: State, step: Step, s: SessionId)
    requires Enabled(st, step) && s < |st.sessions| && st.sessions[s].pc.Finished?
    ensures OccasionOf(st, step, s) == []
    ensures s < |Apply(st, step).sessions| && Apply(st, step).sessions[s].pc.Finished?
  {
    DepartureLasts(st, step, s);
    if RoomStep(step) || step.Connect? || step.s != s {
      OthersUntouched(st, step, s);
      hide Apply;
    }
  }

  lemma {:induction false} LoginHistory(bearer: string, steps: seq<Step>, s: SessionId)
    requires Valid(bearer, steps) && s < |Exec(bearer, steps).sessions|
    ensures NotTried(steps, Exec(bearer, steps).sessions[s], s, Occasions(bearer, steps, s))
            || exists n: nat, p: nat :: Tried(bearer, steps, s, n, p)
  {
    hide Apply, Enabled, NotTried, Tried, Inv, SessionOk, SessionsOk;
    if steps != [] {
      var front, step := steps[..|steps| - 1], steps[|steps| - 1];
      assert front + [step] == steps;
      var st := Exec(bearer, front);
      InvHolds(bearer, front);
      if s >= |st.sessions| {
        NotTriedYet(bearer, front, step, s);
      } else if exists n: nat, p: nat :: Tried(bearer, front, s, n, p) {
        var n: nat, p: nat :| Tried(bearer, front, s, n, p);
        TriedLasts(bearer, front, step, s, n, p);
      } else {
        LoginHistory(bearer, front, s);
        FirstTry(bearer, front, step, s);
      }
    }
  }

  lemma NotTriedYet(bearer: string, steps: seq<Step>, step: Step, s: SessionId)
    requires Valid(bearer, steps) && Enabled(Exec(bearer, steps), step) && Valid(bearer, steps + [step])
    requires |Exec(bearer, steps).sessions| <= s < |Exec(bearer, steps + [step]).sessions|
    ensures NotTried(steps + [step], Exec(bearer, steps + [step]).sessions[s], s, Occasions(bearer, steps + [step], s))
  {
    var next := steps + [step];
    OneMore(bearer, steps, step);
    assert next[..|next| - 1] == steps;
    NoClientYet(bearer, steps, s);
    StillNoClient(steps, Exec(bearer, steps), step, s);
    NoOccasionYet(bearer, steps, s);
    NoOccasion(Exec(bearer, steps), step, s);
    Newborn(Exec(bearer, steps), step, s);
    assert Occasions(bearer, next, s) == [] + [];
    hide Exec, Valid, Occasions;
  }

  lemma SentGoesOn(steps: seq<Step>, step: Step, s: SessionId)
    ensures ClientSent(steps, s) <= ClientSent(steps + [step], s)
    ensures TakenCount(steps + [step], s) == TakenCount(steps, s) + if Takes(step, s) then 1 else 0
  {
    assert (steps + [step])[..|steps + [step]| - 1] == steps;
  }

  lemma TriedLasts(bearer: string, steps: seq<Step>, step: Step, s: SessionId, n: nat, p: nat)
    requires Valid(bearer, steps) && Enabled(Exec(bearer, steps), step) && Valid(bearer, steps + [step])
    requires s < |Exec(bearer, steps).sessions| && s < |Exec(bearer, steps + [step]).sessions|
    requires Tried(bearer, steps, s, n, p) && Inv(Exec(bearer, steps))
    ensures Tried(bearer, steps + [step], s, n, p)
  {
    hide Apply, Enabled, Inv, SessionsOk, SessionOk, Ended, ClientSent, TakenCount, OccasionOf;
    var next := steps + [step];
    OneMore(bearer, steps, step);
    assert next[..|next| - 1] == steps;
    SentGoesOn(steps, step, s);
    SessionFact(Exec(bearer, steps), s);
    Login.InvSessions(Exec(bearer, steps));
    EndedLasts(bearer, Exec(bearer, steps), step, s, StateAt(bearer, steps, n).players,
      ClientSent(steps, s)[p].data.value,
      Occasions(bearer, steps, s));
    assert StateAt(bearer, next, n) == StateAt(bearer, steps, n);
    assert next[..n] == steps[..n];
  }

  lemma FirstTry(bearer: string, steps: seq<Step>, step: Step, s: SessionId)
    requires Valid(bearer, steps) && Enabled(Exec(bearer, steps), step) && Valid(bearer, steps + [step])
    requires s < |Exec(bearer, steps).sessions| && s < |Exec(bearer, steps + [step]).sessions|
    requires Inv(Exec(bearer, steps)) &&
      NotTried(steps, Exec(bearer, steps).sessions[s], s, Occasions(bearer, steps, s))
    ensures NotTried(steps + [step], Exec(bearer, steps + [step]).sessions[s], s, Occasions(bearer, steps + [step], s))
            || exists n: nat, p: nat :: Tried(bearer, steps + [step], s, n, p)
  {
    hide Apply, Enabled, Inv, SessionsOk, SessionOk, Ended, ClientSent, TakenCount, OccasionOf;
    var st, next := Exec(bearer, steps), steps + [step];
    OneMore(bearer, steps, step);
    assert next[..|next| - 1] == steps;
    SentGoesOn(steps, step, s);
    SessionFact(st, s);
    InputIsFifo(bearer, next, s);
    assert [] + OccasionOf(st, step, s) == OccasionOf(st, step, s);
    if step == TryLogin(s) {
      Login.BearerFixed(bearer, steps);
      InputIsFifo(bearer, steps, s);
      EffectOf(st, step, s);
      AttemptStep(st, s, bearer);
      var p := TakenCount(steps, s);
      assert ClientSent(steps, s)[p] == st.sessions[s].input[0];
      if st.sessions[s].input[0].data.Some? {
        assert StateAt(bearer, next, |steps|) == st;
        assert Tried(bearer, next, s, |steps|, p);
      }
    } else {
      StillWaiting(st, step, s);
    }
  }

  lemma StillWaiting(st: State, step: Step, s: SessionId)
    requires Enabled(st, step) && s < |st.sessions| && step != TryLogin(s) && SessionOk(st.sessions[s], st.rooms)
    requires st.sessions[s].pc.AwaitLogin? || st.sessions[s].pc.Finished?
    requires st.sessions[s].epoch == 0
    ensures s < |Apply(st, step).sessions| && !Takes(step, s) && OccasionOf(st, step, s) == []
    ensures var x' := Apply(st, step).sessions[s];
            (x'.pc.AwaitLogin? || x'.pc.Finished?) && x'.epoch == 0
  {
    if st.sessions[s].pc.Finished? {
      FinishedSilent(st, step, s);
    } else {
      AwaitsInSilence(st, step, s);
    }
    if RoomStep(step) || step.Connect? || step.s != s {
      OthersUntouched(st, step, s);
      hide Apply;
    }
  }

  /** How logins end, over every run. As long as a session has taken no message with data, it is not
      logged in and has told its client nothing. Otherwise the first message with data decided:
      the session is, or was, logged in iff that message asked for a login under an id that was
      not registered and carried the expected token, and under that id. The first thing its
      client was told, if it was there to hear it, is that the id is in use iff it was registered,
      that it is not authorized iff the id was unused and the token missing or wrong, and success
      otherwise; a client whose message asked for anything else was told nothing. */
  lemma LoginEndsAsAsked(bearer: string, steps: seq<Step>, s: SessionId)
    requires Valid(bearer, steps) && s < |Exec(bearer, steps).sessions|
    ensures TakenCount(steps, s) <= |ClientSent(steps, s)|
    ensures var x := Exec(bearer, steps).sessions[s];
            (forall k :: 0 <= k < TakenCount(steps, s) ==> ClientSent(steps, s)[k].data.None?) ==>
              x.epoch == 0 && x.out == []
    ensures var x := Exec(bearer, steps).sessions[s];
            forall p: nat :: p < TakenCount(steps, s) && FirstData(ClientSent(steps, s), p) ==>
              exists n: nat ::
                && n < |steps| && steps[n] == TryLogin(s) && TakenCount(steps[..n], s) == p
                && var data, players := ClientSent(steps, s)[p].data.value, StateAt(bearer, steps, n).players;
                && (x.epoch > 0 <==> data.LoginRequest? && data.bearer == Some(bearer) && data.playerId !in players)
                && (x.epoch > 0 ==> x.id == data.playerId)
                && (!data.LoginRequest? ==> x.out == [] && x.pc.Finished?)
                && (data.LoginRequest? && !x.clientGone ==> x.out != [])
                && (data.LoginRequest? && x.out != [] ==>
                      && x.out[0].LoginResponse?
                      && (x.out[0].code == AlreadyLoggedIn <==> data.playerId in players)
                      && (x.out[0].code == Unauthorized <==> data.playerId !in players && data.bearer != Some(bearer))
                      && (x.out[0].code == NoError <==> data.playerId !in players && data.bearer == Some(bearer)))
  {
    hide Exec, Valid, ClientSent, TakenCount, Occasions, StateAt;
    LoginHistory(bearer, steps, s);
    ToldAsOccasioned(bearer, steps, s);
    InputIsFifo(bearer, steps, s);
  }
}
