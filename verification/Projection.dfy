/** What each incarnation sends a session is a pure projection of the events it handled. */
module Projection {
  import opened Events
  import opened RoomCore
  import opened PlayerCore
  import opened Protocol
  import opened Rooms
  import opened Streams
  import opened Membership
  import opened Cache
  import opened Coherence

  /** The part of a stream that incarnation `i` sent. */
  function FromInc(stream: seq<Delivery>, i: IncId): seq<Delivery> {
    if stream == [] then []
    else FromInc(stream[..|stream| - 1], i) + if stream[|stream| - 1].inc == i then [stream[|stream| - 1]] else []
  }

  /** Everything the sends of a log address to session `s`. */
  function Posted(i: IncId, id: RoomId, config: RoomConfig, log: seq<Entry>, s: SessionId): seq<Delivery> {
    if log == [] then []
    else
      var front, last := log[..|log| - 1], log[|log| - 1];
      Posted(i, id, config, front, s)
      + PostsTo(Tag(Handle(FoldLog(id, config, front), last.env.event, last.order).sends, i, |front|), s)
  }

  /** The projection of a log to a player's session: event by event, what the player is owed. */
  function Project(i: IncId, id: RoomId, config: RoomConfig, log: seq<Entry>, s: SessionId,
      player: PlayerId): seq<Delivery> {
    if log == [] then []
    else
      var front, last := log[..|log| - 1], log[|log| - 1];
      Project(i, id, config, front, s, player)
      + Marked(Owed(FoldLog(id, config, front), last.env.event, last.order, s, player), i, |front|)
  }

  // ---------- Filtering ----------

  lemma FromIncAppend(stream: seq<Delivery>, d: Delivery, i: IncId)
    ensures FromInc(stream + [d], i) == FromInc(stream, i) + if d.inc == i then [d] else []
  {
    assert (stream + [d])[..|stream + [d]| - 1] == stream;
  }

  lemma {:induction false} FromIncConcat(a: seq<Delivery>, b: seq<Delivery>, i: IncId)
    ensures FromInc(a + b, i) == FromInc(a, i) + FromInc(b, i)
  {
    if b == [] {
      assert a + b == a;
    } else {
      var front, last := b[..|b| - 1], b[|b| - 1];
      FromIncConcat(a, front, i);
      assert a + b == (a + front) + [last];
      FromIncAppend(a + front, last, i);
    }
  }

  lemma {:induction false} FromIncMember(stream: seq<Delivery>, i: IncId, d: Delivery)
    ensures d in FromInc(stream, i) <==> d in stream && d.inc == i
  {
    if stream != [] {
      FromIncMember(stream[..|stream| - 1], i, d);
      assert stream == stream[..|stream| - 1] + [stream[|stream| - 1]];
    }
  }

  // ---------- The invariant ----------

  function SessionAt(st: State, s: SessionId): Session {
    if s < |st.sessions| then st.sessions[s] else NEW_SESSION
  }

  ghost predicate Projected(st: State, s: SessionId, i: IncId)
    requires i < |st.rooms|
  {
    var r := st.rooms[i];
    FromInc(Stream(SessionAt(st, s)), i) + PostsTo(r.outbox, s) == Posted(i, r.room.id, r.room.config, r.log, s)
  }

  ghost predicate OrdersOk(r: Incarnation) {
    forall k :: 0 <= k < |r.log| ==> Enumerates(r.log[k].order, Iterated(RoomAt(r, k), r.log[k].env.event).Keys)
  }

  ghost predicate ProjectionInv(st: State) {
    && (forall s: nat, i :: 0 <= i < |st.rooms| && Alive(SessionAt(st, s).pc) ==> Projected(st, s, i))
    && (forall i :: 0 <= i < |st.rooms| ==> OrdersOk(st.rooms[i]))
  }

  lemma TakeProjected(st: State, i: IncId, order: seq<PlayerId>, s: SessionId)
    requires Enabled(st, RoomTake(i, order)) && RoomOk(st.rooms[i])
    requires Projected(st, s, i)
    ensures Projected(Apply(st, RoomTake(i, order)), s, i)
  {
    hide Handle, Enumerates, Iterated, FoldLog;
    var r := st.rooms[i];
    var log := r.log + [Entry(r.queue[0], order)];
    assert log[..|log| - 1] == r.log;
    HandleIdentity(r.room, r.queue[0].event, order);
    FoldLogIdentity(r.room.id, r.room.config, log);
    HandleConfig(r.room, r.queue[0].event, order);
    assert r.outbox == [];
  }

  lemma HandleConfig<C>(room: RoomState<C>, event: InputEvent<C>, order: seq<PlayerId>)
    ensures Handle(room, event, order).room.config == room.config
  {
  }

  lemma DeliverProjected(st: State, j: IncId, s: SessionId, i: IncId)
    requires Enabled(st, RoomDeliver(j)) && i < |st.rooms|
    requires OutboxOrigin(st.rooms, j) && SentOk(st.sessions, st.rooms[j])
    requires Alive(SessionAt(st, s).pc)
    requires Projected(st, s, i)
    ensures Projected(Apply(st, RoomDeliver(j)), s, i)
  {
    hide Origin, Posted, FromInc, PostsTo;
    var st' := Apply(st, RoomDeliver(j));
    var post := st.rooms[j].outbox[0];
    assert LoggedIn(st.sessions, post.to);
    var more := if post.to == s then [post.delivery] else [];
    if s < |st.sessions| {
      StreamStep(st, RoomDeliver(j), s);
    }
    assert Stream(SessionAt(st', s)) == Stream(SessionAt(st, s)) + more;
    FromIncAppend(Stream(SessionAt(st, s)), post.delivery, i);
    PostsToFirst(st.rooms[j].outbox, s);
    assert Stream(SessionAt(st, s)) + [] == Stream(SessionAt(st, s));
  }

  lemma PostsToFirst(outbox: seq<Post>, s: SessionId)
    requires outbox != []
    ensures PostsTo(outbox, s) == (if outbox[0].to == s then [outbox[0].delivery] else []) + PostsTo(outbox[1..], s)
  {
  }

  lemma SameProjected(st: State, st': State, s: SessionId, i: IncId)
    requires i < |st.rooms| && i < |st'.rooms| && Projected(st, s, i)
    requires Stream(SessionAt(st', s)) == Stream(SessionAt(st, s))
    requires var r, r' := st.rooms[i], st'.rooms[i];
             r'.outbox == r.outbox && r'.log == r.log && r'.room.id == r.room.id && r'.room.config == r.room.config
    ensures Projected(st', s, i)
  {
  }

  lemma NewProjected(st: State, st': State, s: SessionId, i: IncId)
    requires i == |st.rooms| && i < |st'.rooms| && st'.rooms[i].outbox == [] && st'.rooms[i].log == []
    requires OriginInv(st) && Stream(SessionAt(st', s)) == Stream(SessionAt(st, s))
    ensures Projected(st', s, i)
  {
    var stream := Stream(SessionAt(st, s));
    forall k | 0 <= k < |stream| ensures stream[k].inc != i {
      assert StreamOrigin(st.rooms, st.sessions[s], s);
      assert Origin(st.rooms, Post(s, stream[k]));
    }
    FromIncNone(stream, i);
  }

  lemma {:induction false} FromIncNone(stream: seq<Delivery>, i: IncId)
    requires forall k :: 0 <= k < |stream| ==> stream[k].inc != i
    ensures FromInc(stream, i) == []
  {
    if stream != [] {
      FromIncNone(stream[..|stream| - 1], i);
    }
  }

  lemma StreamAtStep(st: State, step: Step, s: SessionId)
    requires Enabled(st, step) && !step.RoomDeliver?
    ensures Stream(SessionAt(Apply(st, step), s)) == Stream(SessionAt(st, s))
  {
    if s < |st.sessions| {
      StreamStep(st, step, s);
    } else {
      SessionCount(st, step);
      if |Apply(st, step).sessions| > |st.sessions| {
        assert Apply(st, step).sessions[|st.sessions|] == NEW_SESSION;
      }
    }
  }

  lemma ProjectedStep(st: State, step: Step, s: SessionId, i: IncId)
    requires Inv(st) && OriginInv(st) && Enabled(st, step)
    requires i < |Apply(st, step).rooms| && Alive(SessionAt(st, s).pc)
    requires i < |st.rooms| ==> Projected(st, s, i)
    ensures Projected(Apply(st, step), s, i)
  {
    hide RoomOk, SentOk, MembersOk, SessionsOk, FirstEventDue, RegistryOk, OutboxOrigin, StreamOrigin, Projected;
    var st' := Apply(st, step);
    if step.RoomDeliver? {
      DeliverProjected(st, step.i, s, i);
    } else if step.RoomTake? && step.i == i {
      TakeProjected(st, i, step.order, s);
    } else {
      StreamAtStep(st, step, s);
      if i == |st.rooms| {
        CreatedRoom(st, step);
        NewProjected(st, st', s, i);
      } else {
        OutboxShrinks(st, step, i);
        RoomIdentity(st, step);
        SameProjected(st, st', s, i);
      }
    }
  }

  lemma CreatedRoom(st: State, step: Step)
    requires Enabled(st, step) && |Apply(st, step).rooms| > |st.rooms|
    ensures |Apply(st, step).rooms| == |st.rooms| + 1
    ensures Apply(st, step).rooms[|st.rooms|].outbox == [] && Apply(st, step).rooms[|st.rooms|].log == []
  {
    assert Creates(st, step);
  }

  lemma OrdersStep(st: State, step: Step, i: IncId)
    requires Enabled(st, step) && i < |st.rooms| && i < |Apply(st, step).rooms|
    requires OrdersOk(st.rooms[i]) && RoomOk(st.rooms[i])
    ensures OrdersOk(Apply(st, step).rooms[i])
  {
    hide Enumerates, Iterated, Apply, RoomOk, Enabled, RoomAt;
    var r, r' := st.rooms[i], Apply(st, step).rooms[i];
    LogsGrowStep(st, step);
    if |r'.log| > |r.log| {
      LastOrder(st, step, i);
    }
    forall k | 0 <= k < |r'.log|
      ensures Enumerates(r'.log[k].order, Iterated(RoomAt(r', k), r'.log[k].env.event).Keys)
    {
      if k < |r.log| {
        RoomAtGrows(r, r', k);
      }
    }
  }

  lemma LastOrder(st: State, step: Step, i: IncId)
    requires Enabled(st, step) && i < |st.rooms| && i < |Apply(st, step).rooms| && RoomOk(st.rooms[i])
    requires |Apply(st, step).rooms[i].log| > |st.rooms[i].log|
    ensures var r' := Apply(st, step).rooms[i];
            && |r'.log| == |st.rooms[i].log| + 1
            && Enumerates(r'.log[|r'.log| - 1].order,
              Iterated(RoomAt(r', |r'.log| - 1), r'.log[|r'.log| - 1].env.event).Keys)
  {
    hide Enumerates, Iterated;
    if !(step.RoomTake? && step.i == i) {
      OutboxShrinks(st, step, i);
    }
    LogsGrowStep(st, step);
    RoomAtGrows(st.rooms[i], Apply(st, step).rooms[i], |st.rooms[i].log|);
    assert st.rooms[i].log[..|st.rooms[i].log|] == st.rooms[i].log;
  }

  lemma AliveBefore(st: State, step: Step, s: SessionId)
    requires Enabled(st, step) && Alive(SessionAt(Apply(st, step), s).pc)
    ensures Alive(SessionAt(st, s).pc)
  {
    SessionCount(st, step);
    if s < |st.sessions| {
      StillAlive(st, step, s);
    }
  }

  lemma {:induction false} ProjectionHolds(bearer: string, steps: seq<Step>)
    requires Valid(bearer, steps)
    ensures ProjectionInv(Exec(bearer, steps))
  {
    hide RoomOk, SentOk, MembersOk, SessionsOk, FirstEventDue, RegistryOk, OutboxOrigin, StreamOrigin, Projected,
      OrdersOk, Apply, Enabled, Alive, SessionAt;
    if steps != [] {
      var before, step := Exec(bearer, steps[..|steps| - 1]), steps[|steps| - 1];
      ProjectionHolds(bearer, steps[..|steps| - 1]);
      InvHolds(bearer, steps[..|steps| - 1]);
      OriginHolds(bearer, steps[..|steps| - 1]);
      var st' := Exec(bearer, steps);
      forall s: nat, i | 0 <= i < |st'.rooms| && Alive(SessionAt(st', s).pc) ensures Projected(st', s, i) {
        AliveBefore(before, step, s);
        ProjectedStep(before, step, s, i);
      }
      forall i | 0 <= i < |st'.rooms| ensures OrdersOk(st'.rooms[i]) {
        if i < |before.rooms| {
          OrdersStep(before, step, i);
        } else {
          CreatedRoom(before, step);
          NewOrders(st'.rooms[i]);
        }
      }
    }
  }

  lemma NewOrders(r: Incarnation)
    requires r.log == []
    ensures OrdersOk(r)
  {
  }

  // ---------- The projection theorem ----------

  /** Every entry of a log is spoken by a session for its own id. */
  ghost predicate LogSpoken(sessions: seq<Session>, log: seq<Entry>) {
    forall k :: 0 <= k < |log| ==>
      LoggedIn(sessions, log[k].env.from) && SpokenBy(log[k].env, sessions[log[k].env.from].id)
  }

  lemma LogIsSpoken(sessions: seq<Session>, r: Incarnation)
    requires RoomOk(r) && SentOk(sessions, r)
    ensures LogSpoken(sessions, r.log)
  {
    forall k | 0 <= k < |r.log|
      ensures LoggedIn(sessions, r.log[k].env.from) && SpokenBy(r.log[k].env, sessions[r.log[k].env.from].id)
    {
      assert r.sent[k] == r.log[k].env;
    }
  }

  ghost predicate Speak(sessions: seq<Session>, players: map<PlayerId, Player<SessionId>>) {
    forall p :: p in players ==>
      players[p].id == p && LoggedIn(sessions, players[p].sender) && sessions[players[p].sender].id == p
  }

  lemma HandleSpeaks(sessions: seq<Session>, room: RoomState<SessionId>, entry: Entry)
    requires Speak(sessions, room.players)
    requires LoggedIn(sessions, entry.env.from) && SpokenBy(entry.env, sessions[entry.env.from].id)
    ensures Speak(sessions, Handle(room, entry.env.event, entry.order).room.players)
  {
  }

  lemma {:induction false} FoldSpeaks(sessions: seq<Session>, id: RoomId, config: RoomConfig, log: seq<Entry>)
    requires LogSpoken(sessions, log)
    ensures Speak(sessions, FoldLog(id, config, log).players)
  {
    FoldLogStep(id, config, log);
    hide Handle, FoldLog;
    if log != [] {
      var front, last := log[..|log| - 1], log[|log| - 1];
      assert LogSpoken(sessions, front);
      FoldSpeaks(sessions, id, config, front);
      HandleSpeaks(sessions, FoldLog(id, config, front), last);
    }
  }

  lemma PostsAreOwed(sessions: seq<Session>, room: RoomState<SessionId>, entry: Entry, i: IncId, pos: nat, s: SessionId)
    requires Speak(sessions, room.players) && s < |sessions|
    requires LoggedIn(sessions, entry.env.from) && SpokenBy(entry.env, sessions[entry.env.from].id)
    requires Enumerates(entry.order, Iterated(room, entry.env.event).Keys)
    ensures PostsTo(Tag(Handle(room, entry.env.event, entry.order).sends, i, pos), s)
         == Marked(Owed(room, entry.env.event, entry.order, s, sessions[s].id), i, pos)
  {
    hide Enumerates, Iterated, Handle, Owed;
    HandleTo(room, entry.env.event, entry.order, s, sessions[s].id);
    PostsToTag(Handle(room, entry.env.event, entry.order).sends, i, pos, s);
  }

  lemma {:induction false} PostedIsProject(sessions: seq<Session>, r: Incarnation, i: IncId, n: nat, s: SessionId)
    requires LogSpoken(sessions, r.log) && OrdersOk(r) && n <= |r.log| && s < |sessions|
    ensures Posted(i, r.room.id, r.room.config, r.log[..n], s) ==
      Project(i, r.room.id, r.room.config, r.log[..n], s, sessions[s].id)
  {
    hide Enumerates, Iterated, Handle, Owed, Speak, PostsTo, FoldLog;
    if n != 0 {
      PostedIsProject(sessions, r, i, n - 1, s);
      var front, last := r.log[..n - 1], r.log[n - 1];
      assert r.log[..n][..n - 1] == front && r.log[..n][n - 1] == last;
      FoldSpeaks(sessions, r.room.id, r.room.config, front);
      PostsAreOwed(sessions, RoomAt(r, n - 1), last, i, n - 1, s);
    }
  }

  /** The projection theorem: what an incarnation has put on a live session's channel, with what
      it is still sending, is the projection of its log to the session, and its member table is
      the fold of the same log. */
  lemma StreamIsProjection(bearer: string, steps: seq<Step>, s: SessionId, i: IncId)
    requires Valid(bearer, steps)
    requires s < |Exec(bearer, steps).sessions| && Alive(Exec(bearer, steps).sessions[s].pc)
    requires i < |Exec(bearer, steps).rooms|
    ensures var st := Exec(bearer, steps);
            var r := st.rooms[i];
            && FromInc(Stream(st.sessions[s]), i) + PostsTo(r.outbox, s)
               == Project(i, r.room.id, r.room.config, r.log, s, st.sessions[s].id)
            && r.room == FoldLog(r.room.id, r.room.config, r.log)
  {
    hide MembersOk, SessionsOk, FirstEventDue, RegistryOk, OrdersOk, LogSpoken;
    var st := Exec(bearer, steps);
    var r := st.rooms[i];
    InvHolds(bearer, steps);
    ProjectionHolds(bearer, steps);
    assert RoomOk(r) && SentOk(st.sessions, r);
    LogIsSpoken(st.sessions, r);
    PostedIsProject(st.sessions, r, i, |r.log|, s);
    assert r.log[..|r.log|] == r.log;
    assert Projected(st, s, i) by { assert SessionAt(st, s) == st.sessions[s]; }
  }

  // ---------- Following a projection ----------

  /** Folding a log's projection to a player gives the player's standing in the log's room. */
  lemma {:induction false} ProjectFollows(sessions: seq<Session>, r: Incarnation, i: IncId, n: nat, s: SessionId)
    requires LogSpoken(sessions, r.log) && OrdersOk(r) && n <= |r.log| && s < |sessions|
    ensures Follow(Outside, Project(i, r.room.id, r.room.config, r.log[..n], s, sessions[s].id), r.room.id,
      sessions[s].id)
         == StandingIn(FoldLog(r.room.id, r.room.config, r.log[..n]).players, s, sessions[s].id)
  {
    hide Enumerates, Iterated, Handle, Owed, Follow, Advance, FoldLog;
    var id := sessions[s].id;
    FoldLogStep(r.room.id, r.room.config, r.log[..n]);
    if n == 0 {
      assert r.log[..0] == [];
      FollowNothing(r.room.id, id);
    } else {
      ProjectFollows(sessions, r, i, n - 1, s);
      var front, last := r.log[..n - 1], r.log[n - 1];
      assert r.log[..n][..n - 1] == front && r.log[..n][n - 1] == last;
      var room := RoomAt(r, n - 1);
      FoldSpeaks(sessions, r.room.id, r.room.config, front);
      FoldLogIdentity(r.room.id, r.room.config, front);
      assert SpokenBy(last.env, sessions[last.env.from].id);
      OwedAdvances(room, last.env.event, last.order, s, id, i, n - 1);
      FollowConcat(Outside, Project(i, r.room.id, r.room.config, front, s, id),
                   Marked(Owed(room, last.env.event, last.order, s, id), i, n - 1), r.room.id, id);
    }
  }

  lemma FollowNothing(rid: RoomId, id: PlayerId)
    ensures Follow(Outside, [], rid, id) == Outside
  {
  }

  /** Every incarnation takes leave: a live session that was told of its own join by an
      incarnation, and is no longer a member of it, has been told of its own leave by the same
      incarnation since, once that incarnation has nothing left to send. In particular every
      incarnation that stopped has sent a leave to every live session it admitted. */
  lemma FarewellsSent(bearer: string, steps: seq<Step>, s: SessionId, k: nat)
    requires Valid(bearer, steps)
    requires s < |Exec(bearer, steps).sessions| && Alive(Exec(bearer, steps).sessions[s].pc)
    requires var x := Exec(bearer, steps).sessions[s];
             k < |Stream(x)| && IsOwnJoin(Stream(x)[k].event, x.id)
    ensures var st := Exec(bearer, steps);
            var x := st.sessions[s];
            var i := Stream(x)[k].inc;
            && i < |st.rooms|
            && Stream(x)[k].event.join.value.roomId == st.rooms[i].room.id
            && (st.rooms[i].outbox == [] && !MemberOf(st, s, i) ==>
                  exists m :: k < m < |Stream(x)| && Stream(x)[m].inc == i && IsOwnLeave(Stream(x)[m].event, x.id))
            && (!st.rooms[i].phase.Running? && !st.rooms[i].phase.Sending? ==>
              st.rooms[i].outbox == [] && !MemberOf(st, s, i))
  {
    var st := Exec(bearer, steps);
    var x := st.sessions[s];
    var stream, i := Stream(x), Stream(x)[k].inc;
    OriginOfDelivery(bearer, steps, s, k);
    InvHolds(bearer, steps);
    var r := st.rooms[i];
    assert RoomOk(r);
    hide SentOk, MembersOk, SessionsOk, FirstEventDue, RegistryOk, OrdersOk, LogSpoken, RoomOk;
    if r.outbox == [] && !MemberOf(st, s, i) {
      IncarnationStanding(bearer, steps, s, i);
      FarewellFollows(stream, k, i, r.room.id, x.id);
    }
  }

  lemma FarewellFollows(stream: seq<Delivery>, k: nat, i: IncId, rid: RoomId, id: PlayerId)
    requires k < |stream| && stream[k].inc == i
    requires IsOwnJoin(stream[k].event, id) && stream[k].event.join.value.roomId == rid
    requires Follow(Outside, FromInc(stream, i), rid, id) == Outside
    ensures exists m :: k < m < |stream| && stream[m].inc == i && IsOwnLeave(stream[m].event, id)
  {
    hide Quiet;
    SplitFromInc(stream, k, i);
    var before, after := FromInc(stream[..k + 1], i), FromInc(stream[k + 1..], i);
    FollowConcat(Outside, before, after, rid, id);
    assert before[|before| - 1] == stream[k];
    InsideAfterOwnJoin(before, after, rid, id);
    hide Follow, FromInc;
    if Quiet(after, rid, id) {
      QuietKeepsStanding(Follow(Outside, before, rid, id), after, rid, id);
    }
    FirstOwnIsLeave(Follow(Outside, before, rid, id), after, rid, id);
    var j :| 0 <= j < |after| && IsOwnLeave(after[j].event, id);
    FromIncMember(stream[k + 1..], i, after[j]);
    var m :| 0 <= m < |stream[k + 1..]| && stream[k + 1..][m] == after[j];
    assert stream[k + 1 + m] == after[j];
  }

  lemma OriginOfDelivery(bearer: string, steps: seq<Step>, s: SessionId, k: nat)
    requires Valid(bearer, steps) && s < |Exec(bearer, steps).sessions| && k < |Stream(Exec(bearer, steps).sessions[s])|
    ensures var st := Exec(bearer, steps);
            var d := Stream(st.sessions[s])[k];
            Origin(st.rooms, Post(s, d)) && About(d.event, st.rooms[d.inc].room.id)
  {
    OriginHolds(bearer, steps);
    var st := Exec(bearer, steps);
    assert StreamOrigin(st.rooms, st.sessions[s], s);
    OriginAbout(st.rooms, Post(s, Stream(st.sessions[s])[k]));
  }

  lemma SplitFromInc(stream: seq<Delivery>, k: nat, i: IncId)
    requires k < |stream| && stream[k].inc == i
    ensures FromInc(stream, i) == FromInc(stream[..k + 1], i) + FromInc(stream[k + 1..], i)
    ensures FromInc(stream[..k + 1], i) == FromInc(stream[..k], i) + [stream[k]]
  {
    assert stream == stream[..k + 1] + stream[k + 1..];
    FromIncConcat(stream[..k + 1], stream[k + 1..], i);
    assert stream[..k + 1] == stream[..k] + [stream[k]];
    FromIncAppend(stream[..k], stream[k], i);
  }

  lemma InsideAfterOwnJoin(before: seq<Delivery>, after: seq<Delivery>, rid: RoomId, id: PlayerId)
    requires before != [] && IsOwnJoin(before[|before| - 1].event, id) &&
      before[|before| - 1].event.join.value.roomId == rid
    requires !Follow(Follow(Outside, before, rid, id), after, rid, id).Broken?
    ensures Follow(Outside, before, rid, id).Inside?
  {
    if Follow(Outside, before, rid, id).Broken? {
      BrokenStaysBroken(after, rid, id);
    }
  }

  /** What one incarnation told a live session, folded, is the session's standing in it. */
  lemma IncarnationStanding(bearer: string, steps: seq<Step>, s: SessionId, i: IncId)
    requires Valid(bearer, steps)
    requires s < |Exec(bearer, steps).sessions| && Alive(Exec(bearer, steps).sessions[s].pc)
    requires i < |Exec(bearer, steps).rooms|
    ensures var st := Exec(bearer, steps);
            var r, id := st.rooms[i], st.sessions[s].id;
            Follow(Outside, FromInc(Stream(st.sessions[s]), i) + PostsTo(r.outbox, s), r.room.id, id)
            == StandingIn(r.room.players, s, id)
    ensures var st := Exec(bearer, steps);
            st.rooms[i].outbox == [] ==>
              Follow(Outside, FromInc(Stream(st.sessions[s]), i), st.rooms[i].room.id, st.sessions[s].id)
              == StandingIn(st.rooms[i].room.players, s, st.sessions[s].id)
  {
    hide MembersOk, SessionsOk, FirstEventDue, RegistryOk, OrdersOk, LogSpoken, Follow;
    var st := Exec(bearer, steps);
    var r := st.rooms[i];
    InvHolds(bearer, steps);
    ProjectionHolds(bearer, steps);
    StreamIsProjection(bearer, steps, s, i);
    assert RoomOk(r) && SentOk(st.sessions, r);
    LogIsSpoken(st.sessions, r);
    ProjectFollows(st.sessions, r, i, |r.log|, s);
    assert r.log[..|r.log|] == r.log;
    assert FromInc(Stream(st.sessions[s]), i) + [] == FromInc(Stream(st.sessions[s]), i);
  }
}
