/** What the membership invariants mean for sessions and clients: the main results on caches,
    views and the order of joins and leaves, for every run of the server. */
module Coherence {
  import opened Wrappers
  import opened Events
  import opened RoomCore
  import opened PlayerCore
  import opened Protocol
  import opened Rooms
  import opened Streams
  import opened Membership
  import opened Cache

  /** Session `s` itself, and not another session of the same id, is in incarnation `i`. */
  predicate MemberOf(st: State, s: SessionId, i: IncId)
    requires s < |st.sessions| && i < |st.rooms|
  {
    HasMember(st.rooms[i].room.players, s, st.sessions[s].id)
  }

  /** The session is in some incarnation of the room id, whatever its phase. */
  ghost predicate IsMember(st: State, s: SessionId, rid: RoomId)
    requires s < |st.sessions|
  {
    exists i :: 0 <= i < |st.rooms| && st.rooms[i].room.id == rid && MemberOf(st, s, i)
  }

  /** Only the registered incarnation has members. */
  lemma MembersAreRegistered(st: State, s: SessionId, i: IncId)
    requires Inv(st) && s < |st.sessions| && i < |st.rooms| && MemberOf(st, s, i)
    ensures Registered(st.rooms[i].phase) && !st.rooms[i].phase.Stopping?
    ensures st.rooms[i].room.id in st.registry && st.registry[st.rooms[i].room.id] == i
  {
    hide SentOk, MembersOk, SessionsOk, FirstEventDue;
    assert RoomOk(st.rooms[i]);
  }

  lemma TruthIsMembership(st: State, s: SessionId, rid: RoomId)
    requires Inv(st) && s < |st.sessions|
    ensures Truth(st, s, rid).Inside? <==> IsMember(st, s, rid)
    ensures forall i :: 0 <= i < |st.rooms| && st.rooms[i].room.id == rid && MemberOf(st, s, i) ==>
      && rid in st.registry && st.registry[rid] == i
      && Truth(st, s, rid) == Inside(st.rooms[i].room.players.Keys)
  {
    hide RoomOk, SentOk, MembersOk, SessionsOk, FirstEventDue;
    forall i | 0 <= i < |st.rooms| && st.rooms[i].room.id == rid && MemberOf(st, s, i)
      ensures rid in st.registry && st.registry[rid] == i && Truth(st, s, rid) == Inside(st.rooms[i].room.players.Keys)
    {
      MembersAreRegistered(st, s, i);
    }
    if Truth(st, s, rid).Inside? {
      assert MemberOf(st, s, st.registry[rid]);
    }
  }

  // ---------- Cache coherence ----------

  /** The last own event decides. */
  lemma {:induction false} LastOwnDecides(v: Standing, stream: seq<Delivery>, k: nat, rid: RoomId, id: PlayerId)
    requires k < |stream| && Own(stream[k].event, rid, id) && Quiet(stream[k + 1..], rid, id)
    requires !Follow(v, stream, rid, id).Broken?
    ensures Follow(v, stream, rid, id).Inside? <==> IsOwnJoin(stream[k].event, id)
  {
    var front, tail := stream[..k + 1], stream[k + 1..];
    assert stream == front + tail;
    FollowConcat(v, front, tail, rid, id);
    if Follow(v, front, rid, id).Broken? {
      BrokenStaysBroken(tail, rid, id);
    }
    QuietKeepsStanding(Follow(v, front, rid, id), tail, rid, id);
    assert front[..|front| - 1] == stream[..k];
  }

  /** Cache coherence. With no own event of the room on its way, a live session caches, or has
      looked up and is about to cache, exactly the rooms it is in, with the channel of the
      incarnation it is in; otherwise the last own event on its way says whether it is in. */
  lemma CacheCoherence(bearer: string, steps: seq<Step>, s: SessionId, rid: RoomId)
    requires Valid(bearer, steps)
    requires s < |Exec(bearer, steps).sessions| && Alive(Exec(bearer, steps).sessions[s].pc)
    ensures var st := Exec(bearer, steps);
            var x, rest := st.sessions[s], Rest(st, s, rid);
            && (Quiet(rest, rid, x.id) ==>
                  && (Known(x, rid).Some? <==> IsMember(st, s, rid))
                  && (forall i :: 0 <= i < |st.rooms| && st.rooms[i].room.id == rid && MemberOf(st, s, i) ==>
                    Known(x, rid) == Some(i)))
            && (forall k :: 0 <= k < |rest| && Own(rest[k].event, rid, x.id) && Quiet(rest[k + 1..], rid, x.id) ==>
                  (IsOwnJoin(rest[k].event, x.id) <==> IsMember(st, s, rid)))
  {
    hide RegistryOk, FirstEventDue, SentOk, MembersOk, RoomOk, SessionsOk, Quiet, Coherent, ClientOk, Exec, Valid;
    var st := Exec(bearer, steps);
    var x, rest := st.sessions[s], Rest(st, s, rid);
    InvHolds(bearer, steps);
    ViewHolds(bearer, steps);
    CacheHolds(bearer, steps);
    assert CacheOk(st, s, rid);
    LearntIsTrue(st, s, rid);
    TruthIsMembership(st, s, rid);
    forall k | 0 <= k < |rest| && Own(rest[k].event, rid, x.id) && Quiet(rest[k + 1..], rid, x.id)
      ensures IsOwnJoin(rest[k].event, x.id) <==> IsMember(st, s, rid)
    {
      LastOwnDecides(Learnt(x, rid), rest, k, rid, x.id);
    }
  }

  lemma {:induction false} FirstOwnIsLeave(v: Standing, stream: seq<Delivery>, rid: RoomId, id: PlayerId)
    requires v.Inside? && !Quiet(stream, rid, id) && !Follow(v, stream, rid, id).Broken?
    ensures exists k ::
      0 <= k < |stream| && IsOwnLeave(stream[k].event, id) && stream[k].event.leave.value.roomId == rid
  {
    var front, last := stream[..|stream| - 1], stream[|stream| - 1];
    if Quiet(front, rid, id) {
      QuietKeepsStanding(v, front, rid, id);
    } else {
      FirstOwnIsLeave(v, front, rid, id);
      var k :| 0 <= k < |front| && IsOwnLeave(front[k].event, id) && front[k].event.leave.value.roomId == rid;
      assert stream[k] == front[k];
    }
  }

  /** When the lookup after an own join finds no room, the session's own leave is already waiting
      behind that join: "room not found" is never told to a session still in the room. */
  lemma RoomNotFoundMeansLeft(bearer: string, steps: seq<Step>, s: SessionId)
    requires Valid(bearer, steps) && Enabled(Exec(bearer, steps), TakeEvent(s))
    requires var x := Exec(bearer, steps).sessions[s];
             IsOwnJoin(x.inbox[0].event, x.id) && x.inbox[0].event.join.value.roomId !in Exec(bearer, steps).registry
    ensures var x := Exec(bearer, steps).sessions[s];
            var rid := x.inbox[0].event.join.value.roomId;
            && (exists k ::
              0 < k < |x.inbox| && IsOwnLeave(x.inbox[k].event, x.id) && x.inbox[k].event.leave.value.roomId == rid)
            && !IsMember(Exec(bearer, steps), s, rid)
  {
    hide FirstEventDue, SentOk, MembersOk, RoomOk, SessionsOk, Quiet, Coherent, ClientOk, CacheOk, RegistryOk;
    var more := steps + [TakeEvent(s)];
    OneMore(bearer, steps, TakeEvent(s));
    var st, st' := Exec(bearer, steps), Exec(bearer, more);
    var x, x' := st.sessions[s], st'.sessions[s];
    var rid := x.inbox[0].event.join.value.roomId;
    InvHolds(bearer, steps);
    InvHolds(bearer, more);
    ViewHolds(bearer, more);
    TakeEventFacts(st, s, rid);
    LearntIsTrue(st', s, rid);
    assert Learnt(x', rid).Inside?;
    assert Rest(st', s, rid) == x'.inbox;
    if Quiet(x'.inbox, rid, x.id) {
      assert false;
    }
    FirstOwnIsLeave(Learnt(x', rid), x'.inbox, rid, x.id);
    var k :| 0 <= k < |x'.inbox| && IsOwnLeave(x'.inbox[k].event, x.id) && x'.inbox[k].event.leave.value.roomId == rid;
    assert x.inbox[k + 1] == x'.inbox[k];
    TruthIsMembership(st, s, rid);
  }

  // ---------- The replicated view ----------

  /** A live member that folds its event stream, counting what is still on its way, knows exactly
      who is in the room; a non-member's stream leaves it outside. */
  lemma ReplicatedView(bearer: string, steps: seq<Step>, s: SessionId, rid: RoomId)
    requires Valid(bearer, steps)
    requires s < |Exec(bearer, steps).sessions| && Alive(Exec(bearer, steps).sessions[s].pc)
    ensures var st := Exec(bearer, steps);
            var view := Follow(Outside, Feed(st, s, rid), rid, st.sessions[s].id);
            && (!IsMember(st, s, rid) ==> view == Outside)
            && (forall i :: 0 <= i < |st.rooms| && st.rooms[i].room.id == rid && MemberOf(st, s, i) ==>
                  view == Inside(st.rooms[i].room.players.Keys))
  {
    hide RegistryOk, FirstEventDue, SentOk, MembersOk, RoomOk, SessionsOk;
    InvHolds(bearer, steps);
    ViewHolds(bearer, steps);
    assert Coherent(Exec(bearer, steps), s, rid);
    TruthIsMembership(Exec(bearer, steps), s, rid);
  }

  lemma {:induction false} SilenceKeepsStanding(v: Standing, stream: seq<Delivery>, rid: RoomId, id: PlayerId)
    requires forall k :: 0 <= k < |stream| ==> !About(stream[k].event, rid)
    requires !Follow(v, stream, rid, id).Broken?
    ensures Follow(v, stream, rid, id) == v
  {
    if stream != [] {
      assert !About(stream[|stream| - 1].event, rid);
      SilenceKeepsStanding(v, stream[..|stream| - 1], rid, id);
    }
  }

  /** The session once it has answered a join whose lookup is done. */
  function Answered(x: Session): Session {
    if x.pc.JoinedHalf? then Say(x, JoinAnswer(x.pc.info, x.pc.found.Some?)) else x
  }

  /** End to end: once nothing about a room is on its way, the player list a connected client
      builds from the messages it was sent, and the join answer its session is about to give, is
      the room's member table, and a client that was not told of a membership has none. */
  lemma ClientSeesTruth(bearer: string, steps: seq<Step>, s: SessionId, rid: RoomId)
    requires Valid(bearer, steps)
    requires s < |Exec(bearer, steps).sessions| && Looping(Exec(bearer, steps).sessions[s].pc)
    requires !Exec(bearer, steps).sessions[s].clientGone
    requires var rest := Rest(Exec(bearer, steps), s, rid);
             forall k :: 0 <= k < |rest| ==> !About(rest[k].event, rid)
    ensures var st := Exec(bearer, steps);
            var view := ClientView(Answered(st.sessions[s]).out, rid);
            && (!IsMember(st, s, rid) ==> view == Outside)
            && (forall i :: 0 <= i < |st.rooms| && st.rooms[i].room.id == rid && MemberOf(st, s, i) ==>
                  view == Inside(st.rooms[i].room.players.Keys))
  {
    hide RegistryOk, FirstEventDue, SentOk, MembersOk, RoomOk, SessionsOk, Coherent, Rest;
    var st := Exec(bearer, steps);
    var x, rest := st.sessions[s], Rest(st, s, rid);
    InvHolds(bearer, steps);
    ViewHolds(bearer, steps);
    CacheHolds(bearer, steps);
    assert CacheOk(st, s, rid) && ClientOk(x, rid);
    if x.pc.JoinedHalf? {
      SayView(x, JoinAnswer(x.pc.info, x.pc.found.Some?), rid);
    }
    LearntIsTrue(st, s, rid);
    TruthIsMembership(st, s, rid);
    SilenceKeepsStanding(Learnt(x, rid), rest, rid, x.id);
    forall k | 0 <= k < |rest| ensures !Own(rest[k].event, rid, x.id) {
      assert !About(rest[k].event, rid);
    }
  }

  // ---------- Brackets ----------

  /** Own joins and own leaves of the room alternate, starting with a join: between two joins
      there is a leave, and before a leave there is a join with no leave in between. */
  ghost predicate Alternates(stream: seq<Delivery>, rid: RoomId, id: PlayerId) {
    forall k :: 0 <= k < |stream| && Own(stream[k].event, rid, id) ==>
      if IsOwnJoin(stream[k].event, id)
      then Quiet(stream[..k], rid, id) || LastOwnIs(stream[..k], false, rid, id)
      else LastOwnIs(stream[..k], true, rid, id)
  }

  ghost predicate LastOwnIs(stream: seq<Delivery>, join: bool, rid: RoomId, id: PlayerId) {
    exists j :: 0 <= j < |stream| && Own(stream[j].event, rid, id) && IsOwnJoin(stream[j].event, id) == join
      && Quiet(stream[j + 1..], rid, id)
  }

  lemma {:induction false} QuietOrLast(stream: seq<Delivery>, rid: RoomId, id: PlayerId)
    ensures Quiet(stream, rid, id) || LastOwnIs(stream, true, rid, id) || LastOwnIs(stream, false, rid, id)
  {
    if stream != [] {
      var front, last := stream[..|stream| - 1], stream[|stream| - 1];
      if Own(last.event, rid, id) {
        assert stream[|stream| - 1 + 1..] == [];
      } else {
        QuietOrLast(front, rid, id);
        if Quiet(front, rid, id) {
          assert stream == front + [last];
        } else {
          var j: nat :| j < |front| && Own(front[j].event, rid, id) && Quiet(front[j + 1..], rid, id);
          assert stream == front + [last];
          assert stream[j + 1..] == front[j + 1..] + [last];
          assert stream[j] == front[j];
          QuietParts(front[j + 1..], [last], rid, id);
          assert Quiet([last], rid, id);
          assert LastOwnIs(stream, IsOwnJoin(stream[j].event, id), rid, id);
        }
      }
    }
  }

  lemma UnbrokenPrefix(stream: seq<Delivery>, k: nat, rid: RoomId, id: PlayerId)
    requires k <= |stream| && !Follow(Outside, stream, rid, id).Broken?
    ensures !Follow(Outside, stream[..k], rid, id).Broken?
  {
    assert stream == stream[..k] + stream[k..];
    FollowConcat(Outside, stream[..k], stream[k..], rid, id);
    if Follow(Outside, stream[..k], rid, id).Broken? {
      BrokenStaysBroken(stream[k..], rid, id);
    }
  }

  lemma UnbrokenAlternates(stream: seq<Delivery>, rid: RoomId, id: PlayerId)
    requires !Follow(Outside, stream, rid, id).Broken?
    ensures Alternates(stream, rid, id)
  {
    forall k | 0 <= k < |stream| && Own(stream[k].event, rid, id)
      ensures if IsOwnJoin(stream[k].event, id)
              then Quiet(stream[..k], rid, id) || LastOwnIs(stream[..k], false, rid, id)
              else LastOwnIs(stream[..k], true, rid, id)
    {
      UnbrokenPrefix(stream, k, rid, id);
      UnbrokenPrefix(stream, k + 1, rid, id);
      assert stream[..k + 1] == stream[..k] + [stream[k]];
      FollowAppend(Outside, stream[..k], stream[k], rid, id);
      StandingFromLastOwn(stream[..k], rid, id);
    }
  }

  lemma StandingFromLastOwn(stream: seq<Delivery>, rid: RoomId, id: PlayerId)
    requires !Follow(Outside, stream, rid, id).Broken?
    ensures Follow(Outside, stream, rid, id).Inside? ==> LastOwnIs(stream, true, rid, id)
    ensures Follow(Outside, stream, rid, id).Outside? ==> Quiet(stream, rid, id) || LastOwnIs(stream, false, rid, id)
  {
    QuietOrLast(stream, rid, id);
    if Quiet(stream, rid, id) {
      QuietKeepsStanding(Outside, stream, rid, id);
    } else {
      var j: nat :| j < |stream| && Own(stream[j].event, rid, id) && Quiet(stream[j + 1..], rid, id);
      LastOwnDecides(Outside, stream, j, rid, id);
    }
  }

  /** In every live session's event stream, across all incarnations of a room id, own joins and
      own leaves strictly alternate, starting with a join. */
  lemma WellBracketed(bearer: string, steps: seq<Step>, s: SessionId, rid: RoomId)
    requires Valid(bearer, steps)
    requires s < |Exec(bearer, steps).sessions| && Alive(Exec(bearer, steps).sessions[s].pc)
    ensures Alternates(Stream(Exec(bearer, steps).sessions[s]), rid, Exec(bearer, steps).sessions[s].id)
  {
    hide RegistryOk, Alternates;
    var st := Exec(bearer, steps);
    ViewHolds(bearer, steps);
    assert Coherent(st, s, rid);
    var id := st.sessions[s].id;
    FollowConcat(Outside, Stream(st.sessions[s]), Pending(st, s, rid), rid, id);
    if Follow(Outside, Stream(st.sessions[s]), rid, id).Broken? {
      BrokenStaysBroken(Pending(st, s, rid), rid, id);
    }
    UnbrokenAlternates(Stream(st.sessions[s]), rid, id);
  }
}
