/** The set of logged-in ids: who stands behind its entries, exactly when it excludes double
    logins, and what exclusion buys the rooms. */
module Login {
  import opened Wrappers
  import opened Events
  import opened RoomCore
  import opened PlayerCore
  import opened Protocol
  import opened Rooms
  import opened Ordering

  /** The session stands behind its id's entry: a login attempt that registered it and is being
      denied, or a logged-in session that has not unregistered (running, leaving or crashed). */
  predicate Owner(x: Session) {
    x.pc.RejectingDenied? || (x.epoch > 0 && !x.pc.Finished?)
  }

  ghost predicate NoPhantom(st: State) {
    forall id :: id in st.players ==>
      exists s :: 0 <= s < |st.sessions| && Owner(st.sessions[s]) && st.sessions[s].id == id
  }

  /** Whom exclusion is about: every owner, or only those that are serving a client. */
  predicate Holder(x: Session, owners: bool) {
    if owners then Owner(x) else Serving(x.pc)
  }

  /** Every holder is registered and no id has two holders. */
  ghost predicate Exclusive(st: State, owners: bool := true) {
    && (forall s :: 0 <= s < |st.sessions| && Holder(st.sessions[s], owners) ==> st.sessions[s].id in st.players)
    && (forall s, t ::
      0 <= s < t < |st.sessions| && Holder(st.sessions[s], owners) && Holder(st.sessions[t], owners) ==>
          st.sessions[s].id != st.sessions[t].id)
  }

  /** A rejected duplicate is about to unregister an id that is registered: by its rightful owner,
      since the duplicate never registered it. */
  predicate Harmful(st: State, step: Step) {
    && step.RejectUnregister?
    && step.s < |st.sessions|
    && st.sessions[step.s].pc.RejectingDuplicate?
    && st.sessions[step.s].id in st.players
  }

  // ---------- How steps change ownership ----------

  /** The only steps that touch the set or an owner. */
  predicate TouchesLogin(step: Step) {
    step.TryLogin? || step.RejectUnregister? || step.Unregister?
  }

  lemma OwnershipKept(st: State, step: Step, s: SessionId)
    requires Enabled(st, step) && !TouchesLogin(step) && s < |st.sessions|
    requires SessionOk(st.sessions[s], st.rooms)
    ensures Apply(st, step).players == st.players && Apply(st, step).logins == st.logins
    ensures s < |Apply(st, step).sessions|
    ensures Owner(Apply(st, step).sessions[s]) == Owner(st.sessions[s])
    ensures Apply(st, step).sessions[s].id == st.sessions[s].id
    ensures Apply(st, step).sessions[s].epoch == st.sessions[s].epoch
  {
    hide InputStep, RequestStep, Enqueue, Notice, HandlesOk;
    PlayersKept(st, step);
    if RoomStep(step) || step.Connect? || step.s != s {
      OthersUntouched(st, step, s);
    } else if step.TakeInput? {
      InputOwner(st, s);
    } else if step.SendRequest? {
      RequestOwner(st, s);
    }
  }

  lemma PlayersKept(st: State, step: Step)
    requires Enabled(st, step) && !TouchesLogin(step)
    ensures Apply(st, step).players == st.players && Apply(st, step).logins == st.logins
  {
  }

  lemma InputOwner(st: State, s: SessionId)
    requires Enabled(st, TakeInput(s))
    ensures s < |Apply(st, TakeInput(s)).sessions|
    ensures var x, x' := st.sessions[s], Apply(st, TakeInput(s)).sessions[s];
            x'.id == x.id && x'.epoch == x.epoch && Owner(x') == Owner(x)
  {
  }

  lemma RequestOwner(st: State, s: SessionId)
    requires Enabled(st, SendRequest(s))
    ensures s < |Apply(st, SendRequest(s)).sessions|
    ensures var x, x' := st.sessions[s], Apply(st, SendRequest(s)).sessions[s];
            x'.id == x.id && x'.epoch == x.epoch && Owner(x') == Owner(x)
  {
  }

  lemma NewcomerOwnsNothing(st: State, step: Step)
    requires Enabled(st, step) && |Apply(st, step).sessions| > |st.sessions|
    ensures |Apply(st, step).sessions| == |st.sessions| + 1
    ensures !Owner(Apply(st, step).sessions[|st.sessions|]) && Apply(st, step).sessions[|st.sessions|].epoch == 0
  {
    SessionCount(st, step);
  }

  /** A login attempt either leaves the set alone, or registers an unused id and owns it. */
  lemma LoginEffect(st: State, s: SessionId)
    requires Enabled(st, TryLogin(s)) && SessionOk(st.sessions[s], st.rooms)
    ensures var st', x' := Apply(st, TryLogin(s)), Apply(st, TryLogin(s)).sessions[s];
            && |st'.sessions| == |st.sessions|
            && (forall t :: 0 <= t < |st.sessions| && t != s ==> st'.sessions[t] == st.sessions[t])
            && !Owner(st.sessions[s]) && st.sessions[s].epoch == 0
            && (if Owner(x') then x'.id !in st.players && st'.players == st.players + {x'.id}
              else st'.players == st.players)
            && (if x'.epoch > 0 then Owner(x') && x'.epoch == st.logins + 1 == st'.logins else st'.logins == st.logins)
  {
  }

  /** Unregistering removes the session's id and ends its ownership. */
  lemma UnregisterEffect(st: State, step: Step)
    requires Enabled(st, step) && (step.RejectUnregister? || step.Unregister?)
    requires SessionOk(st.sessions[step.s], st.rooms)
    ensures var st', x, x' := Apply(st, step), st.sessions[step.s], Apply(st, step).sessions[step.s];
            && |st'.sessions| == |st.sessions|
            && (forall t :: 0 <= t < |st.sessions| && t != step.s ==> st'.sessions[t] == st.sessions[t])
            && st'.players == st.players - {x.id} && st'.logins == st.logins
            && x'.id == x.id && x'.epoch == x.epoch && !Owner(x')
            && (Owner(x) <==> !x.pc.RejectingDuplicate?)
            && (step.Unregister? ==> Owner(x))
  {
  }

  // ---------- Credentials ----------

  /** The step admits session `s` as `id`: its first payload asks for an unused id and carries the
      expected token. */
  predicate AdmitsAs(st: State, step: Step, bearer: string, s: SessionId, id: PlayerId) {
    && step == TryLogin(s) && s < |st.sessions| && st.sessions[s].pc.AwaitLogin? && st.sessions[s].input != []
    && st.sessions[s].input[0].data == Some(LoginRequest(id, Some(bearer)))
    && id !in st.players
  }

  lemma {:induction false} BearerFixed(bearer: string, steps: seq<Step>)
    requires Valid(bearer, steps)
    ensures Exec(bearer, steps).bearer == bearer
  {
    if steps != [] {
      BearerFixed(bearer, steps[..|steps| - 1]);
      BearerKept(Exec(bearer, steps[..|steps| - 1]), steps[|steps| - 1]);
    }
  }

  lemma BearerKept(st: State, step: Step)
    requires Enabled(st, step)
    ensures Apply(st, step).bearer == st.bearer
  {
  }

  /** An attempt succeeds exactly if it asks for an unused id with the expected token. */
  lemma LoginSucceedsIff(st: State, s: SessionId, id: PlayerId)
    requires Enabled(st, TryLogin(s)) && SessionOk(st.sessions[s], st.rooms)
    ensures var x' := Apply(st, TryLogin(s)).sessions[s];
            x'.epoch > 0 && x'.id == id <==> AdmitsAs(st, TryLogin(s), st.bearer, s, id)
  {
    hide HandlesOk;
  }

  /** Nobody gets in without the token: whoever is, or was, logged in under an id was admitted by
      an earlier step at which the id was unused and the token presented. */
  lemma {:induction false} LoginsPresentToken(bearer: string, steps: seq<Step>, s: SessionId)
    requires Valid(bearer, steps)
    requires s < |Exec(bearer, steps).sessions| && Exec(bearer, steps).sessions[s].epoch > 0
    ensures exists k :: 0 <= k < |steps| && Valid(bearer, steps[..k])
                        && AdmitsAs(Exec(bearer, steps[..k]), steps[k], bearer, s, Exec(bearer, steps).sessions[s].id)
  {
    hide Apply, Enabled, AdmitsAs, SessionOk, RoomOk, SentOk, MembersOk, RegistryOk, FirstEventDue;
    if steps != [] {
      var front, step := steps[..|steps| - 1], steps[|steps| - 1];
      var st := Exec(bearer, front);
      InvHolds(bearer, front);
      if s < |st.sessions| && st.sessions[s].epoch > 0 {
        SessionGrows(st, step, s);
        LoginsPresentToken(bearer, front, s);
        var k :| 0 <= k < |front| && Valid(bearer, front[..k]) &&
          AdmitsAs(Exec(bearer, front[..k]), front[k], bearer, s, st.sessions[s].id);
        assert front[..k] == steps[..k] && front[k] == steps[k];
      } else {
        StampGiven(st, step, s);
        BearerFixed(bearer, front);
        LoginSucceedsIff(st, s, Exec(bearer, steps).sessions[s].id);
      }
    }
  }

  /** Only a login attempt gives a session its stamp. */
  lemma StampGiven(st: State, step: Step, s: SessionId)
    requires Enabled(st, step) && SessionsOk(st)
    requires s < |Apply(st, step).sessions| && Apply(st, step).sessions[s].epoch > 0
    requires s < |st.sessions| ==> st.sessions[s].epoch == 0
    ensures s < |st.sessions| && step == TryLogin(s) && SessionOk(st.sessions[s], st.rooms)
  {
    hide Apply, Enabled, SessionOk;
    SessionCount(st, step);
    if s >= |st.sessions| {
      NewcomerOwnsNothing(st, step);
    } else if !TouchesLogin(step) {
      OwnershipKept(st, step, s);
    } else {
      StepInRange(st, step);
      assert SessionOk(st.sessions[step.s], st.rooms);
      if step.TryLogin? {
        LoginEffect(st, step.s);
      } else {
        UnregisterEffect(st, step);
      }
    }
  }

  // ---------- No phantom registration ----------

  lemma NoPhantomStep(st: State, step: Step)
    requires Inv(st) && NoPhantom(st) && Enabled(st, step)
    ensures NoPhantom(Apply(st, step))
  {
    hide RoomOk, SentOk, MembersOk, RegistryOk, FirstEventDue, Apply, Enabled, Owner, SessionOk;
    var st' := Apply(st, step);
    forall id | id in st'.players
      ensures exists s :: 0 <= s < |st'.sessions| && Owner(st'.sessions[s]) && st'.sessions[s].id == id
    {
      PhantomStep(st, step, id);
    }
  }

  lemma PhantomStep(st: State, step: Step, id: PlayerId)
    requires SessionsOk(st) && NoPhantom(st) && Enabled(st, step) && id in Apply(st, step).players
    ensures exists s ::
      0 <= s < |Apply(st, step).sessions| && Owner(Apply(st, step).sessions[s]) && Apply(st, step).sessions[s].id == id
  {
    hide Apply, Enabled, Owner, SessionOk;
    var st' := Apply(st, step);
    if step.TryLogin? {
      StepInRange(st, step);
      LoginEffect(st, step.s);
      if id !in st.players {
        assert Owner(st'.sessions[step.s]) && st'.sessions[step.s].id == id;
      } else {
        var s :| 0 <= s < |st.sessions| && Owner(st.sessions[s]) && st.sessions[s].id == id;
        assert st'.sessions[s] == st.sessions[s];
      }
    } else if step.RejectUnregister? || step.Unregister? {
      StepInRange(st, step);
      UnregisterEffect(st, step);
      var s :| 0 <= s < |st.sessions| && Owner(st.sessions[s]) && st.sessions[s].id == id;
      assert st'.sessions[s] == st.sessions[s];
    } else {
      PlayersKept(st, step);
      var s :| 0 <= s < |st.sessions| && Owner(st.sessions[s]) && st.sessions[s].id == id;
      OwnershipKept(st, step, s);
      assert Owner(st'.sessions[s]) && st'.sessions[s].id == id;
    }
  }

  lemma StepInRange(st: State, step: Step)
    requires Enabled(st, step) && TouchesLogin(step)
    ensures step.s < |st.sessions|
  {
  }

  lemma {:induction false} NoPhantomHolds(bearer: string, steps: seq<Step>)
    requires Valid(bearer, steps)
    ensures NoPhantom(Exec(bearer, steps))
  {
    hide Inv, NoPhantom, Apply, Enabled;
    if steps == [] {
      NobodyThere(bearer);
    } else {
      NoPhantomHolds(bearer, steps[..|steps| - 1]);
      InvHolds(bearer, steps[..|steps| - 1]);
      NoPhantomStep(Exec(bearer, steps[..|steps| - 1]), steps[|steps| - 1]);
    }
  }

  lemma NobodyThere(bearer: string)
    ensures NoPhantom(Init(bearer)) && Exclusive(Init(bearer))
  {
  }

  // ---------- Exclusion ----------

  lemma HarmBreaks(st: State, step: Step)
    requires SessionsOk(st) && NoPhantom(st) && Enabled(st, step) && Harmful(st, step)
    ensures !Exclusive(Apply(st, step))
  {
    hide Apply, Enabled, SessionOk;
    UnregisterEffect(st, step);
    var id := st.sessions[step.s].id;
    var t :| 0 <= t < |st.sessions| && Owner(st.sessions[t]) && st.sessions[t].id == id;
    assert Apply(st, step).sessions[t] == st.sessions[t];
  }

  lemma HarmlessKeeps(st: State, step: Step)
    requires SessionsOk(st) && Exclusive(st) && Enabled(st, step) && !Harmful(st, step)
    ensures Exclusive(Apply(st, step))
  {
    hide Apply, Enabled, SessionOk, Owner;
    if step.TryLogin? {
      StepInRange(st, step);
      LoginEffect(st, step.s);
    } else if step.RejectUnregister? || step.Unregister? {
      StepInRange(st, step);
      UnregisterEffect(st, step);
      if Owner(st.sessions[step.s]) {
        OwnerLeaves(st, Apply(st, step), step.s);
      } else {
        assert st.sessions[step.s].id !in st.players;
        assert Apply(st, step).players == st.players;
      }
    } else {
      PlayersKept(st, step);
      OwnersKept(st, step);
    }
  }

  lemma OwnersKept(st: State, step: Step)
    requires SessionsOk(st) && Exclusive(st) && Enabled(st, step) && !TouchesLogin(step)
    ensures Exclusive(Apply(st, step))
  {
    hide Apply, Enabled, SessionOk, Owner;
    var st' := Apply(st, step);
    PlayersKept(st, step);
    SessionCount(st, step);
    forall s | 0 <= s < |st'.sessions| && Owner(st'.sessions[s])
      ensures s < |st.sessions| && Owner(st.sessions[s]) && st'.sessions[s].id == st.sessions[s].id
    {
      if s < |st.sessions| {
        OwnershipKept(st, step, s);
      } else {
        NewcomerOwnsNothing(st, step);
      }
    }
  }

  lemma OwnerLeaves(st: State, st': State, s: SessionId)
    requires Exclusive(st) && s < |st.sessions| && Owner(st.sessions[s])
    requires |st'.sessions| == |st.sessions| && st'.players == st.players - {st.sessions[s].id}
    requires forall t :: 0 <= t < |st.sessions| && t != s ==> st'.sessions[t] == st.sessions[t]
    requires !Owner(st'.sessions[s])
    ensures Exclusive(st')
  {
    hide Owner;
  }

  /** Exclusion holds in every state of the run. */
  ghost predicate AlwaysExclusive(bearer: string, steps: seq<Step>)
    requires Valid(bearer, steps)
  {
    Exclusive(Exec(bearer, steps)) && (steps == [] || AlwaysExclusive(bearer, steps[..|steps| - 1]))
  }

  /** No step of the run is harmful. */
  predicate Harmless(bearer: string, steps: seq<Step>)
    requires Valid(bearer, steps)
  {
    steps == [] ||
    (Harmless(bearer, steps[..|steps| - 1]) && !Harmful(Exec(bearer, steps[..|steps| - 1]), steps[|steps| - 1]))
  }

  /** Login exclusivity, exactly: a run keeps every live or crashed session registered and every
      id owned once if and only if no rejected duplicate unregisters a registered id. */
  lemma {:induction false} ExclusiveIffHarmless(bearer: string, steps: seq<Step>)
    requires Valid(bearer, steps)
    ensures AlwaysExclusive(bearer, steps) <==> Harmless(bearer, steps)
  {
    hide Inv, Exclusive, Apply, Enabled, NoPhantom, Harmful;
    if steps == [] {
      NobodyThere(bearer);
    } else {
      var front, last := steps[..|steps| - 1], steps[|steps| - 1];
      ExclusiveIffHarmless(bearer, front);
      NoPhantomHolds(bearer, front);
      assert SessionsOk(Exec(bearer, front)) by { InvHolds(bearer, front); InvSessions(Exec(bearer, front)); }
      if AlwaysExclusive(bearer, front) {
        if Harmful(Exec(bearer, front), last) {
          HarmBreaks(Exec(bearer, front), last);
        } else {
          HarmlessKeeps(Exec(bearer, front), last);
        }
      }
    }
  }

  lemma InvSessions(st: State)
    requires Inv(st)
    ensures SessionsOk(st)
  {
    hide RoomOk, SentOk, MembersOk, RegistryOk, FirstEventDue, SessionsOk;
  }

  // ---------- Exclusion among those who serve ----------

  /** A refused attempt unregisters the id of another session that is serving a client. */
  ghost predicate Harms(st: State, step: Step) {
    && step.RejectUnregister?
    && step.s < |st.sessions|
    && exists t ::
      0 <= t < |st.sessions| && t != step.s && Serving(st.sessions[t].pc) && st.sessions[t].id == st.sessions[step.s].id
  }

  /** No step of the run harms a session that is serving; crashed sessions and refused attempts may
      lose their entries. */
  ghost predicate Sparing(bearer: string, steps: seq<Step>)
    requires Valid(bearer, steps)
  {
    steps == [] ||
    (Sparing(bearer, steps[..|steps| - 1]) && !Harms(Exec(bearer, steps[..|steps| - 1]), steps[|steps| - 1]))
  }

  lemma ServingOwns(st: State, s: SessionId)
    requires SessionsOk(st) && s < |st.sessions| && Serving(st.sessions[s].pc)
    ensures Owner(st.sessions[s])
  {
    assert SessionOk(st.sessions[s], st.rooms);
  }

  /** Harmless runs are sparing. */
  lemma {:induction false} HarmlessIsSparing(bearer: string, steps: seq<Step>)
    requires Valid(bearer, steps) && Harmless(bearer, steps)
    ensures Sparing(bearer, steps)
  {
    hide Inv, Apply, Enabled, Owner, SessionsOk;
    if steps != [] {
      var front, step := steps[..|steps| - 1], steps[|steps| - 1];
      var st := Exec(bearer, front);
      HarmlessIsSparing(bearer, front);
      ExclusiveIffHarmless(bearer, front);
      InvHolds(bearer, front);
      InvSessions(st);
      if Harms(st, step) {
        var t :| 0 <= t < |st.sessions| && t != step.s && Serving(st.sessions[t].pc) &&
          st.sessions[t].id == st.sessions[step.s].id;
        ServingOwns(st, t);
        RefusedAttempt(st, step);
        assert false;
      }
    }
  }

  lemma RefusedAttempt(st: State, step: Step)
    requires Enabled(st, step) && step.RejectUnregister?
    ensures step.s < |st.sessions|
    ensures st.sessions[step.s].pc.RejectingDuplicate? || Owner(st.sessions[step.s])
  {
  }

  /** What a step does to a session's login: nothing, unless it logs the session in. */
  predicate Continues(x: Session, x': Session) {
    && x'.epoch == x.epoch
    && (x.epoch > 0 ==> x'.id == x.id && (Owner(x') ==> Owner(x)) && (Serving(x'.pc) ==> Serving(x.pc)))
    && (x.epoch == 0 ==> !Serving(x'.pc))
  }

  predicate JustLoggedIn(st: State, st': State, step: Step, s: SessionId)
    requires s < |st'.sessions|
  {
    && step == TryLogin(s) && st'.logins == st.logins + 1 == st'.sessions[s].epoch
    && st'.sessions[s].pc.Idle? && st'.sessions[s].id !in st.players && st'.sessions[s].id in st'.players
  }

  lemma LoginStepOf(st: State, step: Step, s: SessionId)
    requires Enabled(st, step) && SessionsOk(st) && s < |Apply(st, step).sessions|
    ensures s < |st.sessions| ==>
      Continues(st.sessions[s], Apply(st, step).sessions[s]) || JustLoggedIn(st, Apply(st, step), step, s)
    ensures s >= |st.sessions| ==> Apply(st, step).sessions[s].epoch == 0 && !Serving(Apply(st, step).sessions[s].pc)
    ensures st.logins <= Apply(st, step).logins
  {
    hide SessionsOk, SessionOk, LoginStep, InputStep, RequestStep, EventStep, InsertStep, SendLeaveStep, RoomAfter;
    SessionCount(st, step);
    assert s < |st.sessions| ==> SessionOk(st.sessions[s], st.rooms) by { OneSession(st, s); }
    if s >= |st.sessions| {
      NewcomerOwnsNothing(st, step);
      FreshServesNobody(st, step);
    } else if RoomStep(step) || step.Connect? || step.s != s {
      OthersUntouched(st, step, s);
      StampFree(st.sessions[s], st.rooms);
      LoginsGrow(st, step);
    } else {
      LoginsGrow(st, step);
      OwnLogin(st, step);
    }
  }

  lemma OneSession(st: State, s: SessionId)
    requires SessionsOk(st)
    ensures s < |st.sessions| ==> SessionOk(st.sessions[s], st.rooms)
  {
  }

  lemma FreshServesNobody(st: State, step: Step)
    requires Enabled(st, step) && |Apply(st, step).sessions| > |st.sessions|
    ensures !Serving(Apply(st, step).sessions[|st.sessions|].pc) && Apply(st, step).logins == st.logins
  {
    SessionCount(st, step);
  }

  lemma StampFree(x: Session, rooms: seq<Incarnation>)
    requires SessionOk(x, rooms)
    ensures x.epoch == 0 ==> !Serving(x.pc)
  {
  }

  lemma LoginsGrow(st: State, step: Step)
    requires Enabled(st, step)
    ensures st.logins <= Apply(st, step).logins
  {
  }

  lemma AttemptLogin(st: State, s: SessionId)
    requires Enabled(st, TryLogin(s)) && SessionOk(st.sessions[s], st.rooms)
    ensures s < |LoginStep(st, s).sessions|
    ensures Continues(st.sessions[s], LoginStep(st, s).sessions[s]) ||
      JustLoggedIn(st, LoginStep(st, s), TryLogin(s), s)
  {
    hide HandlesOk;
  }

  lemma OwnLogin(st: State, step: Step)
    requires Enabled(st, step) && !RoomStep(step) && !step.Connect?
    requires SessionOk(st.sessions[step.s], st.rooms)
    ensures step.s < |Apply(st, step).sessions|
    ensures Continues(st.sessions[step.s], Apply(st, step).sessions[step.s]) ||
      JustLoggedIn(st, Apply(st, step), step, step.s)
  {
    hide HandlesOk, Notice, JoinAnswer, Enqueue, RequestEvent, InputStep, RequestStep, LoginStep;
    if step.TryLogin? {
      AttemptLogin(st, step.s);
    } else if step.TakeInput? {
      InputOwner(st, step.s);
    } else if step.SendRequest? {
      RequestOwner(st, step.s);
    }
  }

  lemma SparingKeeps(st: State, step: Step)
    requires SessionsOk(st) && Exclusive(st, false) && Enabled(st, step) && !Harms(st, step)
    ensures Exclusive(Apply(st, step), false)
  {
    hide Apply, Enabled, SessionsOk, SessionOk, Owner, Serving;
    var st' := Apply(st, step);
    forall s | 0 <= s < |st'.sessions| && Serving(st'.sessions[s].pc)
      ensures s < |st.sessions|
      ensures (Serving(st.sessions[s].pc) && st'.sessions[s].id == st.sessions[s].id) || JustLoggedIn(st, st', step, s)
      ensures st'.sessions[s].id in st'.players
    {
      LoginStepOf(st, step, s);
      if !JustLoggedIn(st, st', step, s) {
        StaysRegistered(st, step, s);
      }
    }
  }

  lemma StaysRegistered(st: State, step: Step, s: SessionId)
    requires SessionsOk(st) && Exclusive(st, false) && Enabled(st, step) && !Harms(st, step)
    requires s < |st.sessions| && s < |Apply(st, step).sessions|
    requires Serving(st.sessions[s].pc) && Serving(Apply(st, step).sessions[s].pc)
    ensures st.sessions[s].id in Apply(st, step).players
  {
    hide Apply, Enabled, SessionOk, Owner;
    if step.TryLogin? {
      StepInRange(st, step);
      LoginEffect(st, step.s);
    } else if step.RejectUnregister? || step.Unregister? {
      StepInRange(st, step);
      UnregisterEffect(st, step);
      UnregisterServes(st, step);
    } else {
      PlayersKept(st, step);
    }
  }

  lemma UnregisterServes(st: State, step: Step)
    requires Enabled(st, step) && (step.RejectUnregister? || step.Unregister?)
    ensures step.s < |Apply(st, step).sessions| && !Serving(Apply(st, step).sessions[step.s].pc)
    ensures step.Unregister? ==> Serving(st.sessions[step.s].pc)
  {
  }

  lemma {:induction false} ServingHolds(bearer: string, steps: seq<Step>)
    requires Valid(bearer, steps) && Sparing(bearer, steps)
    ensures Exclusive(Exec(bearer, steps), false)
  {
    hide Inv, Apply, Enabled, Exclusive, SessionsOk, Harms;
    if steps == [] {
      NobodyServes(bearer);
    } else {
      var front := steps[..|steps| - 1];
      ServingHolds(bearer, front);
      InvHolds(bearer, front);
      InvSessions(Exec(bearer, front));
      SparingKeeps(Exec(bearer, front), steps[|steps| - 1]);
    }
  }

  lemma NobodyServes(bearer: string)
    ensures Exclusive(Init(bearer), false)
  {
  }

  // ---------- Login epochs ----------

  /** Login stamps are distinct, and a session that is no holder any more logged in before any
      current holder of its id. */
  ghost predicate EpochsOk(st: State, owners: bool) {
    && (forall s :: 0 <= s < |st.sessions| ==> st.sessions[s].epoch <= st.logins)
    && (forall s, t :: 0 <= s < t < |st.sessions| && st.sessions[s].epoch > 0 ==>
      st.sessions[s].epoch != st.sessions[t].epoch)
    && (forall s, t ::
          (0 <= s < |st.sessions| && 0 <= t < |st.sessions| && st.sessions[s].epoch > 0 && st.sessions[t].epoch > 0
           && st.sessions[s].id == st.sessions[t].id && !Holder(st.sessions[s], owners) &&
             Holder(st.sessions[t], owners))
          ==> st.sessions[s].epoch < st.sessions[t].epoch)
  }

  /** In each room's history of sends, the senders of one id appear in the order they logged in. */
  ghost predicate EpochSorted(sessions: seq<Session>, r: Incarnation) {
    forall a, b ::
      (0 <= a < b < |r.sent| && LoggedIn(sessions, r.sent[a].from) && LoggedIn(sessions, r.sent[b].from)
       && sessions[r.sent[a].from].id == sessions[r.sent[b].from].id)
      ==> sessions[r.sent[a].from].epoch <= sessions[r.sent[b].from].epoch
  }

  lemma EpochsStep(st: State, step: Step, owners: bool)
    requires Enabled(st, step) && SessionsOk(st) && Exclusive(st, owners) && EpochsOk(st, owners)
    ensures EpochsOk(Apply(st, step), owners)
  {
    hide Apply, Enabled, SessionOk, SessionsOk, Continues, JustLoggedIn, Holder, Exclusive, EpochsOk;
    var st' := Apply(st, step);
    LoginsGrow(st, step);
    forall s: SessionId | s < |st'.sessions| && st'.sessions[s].epoch > 0
      ensures SameLogin(st, st', s, owners) || NewLogin(st, st', step, s, owners)
    {
      LoginStepOf(st, step, s);
      OldOrNew(st, st', step, s, owners);
    }
    EpochsContinue(st, st', step, owners);
  }

  predicate SameLogin(st: State, st': State, s: SessionId, owners: bool)
    requires s < |st'.sessions|
  {
    && s < |st.sessions|
    && st'.sessions[s].epoch == st.sessions[s].epoch && st'.sessions[s].id == st.sessions[s].id
    && (Holder(st'.sessions[s], owners) ==> Holder(st.sessions[s], owners))
  }

  predicate NewLogin(st: State, st': State, step: Step, s: SessionId, owners: bool)
    requires s < |st'.sessions|
  {
    step == TryLogin(s) && st'.logins == st.logins + 1 == st'.sessions[s].epoch && Holder(st'.sessions[s], owners)
  }

  lemma OldOrNew(st: State, st': State, step: Step, s: SessionId, owners: bool)
    requires s < |st'.sessions| && st'.sessions[s].epoch > 0
    requires if s < |st.sessions| then Continues(st.sessions[s], st'.sessions[s]) || JustLoggedIn(st, st', step, s)
      else st'.sessions[s].epoch == 0
    ensures SameLogin(st, st', s, owners) || NewLogin(st, st', step, s, owners)
  {
  }

  lemma EpochsContinue(st: State, st': State, step: Step, owners: bool)
    requires Exclusive(st, owners) && EpochsOk(st, owners) && st.logins <= st'.logins
    requires forall s: SessionId :: s < |st'.sessions| && st'.sessions[s].epoch > 0 ==>
      SameLogin(st, st', s, owners) || NewLogin(st, st', step, s, owners)
    ensures EpochsOk(st', owners)
  {
    hide Holder, SameLogin, NewLogin, Exclusive, EpochsOk;
    forall s: SessionId | s < |st'.sessions| ensures st'.sessions[s].epoch <= st'.logins {
      EpochBounded(st, st', step, s, owners);
    }
    forall s: SessionId, t: SessionId | s < |st'.sessions| && t < |st'.sessions| && s != t &&
      st'.sessions[s].epoch > 0 && st'.sessions[t].epoch > 0
      ensures st'.sessions[s].epoch != st'.sessions[t].epoch
      ensures (st'.sessions[s].id == st'.sessions[t].id && !Holder(st'.sessions[s], owners) &&
        Holder(st'.sessions[t], owners)) ==>
        st'.sessions[s].epoch < st'.sessions[t].epoch
    {
      EpochsOfTwo(st, st', step, s, t, owners);
    }
    assert EpochsOk(st', owners) by { EpochsCollected(st', owners); }
  }

  lemma EpochsCollected(st: State, owners: bool)
    requires forall s: SessionId :: s < |st.sessions| ==> st.sessions[s].epoch <= st.logins
    requires forall s: SessionId, t: SessionId ::
      s < |st.sessions| && t < |st.sessions| && s != t && st.sessions[s].epoch > 0 && st.sessions[t].epoch > 0 ==>
      && st.sessions[s].epoch != st.sessions[t].epoch
      && ((st.sessions[s].id == st.sessions[t].id && !Holder(st.sessions[s], owners) &&
        Holder(st.sessions[t], owners)) ==>
            st.sessions[s].epoch < st.sessions[t].epoch)
    ensures EpochsOk(st, owners)
  {
    hide Holder;
  }

  lemma EpochBounded(st: State, st': State, step: Step, s: SessionId, owners: bool)
    requires EpochsOk(st, owners) && st.logins <= st'.logins && s < |st'.sessions|
    requires st'.sessions[s].epoch > 0 ==> SameLogin(st, st', s, owners) || NewLogin(st, st', step, s, owners)
    ensures st'.sessions[s].epoch <= st'.logins
  {
    hide Holder;
  }

  lemma EpochsOfTwo(st: State, st': State, step: Step, s: SessionId, t: SessionId, owners: bool)
    requires Exclusive(st, owners) && EpochsOk(st, owners)
    requires s < |st'.sessions| && t < |st'.sessions| && s != t && st'.sessions[s].epoch > 0 &&
      st'.sessions[t].epoch > 0
    requires SameLogin(st, st', s, owners) || NewLogin(st, st', step, s, owners)
    requires SameLogin(st, st', t, owners) || NewLogin(st, st', step, t, owners)
    ensures st'.sessions[s].epoch != st'.sessions[t].epoch
    ensures (st'.sessions[s].id == st'.sessions[t].id && !Holder(st'.sessions[s], owners) &&
      Holder(st'.sessions[t], owners)) ==>
      st'.sessions[s].epoch < st'.sessions[t].epoch
  {
    hide Holder;
  }

  lemma EpochSortedGrows(before: seq<Session>, after: seq<Session>, r: Incarnation, r': Incarnation)
    requires EpochSorted(before, r) && SessionsGrow(before, after) && r'.sent == r.sent
    requires forall k :: 0 <= k < |r.sent| ==> LoggedIn(before, r.sent[k].from)
    ensures EpochSorted(after, r')
  {
  }

  /** A sender is serving, so it logged in last among all who sent for its id. */
  lemma SenderIsNewest(st: State, r: Incarnation, r': Incarnation, env: Envelope)
    requires Exclusive(st, false) && EpochsOk(st, false) && EpochSorted(st.sessions, r) && SentOk(st.sessions, r)
    requires r'.sent == r.sent + [env]
    requires LoggedIn(st.sessions, env.from) && Serving(st.sessions[env.from].pc)
    ensures EpochSorted(st.sessions, r')
  {
    hide Owner, Serving;
    forall a | 0 <= a < |r.sent| && st.sessions[r.sent[a].from].id == st.sessions[env.from].id
      ensures st.sessions[r.sent[a].from].epoch <= st.sessions[env.from].epoch
    {
      var s := r.sent[a].from;
      assert LoggedIn(st.sessions, s);
      if s != env.from {
        OneHolder(st, s, env.from, false);
      }
    }
  }

  lemma OneHolder(st: State, s: SessionId, t: SessionId, owners: bool)
    requires Exclusive(st, owners) && s < |st.sessions| && t < |st.sessions| && s != t
    requires st.sessions[s].id == st.sessions[t].id
    ensures !Holder(st.sessions[s], owners) || !Holder(st.sessions[t], owners)
  {
  }

  lemma SenderServes(st: State, step: Step)
    requires SessionsOk(st) && Enabled(st, step) && Dispatched(st, step).Some?
    ensures var s := Dispatched(st, step).value.env.from;
            LoggedIn(st.sessions, s) && Serving(st.sessions[s].pc)
  {
    DispatchedIsSpoken(st, step);
  }

  lemma EpochSortedStep(st: State, step: Step, i: IncId)
    requires SessionsOk(st) && Exclusive(st, false) && EpochsOk(st, false) && Enabled(st, step) &&
      i < |Apply(st, step).rooms|
    requires i < |st.rooms| ==> SentOk(st.sessions, st.rooms[i]) && EpochSorted(st.sessions, st.rooms[i])
    ensures EpochSorted(Apply(st, step).sessions, Apply(st, step).rooms[i])
  {
    hide Apply, Enabled, SessionOk, Owner, Exclusive, EpochsOk, SentOk, EpochSorted, Dispatched;
    var st' := Apply(st, step);
    SentStep(st, step);
    SessionsGrowStep(st, step);
    var d := Dispatched(st, step);
    if i >= |st.rooms| {
      EmptyHistorySorted(st'.sessions, st'.rooms[i]);
    } else {
      SendersLoggedIn(st.sessions, st.rooms[i]);
      if d.Some? && d.value.inc == i {
        SenderServes(st, step);
        SenderIsNewest(st, st.rooms[i], st'.rooms[i], d.value.env);
        EpochSortedGrows(st.sessions, st'.sessions, st'.rooms[i], st'.rooms[i]);
      } else {
        EpochSortedGrows(st.sessions, st'.sessions, st.rooms[i], st'.rooms[i]);
      }
    }
  }

  lemma EmptyHistorySorted(sessions: seq<Session>, r: Incarnation)
    requires r.sent == []
    ensures EpochSorted(sessions, r)
  {
  }

  lemma SendersLoggedIn(sessions: seq<Session>, r: Incarnation)
    requires SentOk(sessions, r)
    ensures forall k :: 0 <= k < |r.sent| ==> LoggedIn(sessions, r.sent[k].from)
  {
  }

  ghost predicate EpochInv(st: State) {
    && Exclusive(st, false)
    && EpochsOk(st, false)
    && forall i :: 0 <= i < |st.rooms| ==> EpochSorted(st.sessions, st.rooms[i])
  }

  lemma {:induction false} EpochHolds(bearer: string, steps: seq<Step>)
    requires Valid(bearer, steps) && Sparing(bearer, steps)
    ensures EpochInv(Exec(bearer, steps))
  {
    hide RoomOk, SentOk, MembersOk, RegistryOk, FirstEventDue, SessionsOk, Exclusive, Apply, Enabled, Harms, EpochsOk,
      EpochSorted;
    ServingHolds(bearer, steps);
    if steps == [] {
      NoEpochs(bearer, false);
    } else {
      var st, step := Exec(bearer, steps[..|steps| - 1]), steps[|steps| - 1];
      EpochHolds(bearer, steps[..|steps| - 1]);
      InvHolds(bearer, steps[..|steps| - 1]);
      EpochsStep(st, step, false);
      forall i | 0 <= i < |Apply(st, step).rooms| ensures EpochSorted(Apply(st, step).sessions,
        Apply(st, step).rooms[i]) {
        EpochSortedStep(st, step, i);
      }
    }
  }

  /** In harmless runs the same is true of owners, crashed ones included. */
  lemma {:induction false} OwnerEpochsHold(bearer: string, steps: seq<Step>)
    requires Valid(bearer, steps) && Harmless(bearer, steps)
    ensures Exclusive(Exec(bearer, steps)) && EpochsOk(Exec(bearer, steps), true)
  {
    hide Inv, SessionsOk, Exclusive, Apply, Enabled, Harmful, EpochsOk;
    ExclusiveIffHarmless(bearer, steps);
    if steps == [] {
      NoEpochs(bearer, true);
    } else {
      var front := steps[..|steps| - 1];
      OwnerEpochsHold(bearer, front);
      InvHolds(bearer, front);
      InvSessions(Exec(bearer, front));
      EpochsStep(Exec(bearer, front), steps[|steps| - 1], true);
    }
  }

  lemma NoEpochs(bearer: string, owners: bool)
    ensures EpochsOk(Init(bearer), owners)
  {
  }

  // ---------- Epoch safety ----------

  /** Every entry of the member table was put there by a handled join. */
  lemma {:induction false} MemberHasJoined(id: RoomId, config: RoomConfig, log: seq<Entry>, p: PlayerId)
    requires p in FoldLog(id, config, log).players
    ensures exists k ::
      0 <= k < |log| && log[k].env.event.InputJoin? && log[k].env.event.player == FoldLog(id, config, log).players[p]
  {
    FoldLogStep(id, config, log);
    hide FoldLog;
    var front, last := log[..|log| - 1], log[|log| - 1];
    var room := FoldLog(id, config, front);
    if p in room.players && Handle(room, last.env.event, last.order).room.players[p] == room.players[p] {
      MemberHasJoined(id, config, front, p);
      var k :| 0 <= k < |front| && front[k].env.event.InputJoin? && front[k].env.event.player == room.players[p];
      assert log[k] == front[k];
    }
  }

  /** Session-epoch safety: in a run that spares those who serve, a leave that removes another
      session's membership comes from a later login of the same id, and the session that loses its
      entry serves no client any more; in a harmless run it has finished. A leave never removes the
      membership of a later session. */
  lemma LeavesSpareLaterSessions(bearer: string, steps: seq<Step>, i: IncId, order: seq<PlayerId>)
    requires Valid(bearer, steps) && Sparing(bearer, steps)
    requires Enabled(Exec(bearer, steps), RoomTake(i, order))
    requires var r := Exec(bearer, steps).rooms[i];
             r.queue[0].event.InputLeave? && r.queue[0].event.playerId in r.room.players
             && r.room.players[r.queue[0].event.playerId].sender != r.queue[0].from
    ensures var st := Exec(bearer, steps);
            var r := st.rooms[i];
            var leaver, member := r.queue[0].from, r.room.players[r.queue[0].event.playerId].sender;
            && leaver < |st.sessions| && member < |st.sessions|
            && st.sessions[leaver].id == st.sessions[member].id
            && 0 < st.sessions[member].epoch < st.sessions[leaver].epoch
            && !Serving(st.sessions[member].pc)
            && (Harmless(bearer, steps) ==> st.sessions[member].pc.Finished?)
  {
    hide Handle, FoldLog, Iterated, Enumerates, Owner, Serving, Sparing, Harmless, EpochsOk, EpochSorted, SessionsOk,
      RegistryOk, FirstEventDue, Exclusive, RoomOk, SentOk, MembersOk, RoomAt;
    var st := Exec(bearer, steps);
    var r := st.rooms[i];
    var p := r.queue[0].event.playerId;
    InvHolds(bearer, steps);
    EpochHolds(bearer, steps);
    JoinBeforeLeave(st.sessions, r, p);
    EpochVerdict(st, r.room.players[p].sender, r.queue[0].from, false);
    if Harmless(bearer, steps) {
      OwnerEpochsHold(bearer, steps);
      EpochVerdict(st, r.room.players[p].sender, r.queue[0].from, true);
      NoOwnerFinished(st.sessions[r.room.players[p].sender]);
    }
  }

  lemma JoinBeforeLeave(sessions: seq<Session>, r: Incarnation, p: PlayerId)
    requires RoomOk(r) && SentOk(sessions, r) && EpochSorted(sessions, r)
    requires p in r.room.players && r.queue != [] && r.queue[0].event == InputLeave(p)
    ensures var leaver, member := r.queue[0].from, r.room.players[p].sender;
            && LoggedIn(sessions, leaver) && LoggedIn(sessions, member)
            && sessions[leaver].id == p == sessions[member].id
            && sessions[member].epoch <= sessions[leaver].epoch
  {
    HeadIsSent(r);
    MemberHasJoined(r.room.id, r.room.config, r.log, p);
    var k :| 0 <= k < |r.log| && r.log[k].env.event.InputJoin? && r.log[k].env.event.player == r.room.players[p];
    assert r.sent[k] == r.log[k].env;
    assert SpokenBy(r.sent[k], sessions[r.sent[k].from].id);
    assert SpokenBy(r.sent[|r.log|], sessions[r.sent[|r.log|].from].id);
    JoinedUnderOwnId(r.room.id, r.room.config, r.log, p);
  }

  lemma {:induction false} JoinedUnderOwnId(id: RoomId, config: RoomConfig, log: seq<Entry>, p: PlayerId)
    requires p in FoldLog(id, config, log).players
    ensures FoldLog(id, config, log).players[p].id == p
  {
    FoldLogStep(id, config, log);
    hide FoldLog;
    var front, last := log[..|log| - 1], log[|log| - 1];
    var room := FoldLog(id, config, front);
    if p in room.players {
      JoinedUnderOwnId(id, config, front, p);
    }
  }

  lemma EpochVerdict(st: State, member: SessionId, leaver: SessionId, owners: bool)
    requires Exclusive(st, owners) && EpochsOk(st, owners)
    requires LoggedIn(st.sessions, leaver) && LoggedIn(st.sessions, member) && leaver != member
    requires st.sessions[leaver].id == st.sessions[member].id && st.sessions[member].epoch <= st.sessions[leaver].epoch
    ensures st.sessions[member].epoch < st.sessions[leaver].epoch
    ensures !Holder(st.sessions[member], owners)
  {
    OneHolder(st, member, leaver, owners);
  }

  lemma NoOwnerFinished(x: Session)
    requires !Owner(x) && x.epoch > 0
    ensures x.pc.Finished?
  {
  }
}
