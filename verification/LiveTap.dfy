/** The tap of a StarCraft II session: when it announces, holds rosters back, reconciles, and what switching sharing
    off and on does to it (app/src/uplink/mod.rs, `SessionTap`). */
module LiveTap {
  import opened Common
  import opened Wire
  import opened Chat
  import opened Projection
  import opened LiveMirror
  import opened LiveRuns

  datatype Call =
    | Observe(event: ChatEvent)
    | ObserveLeft(index: nat)
    | ReconcileWith(rosters: seq<Listed>)
    | RejectChannel(channel: ChatChannel)
    | ResolvePending
    | Tick
    | Switch(on: bool)
    | End

  /** `expected` are the channels asked for when the session began; a roster or a rejection resolves one. */
  datatype Tap = Tap(
    projector: Projector, enabled: bool, announced: bool, ended: bool,
    expected: set<string>, pending: set<string>, resolved: set<string>, synced: bool)

  function Gate(x: Tap): Gates { Gates(x.enabled, None) }

  /** Every send but a few announces the session first. */
  function Announced(x: Tap, kinds: seq<EventKind>): seq<EventKind> {
    if x.announced || kinds == [] then kinds else [SessionStarted] + kinds
  }

  function Sending(x: Tap, kinds: seq<EventKind>): (Tap, seq<EventKind>) {
    (x.(announced := x.announced || kinds != []), Announced(x, kinds))
  }

  function Reconciling(x: Tap): (Tap, seq<EventKind>) { Sending(x, Reconcile(x.projector)) }

  function Ending(x: Tap): (Tap, seq<EventKind>) {
    if x.announced && !x.ended then (x.(ended := true), [SessionEnded]) else (x, [])
  }

  function Moved(x: Tap, c: Call): (Tap, seq<EventKind>) {
    match c
    case Observe(event) =>
      var r := Project(x.projector, event, Gate(x));
      var y := x.(projector := r.0);
      if r.1.None? then (y, [])
      else if r.1.value.Roster? then
        var key := r.1.value.channel.key;
        var z := y.(pending := y.pending - {key}, resolved := y.resolved + {key});
        if z.synced || z.expected <= z.resolved then Reconciling(z.(synced := true)) else (z, [])
      else Sending(y, [r.1.value])
    case ObserveLeft(index) =>
      var left := Projection.Leave(x.projector, index, Gate(x));
      var y := x.(projector := left.0);
      if left.1.None? then (y, []) else Sending(y, [Left(left.1.value)])
    case ReconcileWith(rosters) =>
      if !x.enabled || rosters == [] then (x, []) else Reconciling(x.(projector := Refreshed(x.projector, rosters)))
    case RejectChannel(channel) =>
      var key := Identity(channel);
      var y := x.(pending := x.pending - {key}, resolved := x.resolved + {key});
      if !y.synced && y.expected <= y.resolved then Reconciling(y.(synced := true)) else (y, [])
    case ResolvePending =>
      if x.synced || x.pending == {} then (x, [])
      else Reconciling(x.(resolved := x.resolved + x.pending, pending := {}, synced := true))
    case Tick =>
      if !x.enabled then Ending(x)
      else if x.ended then
        var r := Reconciling(x.(ended := false));
        (r.0, [SessionStarted] + r.1)
      else (x, if x.announced then [Heartbeat] else [])
    case Switch(on) => (x.(enabled := on), [])
    case End => Ending(x)
  }

  /** `begin_session`: with sharing on the session is announced at once. */
  function Begun(clubNames: map<nat, string>, expected: set<string>, enabled: bool): (Tap, seq<EventKind>) {
    (Tap(NEW.(clubNames := clubNames), enabled, enabled, false, expected, expected, {}, false),
     if enabled then [SessionStarted] else [])
  }

  lemma ReconcilingIs(x: Tap, events: seq<EventKind>)
    requires events == ReconciliationEvents(x.projector)
    ensures
      if events == [] then Reconciling(x) == (x, [])
      else Reconciling(x) == (x.(announced := true), Announced(x, [SyncStarted]) + events + [SessionSynced])
  {
    hide Projection.ReconciliationEvents;
    var start := if x.announced then [] else [SessionStarted];
    assert Announced(x, [SyncStarted]) == start + [SyncStarted];
    Regroup(start, [SyncStarted], events, [SessionSynced]);
    assert Announced(x, [SyncStarted] + events + [SessionSynced]) == start + ([SyncStarted] + events + [SessionSynced]);
  }

  lemma Extended<T>(a: seq<T>, b: seq<T>, i: nat)
    requires i < |b|
    ensures a + b[..i] + [b[i]] == a + b[..i + 1]
  {
    assert b[..i + 1] == b[..i] + [b[i]];
  }

  lemma Regroup<T>(a: seq<T>, b: seq<T>, c: seq<T>, d: seq<T>)
    ensures a + (b + c + d) == a + b + c + d
  {
  }

  /** The object of the source; `out` is what it offers to the channel. */
  class LiveSessionTap {
    const projector: LiveProjector
    const expected: set<string>
    var enabled: bool
    var announced: bool
    var ended: bool
    var pending: set<string>
    var resolved: set<string>
    var synced: bool
    var out: seq<EventKind>

    constructor (clubNames: map<nat, string>, expected: set<string>, enabled: bool)
      ensures fresh(projector) && Value() == Begun(clubNames, expected, enabled).0
      ensures out == Begun(clubNames, expected, enabled).1
    {
      projector := new LiveProjector(clubNames);
      this.expected, this.enabled, announced, ended := expected, enabled, enabled, false;
      pending, resolved, synced, out := expected, {}, false, if enabled then [SessionStarted] else [];
    }

    function Value(): Tap
      reads this`enabled, this`announced, this`ended, this`pending, this`resolved, this`synced, projector
    {
      Tap(projector.Value(), enabled, announced, ended, expected, pending, resolved, synced)
    }

    lemma ProjectorOf()
      ensures Value().projector == projector.Value()
    {
    }

    method AnnounceAndEmit(kind: EventKind)
      modifies this`out, this`announced
      ensures Value() == old(Value()).(announced := true) && out == old(out) + Announced(old(Value()), [kind])
    {
      if !announced {
        announced := true;
        out := out + [SessionStarted];
      }
      out := out + [kind];
    }

    method Emit(kind: EventKind)
      modifies this`out
      ensures out == old(out) + [kind]
    {
      out := out + [kind];
    }

    method EmitEach(kinds: seq<EventKind>)
      modifies this`out
      ensures out == old(out) + kinds
    {
      for i := 0 to |kinds|
        invariant out == old(out) + kinds[..i]
      {
        Emit(kinds[i]);
        Extended(old(out), kinds, i);
      }
      assert kinds[..|kinds|] == kinds;
    }

    method ReconcileAll()
      modifies this`out, this`announced
      ensures Value() == Reconciling(old(Value())).0 && out == old(out) + Reconciling(old(Value())).1
    {
      hide Projection.ReconciliationEvents, Announced, Reconciling, LiveSessionTap.Value, LiveProjector.Value;
      ghost var x := Value();
      var events := ReconciliationEvents(projector.Value());
      assert events == ReconciliationEvents(x.projector) by { ProjectorOf(); }
      ReconcilingIs(x, events);
      if events == [] {
        assert out + [] == out;
        return;
      }
      AnnounceAndEmit(SyncStarted);
      EmitEach(events);
      Emit(SessionSynced);
      Regroup(old(out), Announced(x, [SyncStarted]), events, [SessionSynced]);
    }

    method ObserveEvent(event: ChatEvent)
      modifies this, projector
      ensures Value() == Moved(old(Value()), Observe(event)).0
      ensures out == old(out) + Moved(old(Value()), Observe(event)).1
    {
      hide Project, Reconcile;
      var kind := projector.Observe(event, Gates(enabled, None));
      if kind.None? {
        return;
      }
      if kind.value.Roster? {
        pending := pending - {kind.value.channel.key};
        resolved := resolved + {kind.value.channel.key};
        if synced || expected <= resolved {
          synced := true;
          ReconcileAll();
        }
      } else {
        AnnounceAndEmit(kind.value);
      }
    }

    method LeaveChannel(index: nat)
      modifies this, projector
      ensures Value() == Moved(old(Value()), ObserveLeft(index)).0
      ensures out == old(out) + Moved(old(Value()), ObserveLeft(index)).1
    {
      hide Projection.Leave;
      var channel := projector.LeaveChannel(index, Gates(enabled, None));
      if channel.Some? {
        AnnounceAndEmit(Left(channel.value));
      }
    }

    method ReconcileRosters(rosters: seq<Listed>)
      modifies this, projector
      ensures Value() == Moved(old(Value()), ReconcileWith(rosters)).0
      ensures out == old(out) + Moved(old(Value()), ReconcileWith(rosters)).1
    {
      hide Project, Reconcile;
      if !enabled || rosters == [] {
        return;
      }
      for i := 0 to |rosters|
        invariant projector.Value() == Refreshed(old(projector.Value()), rosters[..i])
        invariant Value() == old(Value()).(projector := projector.Value()) && out == old(out)
      {
        var r := rosters[i];
        assert rosters[..i + 1][..i] == rosters[..i];
        var _ := projector.Observe(RosterSnapshot(r.index, r.complete, r.users), EVERYTHING);
      }
      assert rosters[..|rosters|] == rosters;
      ReconcileAll();
    }

    method Reject(channel: ChatChannel)
      modifies this
      ensures Value() == Moved(old(Value()), RejectChannel(channel)).0
      ensures out == old(out) + Moved(old(Value()), RejectChannel(channel)).1
    {
      hide Reconcile;
      pending := pending - {Identity(channel)};
      resolved := resolved + {Identity(channel)};
      if !synced && expected <= resolved {
        synced := true;
        ReconcileAll();
      }
    }

    method Resolve()
      modifies this
      ensures Value() == Moved(old(Value()), ResolvePending).0
      ensures out == old(out) + Moved(old(Value()), ResolvePending).1
    {
      hide Reconcile;
      if synced || pending == {} {
        return;
      }
      resolved := resolved + pending;
      pending := {};
      synced := true;
      ReconcileAll();
    }

    method Heartbeat()
      modifies this
      ensures Value() == Moved(old(Value()), Tick).0 && out == old(out) + Moved(old(Value()), Tick).1
    {
      hide Reconcile;
      if !enabled {
        EndSession();
        return;
      }
      if ended {
        ended := false;
        out := out + [SessionStarted];
        ReconcileAll();
      } else if announced {
        out := out + [EventKind.Heartbeat];
      }
    }

    method EndSession()
      modifies this`out, this`ended
      ensures Value() == Ending(old(Value())).0 && out == old(out) + Ending(old(Value())).1
    {
      if announced && !ended {
        out := out + [SessionEnded];
        ended := true;
      }
    }
  }

  // ---- sharing is on, the first sync is done ----

  predicate Steady(x: Tap) { x.enabled && x.announced && !x.ended && x.synced }

  /** The call leaves sharing on and the session open. */
  predicate Ongoing(c: Call) { !c.End? && (c.Switch? ==> c.on) }

  /** What a call is to a tap that is steady. */
  function Heard(c: Call): seq<Cause> {
    match c
    case Observe(event) => [Chat(event)]
    case ObserveLeft(index) => [LeaveCommand(index)]
    case ReconcileWith(rosters) => if rosters == [] then [] else [Resync(rosters)]
    case Tick => [Beat]
    case _ => []
  }

  lemma SteadyStep(x: Tap, c: Call)
    requires Steady(x) && Ongoing(c)
    ensures
      var r := Moved(x, c);
      && Steady(r.0)
      && (if Heard(c) == [] then r.0.projector == x.projector && r.1 == []
          else r.0.projector == Caused(x.projector, Heard(c)[0]).0 && r.1 == Emitted(x.projector, Heard(c)[0]))
  {
    hide Project, Projection.Leave, Reconcile, Refreshed;
  }

  function AllMoved(x: Tap, calls: seq<Call>): Tap
    decreases |calls|
  {
    if calls == [] then x else AllMoved(Moved(x, calls[0]).0, calls[1..])
  }

  function AllSent(x: Tap, calls: seq<Call>): seq<EventKind>
    decreases |calls|
  {
    if calls == [] then [] else Moved(x, calls[0]).1 + AllSent(Moved(x, calls[0]).0, calls[1..])
  }

  function AllHeard(calls: seq<Call>): seq<Cause>
    decreases |calls|
  {
    if calls == [] then [] else Heard(calls[0]) + AllHeard(calls[1..])
  }

  /** From the first sync on, as long as sharing stays on, the tap sends what its causes emit, and nothing else. */
  lemma {:induction false} SteadyRun(x: Tap, calls: seq<Call>)
    requires Steady(x) && forall c :: c in calls ==> Ongoing(c)
    ensures Steady(AllMoved(x, calls)) && AllMoved(x, calls).projector == AllCaused(x.projector, AllHeard(calls))
    ensures AllSent(x, calls) == AllEmitted(x.projector, AllHeard(calls))
    decreases |calls|
  {
    hide Moved, Caused, Emitted, Heard, Steady, Ongoing;
    if calls != [] {
      var c, rest := calls[0], calls[1..];
      assert c in calls && forall d :: d in rest ==> d in calls;
      SteadyStep(x, c);
      SteadyRun(Moved(x, c).0, rest);
      var heard := Heard(c);
      assert |heard| <= 1 by { HeardOnce(c); }
      if heard == [] {
        assert AllHeard(calls) == AllHeard(rest);
      } else {
        assert AllHeard(calls)[0] == heard[0] && AllHeard(calls)[1..] == AllHeard(rest);
      }
    }
  }

  lemma HeardOnce(c: Call)
    ensures |Heard(c)| <= 1
  {
  }

  lemma {:induction false} RunsInTurn(x: Tap, a: seq<Call>, b: seq<Call>)
    ensures AllMoved(x, a + b) == AllMoved(AllMoved(x, a), b)
    ensures AllSent(x, a + b) == AllSent(x, a) + AllSent(AllMoved(x, a), b)
    decreases |a|
  {
    hide Moved;
    if a == [] {
      assert a + b == b;
    } else {
      assert (a + b)[0] == a[0] && (a + b)[1..] == a[1..] + b;
      RunsInTurn(Moved(x, a[0]).0, a[1..], b);
    }
  }

  // ---- every run ----

  lemma MovedKeeps(x: Tap, c: Call)
    requires Sound(x.projector) && OrdersKept(x.projector)
    ensures Sound(Moved(x, c).0.projector) && OrdersKept(Moved(x, c).0.projector)
  {
    hide Project, Projection.Leave, Reconcile, Refreshed, Sound, OrdersKept;
    match c
    case Observe(event) =>
      CausedKeepsOrders(x.projector, Chat(event));
      UnheardStep(x.projector, Chat(event), 0);
    case ObserveLeft(index) =>
      CausedKeepsOrders(x.projector, LeaveCommand(index));
      UnheardStep(x.projector, LeaveCommand(index), 0);
    case ReconcileWith(rosters) => RefreshedKeeps(x.projector, rosters);
    case _ =>
  }

  lemma {:induction false} RunKeeps(x: Tap, calls: seq<Call>)
    requires Sound(x.projector) && OrdersKept(x.projector)
    ensures Sound(AllMoved(x, calls).projector) && OrdersKept(AllMoved(x, calls).projector)
    decreases |calls|
  {
    hide Moved, Sound, OrdersKept;
    if calls != [] {
      MovedKeeps(x, calls[0]);
      RunKeeps(Moved(x, calls[0]).0, calls[1..]);
    }
  }

  /** From here on the session is live: it was started and not ended since. */
  ghost predicate LiveFrom(kinds: seq<EventKind>, k: int) {
    0 <= k < |kinds| && kinds[k].SessionStarted? && forall j :: k < j < |kinds| ==> !kinds[j].SessionEnded?
  }

  /** What the tap takes itself to be is what it has sent. */
  ghost predicate Tells(x: Tap, kinds: seq<EventKind>) {
    && (x.announced <==> kinds != []) && (kinds != [] ==> kinds[0].SessionStarted?)
    && (x.ended ==> x.announced)
    && (x.announced && !x.ended <==> exists k :: LiveFrom(kinds, k))
  }

  /** No start and no end of the session among them. */
  predicate Ordinary(kinds: seq<EventKind>) {
    forall i :: 0 <= i < |kinds| ==> !kinds[i].SessionStarted? && !kinds[i].SessionEnded?
  }

  /** The call resolves the last channel waited for. */
  predicate Completes(x: Tap, c: Call) {
    && !x.synced
    && (c.RejectChannel? || c.ResolvePending?)
    && (c.RejectChannel? ==> x.expected <= x.resolved + {Identity(c.channel)})
    && (c.ResolvePending? ==> x.pending != {})
  }

  /** A call sends ordinary events, the first of all after the session's start; or ends the session; or starts it
      again. */
  lemma MovedSends(x: Tap, c: Call) returns (rest: seq<EventKind>)
    ensures Ordinary(rest)
    ensures
      var r := Moved(x, c);
      || (r.1 == Announced(x, rest) && r.0.announced == (x.announced || rest != []) && r.0.ended == x.ended)
      || (r.1 == [SessionEnded] && x.announced && !x.ended && r.0.announced && r.0.ended)
      || (r.1 == [SessionStarted] + Announced(x, rest) && x.ended && !r.0.ended
          && r.0.announced == (x.announced || rest != []))
  {
    hide Refreshed, Project, Reconcile, Projection.Leave, Ordinary;
    ReconcileIsOrdinary(Moved(x, c).0.projector);
    FewAreOrdinary();
    NothingAnnounced(x);
    rest := [];
    match c
    case Observe(event) => rest := ObservedSends(x, event);
    case ObserveLeft(index) =>
      var left := Projection.Leave(x.projector, index, Gate(x));
      if left.1.Some? { rest := [Left(left.1.value)]; }
    case Tick =>
      if x.enabled && x.ended { rest := Reconcile(x.projector); }
      else if x.enabled && x.announced {
        rest := [Heartbeat];
        AnnouncedAlready(x, rest);
      }
    case Switch(_) =>
    case End =>
    case ReconcileWith(rosters) =>
      if x.enabled && rosters != [] { rest := Reconcile(Refreshed(x.projector, rosters)); }
    case _ => if Completes(x, c) { rest := Reconcile(x.projector); }
  }

  lemma NothingAnnounced(x: Tap)
    ensures Announced(x, []) == []
    ensures forall kinds :: Announced(x, kinds) == [] ==> kinds == []
  {
  }

  lemma AnnouncedAlready(x: Tap, kinds: seq<EventKind>)
    requires x.announced
    ensures Announced(x, kinds) == kinds
  {
  }

  lemma ObservedSends(x: Tap, event: ChatEvent) returns (rest: seq<EventKind>)
    ensures Ordinary(rest)
    ensures
      var r := Moved(x, Observe(event));
      r.1 == Announced(x, rest) && r.0.announced == (x.announced || rest != []) && r.0.ended == x.ended
  {
    hide Project, Reconcile, Ordinary;
    var r := Project(x.projector, event, Gate(x));
    ReconcileIsOrdinary(r.0);
    ProjectedIsOrdinary(x.projector, event, Gate(x));
    FewAreOrdinary();
    rest := [];
    if r.1.Some? && !r.1.value.Roster? {
      rest := [r.1.value];
    } else if r.1.Some? {
      var key := r.1.value.channel.key;
      if x.synced || x.expected <= x.resolved + {key} { rest := Reconcile(r.0); }
    }
  }

  lemma FewAreOrdinary()
    ensures Ordinary([]) && Ordinary([Heartbeat]) && forall c :: Ordinary([Left(c)])
  {
  }

  lemma ReconcileIsOrdinary(p: Projector)
    ensures Ordinary(Reconcile(p))
  {
    hide Reference, Values, Projection.Sent;
  }

  lemma ProjectedIsOrdinary(p: Projector, e: ChatEvent, gates: Gates)
    ensures Project(p, e, gates).1.Some? ==> Ordinary([Project(p, e, gates).1.value])
  {
    hide Reference, Values, UserReference, MirrorOf, WithOrder, Projection.Forget;
  }

  lemma LiveStays(kinds: seq<EventKind>, more: seq<EventKind>)
    requires Ordinary(more)
    ensures (exists k :: LiveFrom(kinds + more, k)) <==> (exists k :: LiveFrom(kinds, k))
  {
    if k :| LiveFrom(kinds, k) { assert LiveFrom(kinds + more, k); }
    if k :| LiveFrom(kinds + more, k) {
      assert k < |kinds|;
      assert forall j :: 0 <= j < |kinds| ==> (kinds + more)[j] == kinds[j];
      assert LiveFrom(kinds, k);
    }
  }

  lemma EndedIsOver(kinds: seq<EventKind>)
    ensures !exists k :: LiveFrom(kinds + [SessionEnded], k)
  {
    assert (kinds + [SessionEnded])[|kinds|].SessionEnded?;
  }

  lemma StartedIsLive(kinds: seq<EventKind>)
    ensures LiveFrom(kinds + [SessionStarted], |kinds|)
  {
  }

  lemma MovedTells(x: Tap, c: Call, kinds: seq<EventKind>)
    requires Tells(x, kinds)
    ensures Tells(Moved(x, c).0, kinds + Moved(x, c).1)
  {
    hide Moved, Ordinary, LiveFrom;
    var rest := MovedSends(x, c);
    var sent := Moved(x, c).1;
    if x.announced && !x.ended && Moved(x, c).0.ended {
      EndedIsOver(kinds);
    } else if x.announced {
      if sent == Announced(x, rest) && Moved(x, c).0.ended == x.ended {
        LiveStays(kinds, rest);
      } else {
        StartedIsLive(kinds);
        LiveStays(kinds + [SessionStarted], rest);
        assert kinds + ([SessionStarted] + rest) == kinds + [SessionStarted] + rest;
      }
    } else if rest == [] {
      assert kinds + sent == kinds;
    } else {
      StartedIsLive([]);
      assert [] + [SessionStarted] == [SessionStarted];
      LiveStays([SessionStarted], rest);
      assert kinds + sent == [SessionStarted] + rest;
    }
  }

  /** In every run, however sharing is switched: the first thing a session sends is its start, and the tap counts as
      announced and not ended if and only if a start was sent and no end since. */
  lemma {:induction false} RunTells(x: Tap, kinds: seq<EventKind>, calls: seq<Call>)
    requires Tells(x, kinds)
    ensures Tells(AllMoved(x, calls), kinds + AllSent(x, calls))
    decreases |calls|
  {
    hide Moved, Tells;
    if calls == [] {
      assert kinds + [] == kinds;
    } else {
      var r := Moved(x, calls[0]);
      MovedTells(x, calls[0], kinds);
      RunTells(r.0, kinds + r.1, calls[1..]);
      assert kinds + (r.1 + AllSent(r.0, calls[1..])) == kinds + r.1 + AllSent(r.0, calls[1..]);
    }
  }

  lemma BegunTells(clubNames: map<nat, string>, expected: set<string>, enabled: bool)
    ensures Tells(Begun(clubNames, expected, enabled).0, Begun(clubNames, expected, enabled).1)
    ensures Sound(Begun(clubNames, expected, enabled).0.projector)
    ensures OrdersKept(Begun(clubNames, expected, enabled).0.projector)
  {
    if enabled { assert LiveFrom([SessionStarted], 0); }
    NewIsSound(clubNames);
  }

  // ---- sharing is off ----

  /** While sharing is off a call hands the worker something other than the session's end if and only if it resolves
      the last channel waited for and a roster was held back before sharing went off. */
  lemma OffSendsIff(x: Tap, c: Call)
    requires !x.enabled && Sound(x.projector)
    ensures Moved(x, c).1 == [] || Moved(x, c).1 == [SessionEnded]
            <==> !(Completes(x, c) && x.projector.rosterSent != {})
  {
    hide ReconciliationEvents, Identity, Sound, Refreshed;
    NothingToReconcile(x.projector);
  }

  /** Sharing goes off while one of two channels is still waited for; when the wait is given up the tap reconciles
      all the same. */
  lemma HeldBackRosterIsSent(clubNames: map<nat, string>)
    ensures
      var joined := Moved(Begun(clubNames, {"party", "private:den"}, true).0, Observe(ChannelJoined(1, Party, 7))).0;
      var x := Moved(Moved(joined, Observe(RosterSnapshot(1, true, []))).0, Switch(false)).0;
      && !x.enabled && Completes(x, ResolvePending) && x.projector.rosterSent == {1}
      && Moved(x, ResolvePending).1 == Block(x.projector)
  {
    hide Snapped, ReconciliationEvents, Entered, Project, Identity, Refreshed, Begun;
    var joined := JoinedParty(clubNames);
    HeldBack(joined);
    var x := joined.(projector := Snapped(joined.projector, 1, []), pending := {"private:den"}, resolved := {"party"},
                     enabled := false);
    SnappedIsSent(joined.projector);
  }

  lemma JoinedParty(clubNames: map<nat, string>) returns (joined: Tap)
    ensures joined == Moved(Begun(clubNames, {"party", "private:den"}, true).0, Observe(ChannelJoined(1, Party, 7))).0
    ensures joined.projector.rosterSent == {} && joined.projector.channels == map[1 := Party]
    ensures joined == Tap(Entered(NEW.(clubNames := clubNames), 1, Party, 7), true, true, false,
                          {"party", "private:den"}, {"party", "private:den"}, {}, false)
  {
    hide Reference;
    joined := Moved(Begun(clubNames, {"party", "private:den"}, true).0, Observe(ChannelJoined(1, Party, 7))).0;
  }

  lemma SnappedIsSent(p: Projector)
    requires p.rosterSent == {} && 1 in p.channels
    ensures Snapped(p, 1, []).rosterSent == {1} && ReconciliationEvents(Snapped(p, 1, [])) != []
  {
    hide Reference, Values;
    var q := Snapped(p, 1, []);
    var _ := SentHas(q, 1);
  }

  lemma HeldBack(joined: Tap)
    requires joined.enabled && !joined.synced && 1 in joined.projector.channels && joined.projector.channels[1] == Party
    requires joined.projector.rosterSent == {} && joined.resolved == {}
    requires joined.expected == joined.pending == {"party", "private:den"}
    ensures
      var held := joined.(projector := Snapped(joined.projector, 1, []), pending := {"private:den"},
                          resolved := {"party"});
      Moved(joined, Observe(RosterSnapshot(1, true, []))) == (held, [])
  {
    hide Snapped, Project, Reference, Reconcile;
    SnapshotIs(joined.projector, 1, true, []);
    ReferenceKey(joined.projector, Party);
    assert "private:den"[1] == 'r' && "party"[1] == 'a';
    assert {"party", "private:den"} - {"party"} == {"private:den"} && {} + {"party"} == {"party"};
    assert "private:den" !in {"party"};
  }
}
