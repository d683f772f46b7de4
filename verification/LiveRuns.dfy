/** Whole stretches of a live session: sharing on, from one reconcile through any causes, and what becomes of the
    mirror while sharing is off (app/src/uplink/mod.rs, app/src/uplink/model.rs). */
module LiveRuns {
  import opened Common
  import opened Wire
  import opened Chat
  import opened Projection
  import opened Store
  import opened StoreProperties
  import opened LiveMirror
  import opened Issued

  // ---- sharing is on ----

  function AllCaused(p: Projector, causes: seq<Cause>): Projector
    decreases |causes|
  {
    if causes == [] then p else AllCaused(Caused(p, causes[0]).0, causes[1..])
  }

  function AllEmitted(p: Projector, causes: seq<Cause>): seq<EventKind>
    decreases |causes|
  {
    if causes == [] then [] else Emitted(p, causes[0]) + AllEmitted(Caused(p, causes[0]).0, causes[1..])
  }

  function AllShown(p: Projector, shown: set<string>, causes: seq<Cause>): set<string>
    decreases |causes|
  {
    if causes == [] then shown else AllShown(Caused(p, causes[0]).0, ShownAfter(p, shown, causes[0]), causes[1..])
  }

  /** Every cause is harmless when it comes. */
  ghost predicate AllHarmless(p: Projector, shown: set<string>, causes: seq<Cause>)
    decreases |causes|
  {
    causes == []
    || (Harmless(p, shown, causes[0])
        && AllHarmless(Caused(p, causes[0]).0, ShownAfter(p, shown, causes[0]), causes[1..]))
  }

  /** The feed follows the client before the first cause and after each, its events stored as they come. */
  ghost predicate FollowsThroughout(p: Projector, shown: set<string>, t: Tables, n: nat, causes: seq<Cause>,
                                    events: seq<Event>, receivedAt: nat)
    requires t.session.Some?
    decreases |causes|
  {
    && Following(p, shown, t, n)
    && (causes != [] ==>
          var k := |Emitted(p, causes[0])|;
          && k <= |events|
          && FollowsThroughout(Caused(p, causes[0]).0, ShownAfter(p, shown, causes[0]),
                               ApplyAll(t, events[..k], receivedAt), NumberAfter(events[..k], n), causes[1..],
                               events[k..], receivedAt))
  }

  /** Between syncs and across them, sharing on and nothing lost: the feed follows the client at every moment if
      and only if every cause is harmless when it comes. Following is to have exactly the channels open that were
      shown and not left, the client being in each, and for every roster sent exactly the client's members, with
      their names, clans, presence and order. */
  lemma {:induction false} FeedFollowsClient(p: Projector, shown: set<string>, t: Tables, n: nat, causes: seq<Cause>,
                                             events: seq<Event>, m: nat, receivedAt: nat)
    requires Following(p, shown, t, n) && Carries(events, AllEmitted(p, causes), n, m)
    ensures t.session.Some?
    ensures FollowsThroughout(p, shown, t, n, causes, events, receivedAt) <==> AllHarmless(p, shown, causes)
    ensures AllHarmless(p, shown, causes) ==>
              Following(AllCaused(p, causes), AllShown(p, shown, causes), ApplyAll(t, events, receivedAt), m)
    decreases |causes|
  {
    hide Following, Caused, Emitted, ShownAfter, Carries, ApplyAll, Harmless;
    FollowingParts(p, shown, t, n);
    CarriesUpTo(events, AllEmitted(p, causes), n, m);
    if causes == [] {
      CarriesNone(t, events, n, m, receivedAt);
      FollowingLater(p, shown, t, n, m);
    } else {
      var c, rest := causes[0], causes[1..];
      var q, kinds := Caused(p, c).0, Emitted(p, c);
      CarriesParts(events, kinds, AllEmitted(q, rest), n, m);
      var first, later := events[..|kinds|], events[|kinds|..];
      var k := NumberAfter(first, n);
      CauseFollowsIff(p, shown, t, n, c, first, k, receivedAt);
      ApplyAllAppend(t, first, later, receivedAt);
      assert first + later == events;
      if Harmless(p, shown, c) {
        FeedFollowsClient(q, ShownAfter(p, shown, c), ApplyAll(t, first, receivedAt), k, rest, later, m, receivedAt);
      } else {
        StopsFollowing(p, shown, t, n, causes, events, receivedAt);
      }
    }
  }

  lemma StopsFollowing(p: Projector, shown: set<string>, t: Tables, n: nat, causes: seq<Cause>, events: seq<Event>,
                       receivedAt: nat)
    requires t.session.Some? && causes != []
    requires
      var k := |Emitted(p, causes[0])|;
      && k <= |events|
      && !Follows(p, shown, t, causes[0], events[..k], NumberAfter(events[..k], n), receivedAt)
    ensures !FollowsThroughout(p, shown, t, n, causes, events, receivedAt)
  {
    hide Following, Caused, Emitted, ShownAfter, ApplyAll;
  }

  /** A cause that is not harmless shows: the channel an index held before stays open although the client is no
      longer in it. */
  lemma ReusedIndexExample()
    ensures
      var p := Entered(NEW, 1, Party, 7);
      var t := OnlyParty();
      var e := Event(5, 9, Joined(ChannelRef("private:den", Some("den"))));
      && Following(p, {"party"}, t, 5)
      && Emitted(p, Chat(ChannelJoined(1, Private("den"), 7))) == [e.kind]
      && Open(Apply(t, e, 9), "party") && !Known(Entered(p, 1, Private("den"), 7), "party")
  {
    var p := Entered(NEW, 1, Party, 7);
    var t := OnlyParty();
    assert Known(p, "party") by { assert p.channels[1] == Party && Identity(Party) == "party"; }
    assert Following(p, {"party"}, t, 5);
    var q := Entered(p, 1, Private("den"), 7);
    assert q.channels == map[1 := Private("den")];
    assert "private:den"[1] == 'r' && "party"[1] == 'a';
    assert Identity(Private("den")) == "private:" + "den" == "private:den";
  }

  /** A live session, synced before, with the party channel open. */
  function OnlyParty(): Tables {
    var row := SessionRow(Session("sc2", "", 0), 0, 4, None, Some(1), 2);
    Tables(Some(row), map["party" := ChannelRow("Party", 1, 1, None, 3)], map[], map[], 0)
  }

  // ---- the reconcile heals ----

  /** The last complete roster of an index. */
  ghost predicate LastComplete(rosters: seq<Listed>, j: int) {
    && 0 <= j < |rosters| && rosters[j].complete
    && forall k :: j < k < |rosters| ==> !(rosters[k].complete && rosters[k].index == rosters[j].index)
  }

  /** A periodic reconcile replaces the mirror of every channel the session has a complete roster of. */
  lemma {:induction false} RefreshedMirror(p: Projector, rosters: seq<Listed>, j: int)
    requires LastComplete(rosters, j) && rosters[j].index in p.channels
    ensures
      var q, i := Refreshed(p, rosters), rosters[j].index;
      && q.channels == p.channels && i in q.rosterSent && i in q.rosterState
      && q.rosterState[i].Keys == Handles(rosters[j].users)
    decreases |rosters|
  {
    hide Project, Handles, MirrorOf;
    var n := |rosters| - 1;
    var last, before := rosters[n], Refreshed(p, rosters[..n]);
    SnapshotIs(before, last.index, last.complete, last.users);
    RefreshedChannels(p, rosters[..n]);
    if j == n {
      MirrorOrders(before, last.index, last.users);
    } else {
      assert LastComplete(rosters[..n], j);
      RefreshedMirror(p, rosters[..n], j);
    }
  }

  lemma {:induction false} RefreshedChannels(p: Projector, rosters: seq<Listed>)
    ensures Refreshed(p, rosters).channels == p.channels
    decreases |rosters|
  {
    hide Project;
    if rosters != [] {
      var n := |rosters| - 1;
      RefreshedChannels(p, rosters[..n]);
      SnapshotIs(Refreshed(p, rosters[..n]), rosters[n].index, rosters[n].complete, rosters[n].users);
    }
  }

  /** Whatever a live feed and the mirrors held before, a periodic reconcile leaves exactly the sent channels open,
      and each channel it came with a complete roster of with exactly the members of that roster. */
  lemma ResyncHeals(p: Projector, rosters: seq<Listed>, t: Tables, n: nat, events: seq<Event>, m: nat, receivedAt: nat,
                    j: int)
    requires Sound(p) && OneIndexEach(p) && OrdersKept(p) && Ready(t, n)
    requires LastComplete(rosters, j) && rosters[j].index in p.channels
    requires Carries(events, Emitted(p, Resync(rosters)), n, m)
    ensures
      var q := Refreshed(p, rosters);
      && t.session.Some? && Following(q, SentKeys(q), ApplyAll(t, events, receivedAt), m)
      && MembersOf(ApplyAll(t, events, receivedAt), Identity(p.channels[rosters[j].index])).Keys
          == Handles(rosters[j].users)
  {
    hide Following, Refreshed, Handles, Identity, OrdersKept, Sound, Ready, ApplyAll, Carries, ReconciliationEvents;
    var q := Refreshed(p, rosters);
    RefreshedKeeps(p, rosters);
    RefreshedMirror(p, rosters, j);
    NothingToReconcile(q);
    BlockFollows(q, t, n, events, m, receivedAt);
    SentShows(q, SentKeys(q), ApplyAll(t, events, receivedAt), m, rosters[j].index);
  }

  // ---- sharing is off ----

  const NOTHING := Gates(false, None)

  /** What a cause does to the projector while sharing is off. */
  function Unheard(p: Projector, c: Cause): Projector {
    match c
    case Chat(e) => Project(p, e, NOTHING).0
    case LeaveCommand(index) => Projection.Leave(p, index, NOTHING).0
    case _ => p
  }

  function AllUnheard(p: Projector, causes: seq<Cause>): Projector
    decreases |causes|
  {
    if causes == [] then p else AllUnheard(Unheard(p, causes[0]), causes[1..])
  }

  /** The index is given up or goes to another channel. */
  predicate Vacates(c: Cause, index: nat) {
    c == LeaveCommand(index) || (c.Chat? && c.event.ChannelJoined? && c.event.index == index)
  }

  /** While sharing is off a mirror outlasts everything but a join or a leave command on its index: newcomers,
      departures, snapshots and removals pass it by. */
  lemma {:induction false} OffKeepsMirrors(p: Projector, causes: seq<Cause>, i: nat)
    requires Sound(p)
    ensures
      var q := AllUnheard(p, causes);
      && (i in q.rosterSent <==> i in p.rosterSent && forall c :: c in causes ==> !Vacates(c, i))
      && (i in q.rosterSent ==>
            && i in p.channels && i in q.channels && q.channels[i] == p.channels[i]
            && i in p.rosterState && i in q.rosterState && q.rosterState[i] == p.rosterState[i])
    decreases |causes|
  {
    hide Unheard, Vacates;
    if causes != [] {
      UnheardStep(p, causes[0], i);
      OffKeepsMirrors(Unheard(p, causes[0]), causes[1..], i);
      assert forall c :: c in causes <==> c == causes[0] || c in causes[1..];
    }
  }

  lemma UnheardIs(p: Projector, c: Cause)
    ensures
      var q := Unheard(p, c);
      match c
      case LeaveCommand(index) => q == Projection.Forget(p, index)
      case Chat(ChannelJoined(index, channel, localHandle)) => q == Entered(p, index, channel, localHandle)
      case _ =>
        && q.channels == p.channels && q.rosterSent == p.rosterSent && q.rosterState == p.rosterState
        && q.rosterOrder == p.rosterOrder
  {
  }

  lemma UnheardStep(p: Projector, c: Cause, i: nat)
    requires Sound(p)
    ensures
      var q := Unheard(p, c);
      && Sound(q) && (OrdersKept(p) ==> OrdersKept(q))
      && (i in q.rosterSent <==> i in p.rosterSent && !Vacates(c, i))
      && (i in q.rosterSent ==>
            && i in q.channels && q.channels[i] == p.channels[i]
            && i in q.rosterState && q.rosterState[i] == p.rosterState[i])
  {
    hide CarriesOrders, Unheard;
    UnheardIs(p, c);
  }

  lemma {:induction false} OffKeepsSound(p: Projector, causes: seq<Cause>)
    requires Sound(p) && OrdersKept(p)
    ensures Sound(AllUnheard(p, causes)) && OrdersKept(AllUnheard(p, causes))
    decreases |causes|
  {
    hide Unheard, Sound, OrdersKept;
    if causes != [] {
      UnheardStep(p, causes[0], 0);
      OffKeepsSound(Unheard(p, causes[0]), causes[1..]);
    }
  }

  /** What the keepalive tick sends when sharing is on again. */
  function SwitchedOn(q: Projector): seq<EventKind> { [SessionStarted] + Reconcile(q) }

  /** The tick that finds sharing on again makes the feed follow the mirrors, whatever it held before, if and only
      if no channel has two indices and, when there is nothing to reconcile, every channel still open is one the
      client is in. */
  lemma SwitchedOnFollowsIff(q: Projector, t: Tables, n: nat, events: seq<Event>, m: nat, receivedAt: nat,
                             shown: set<string>)
    requires Sound(q) && OrdersKept(q) && Older(t, n) && t.session.Some? && Carries(events, SwitchedOn(q), n, m)
    requires forall k :: Open(t, k) <==> k in shown
    ensures
      var after := if q.rosterSent == {} then shown else SentKeys(q);
      Following(q, after, ApplyAll(t, events, receivedAt), m)
      <==> OneIndexEach(q) && (q.rosterSent == {} ==> forall k :: k in shown ==> Known(q, k))
  {
    hide OrdersKept, Sound, ApplyAll, Apply, Carries, ReconciliationEvents, Block, ShowsChannel, Older, Known;
    CarriesParts(events, [SessionStarted], Reconcile(q), n, m);
    var first, rest := events[..1], events[1..];
    var k := NumberAfter(first, n);
    var e := CarriesOne(t, first, SessionStarted, n, k, receivedAt);
    StartIsReady(t, e, receivedAt, n, k);
    var u := Apply(t, e, receivedAt);
    ApplyAllAppend(t, first, rest, receivedAt);
    assert first + rest == events;
    NothingToReconcile(q);
    if q.rosterSent == {} {
      CarriesNone(u, rest, k, m, receivedAt);
      CarriesUpTo(rest, [], k, m);
      OlderStill(u, k, m);
    } else if OneIndexEach(q) {
      BlockFollows(q, u, k, rest, m, receivedAt);
    }
  }

  lemma StartIsReady(t: Tables, e: Event, receivedAt: nat, n: nat, m: nat)
    requires t.session.Some? && e.kind.SessionStarted? && Older(t, n) && n <= m
    ensures
      var u := Apply(t, e, receivedAt);
      Ready(u, m) && u.channels == t.channels && u.roster == t.roster
  {
    OlderStill(t, n, m);
    OlderSame(t, Apply(t, e, receivedAt), m);
  }

  /** Whoever was shown when sharing went off is shown again when it comes on, departed or not: the tick sends the
      mirrors as they were, and it takes a roster of the channel to put them right. */
  lemma MissedDepartureStays(p: Projector, causes: seq<Cause>, t: Tables, n: nat, events: seq<Event>, m: nat,
                             receivedAt: nat, i: nat)
    requires Sound(p) && OrdersKept(p) && Older(t, n) && t.session.Some?
    requires i in p.rosterSent && forall c :: c in causes ==> !Vacates(c, i)
    requires OneIndexEach(AllUnheard(p, causes)) && Carries(events, SwitchedOn(AllUnheard(p, causes)), n, m)
    ensures i in p.channels && i in p.rosterState
    ensures
      var key := Identity(p.channels[i]);
      var r := ApplyAll(t, events, receivedAt);
      Open(r, key) && Depicted(MembersOf(r, key), p.rosterState[i])
  {
    hide OrdersKept, Sound, ApplyAll, Carries, SwitchedOn, Older, Identity, Following, Depicted, Vacates, OneIndexEach;
    var q := AllUnheard(p, causes);
    OffKeepsMirrors(p, causes, i);
    OffKeepsSound(p, causes);
    var shown := OpenKeys(t);
    SwitchedOnFollowsIff(q, t, n, events, m, receivedAt, shown);
    SentShows(q, SentKeys(q), ApplyAll(t, events, receivedAt), m, i);
  }

  function OpenKeys(t: Tables): set<string> { set k | k in t.channels && Open(t, k) }

  // ---- from the start ----

  lemma CausedKeepsOrders(p: Projector, c: Cause)
    requires Sound(p) && OrdersKept(p)
    ensures Sound(Caused(p, c).0) && OrdersKept(Caused(p, c).0)
  {
    hide Sound, OrdersKept, Project, CarriesOrders, MirrorOf, WithOrder, Handles;
    CausedKeepsSound(p, c);
    match c
    case Resync(rosters) => RefreshedKeeps(p, rosters);
    case LeaveCommand(index) => VacatedOrders(p, index);
    case Beat =>
    case Chat(ChannelJoined(index, channel, localHandle)) => EnteredOrders(p, index, channel, localHandle);
    case Chat(UserJoined(index, user)) =>
      ArrivedOrders(p, index, user);
      ArrivalIs(p, index, user);
    case Chat(UserLeft(index, user)) => OrdersAfterDeparture(p, index, user);
    case Chat(Removed(index)) =>
      VacatedOrders(p, index);
      GoneIs(p, index, c);
    case Chat(RosterSnapshot(index, complete, users)) =>
      SnapshotIs(p, index, complete, users);
      OrdersAfterSnapshot(p, index, users);
    case Chat(_) => PassingKeeps(p, c);
  }

  lemma VacatedOrders(p: Projector, index: nat)
    requires OrdersKept(p)
    ensures OrdersKept(Projection.Forget(p, index))
  {
    hide CarriesOrders;
  }

  lemma EnteredOrders(p: Projector, index: nat, channel: ChatChannel, localHandle: nat)
    requires OrdersKept(p)
    ensures
      var q := Entered(p, index, channel, localHandle);
      OrdersKept(q) && Caused(p, Chat(ChannelJoined(index, channel, localHandle))).0 == q
  {
    hide CarriesOrders;
  }

  lemma NewIsSound(clubNames: map<nat, string>)
    ensures Sound(NEW.(clubNames := clubNames)) && OrdersKept(NEW.(clubNames := clubNames))
  {
  }
}
