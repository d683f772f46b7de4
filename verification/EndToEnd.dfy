/** From the chat session to the stored feed: what the tap sees, through the channel, the batcher, retried and
    repeated requests, to the tables a reader queries (app/src/uplink/, live/worker/store.ts). */
module EndToEnd {
  import opened Common
  import opened Wire
  import opened Store
  import opened StoreProperties
  import opened Issued
  import opened Pipeline
  import opened ExactlyOnce
  import opened Standing
  import PipelineSafety
  import Projection
  import LiveMirror
  import LiveRuns
  import LiveTap
  import SnapshotDiff
  import ScrRuns
  import LiveSync

  /** Nothing was given up, one feed was used, and everything buffered has been delivered. */
  ghost predicate Delivered(s: System, actions: seq<Action>, t: System, feed: nat, arrivals: seq<Arrival>) {
    && Initial(s) && Runs(s, actions, t) && ArrivesIn(s, actions, feed, arrivals)
    && t.discarded == {} && OnlyFeed(t, feed) && Buffered(t) == []
  }

  lemma DeliveredLog(s: System, actions: seq<Action>, t: System, feed: nat, arrivals: seq<Arrival>)
    requires Delivered(s, actions, t, feed, arrivals)
    ensures LogOf(t, feed).applied == t.pushed && Increasing(t.pushed)
  {
    hide Runs, ArrivesIn, OnlyFeed;
    PipelineSafety.AppliedAtMostOnce(s, actions, t);
    PipelineSafety.LosslessRunAppliesEverything(s, actions, t, feed);
  }

  lemma CarriesFrom(whole: seq<Event>, k: nat, kinds: seq<EventKind>)
    requires Increasing(whole) && k < |whole| && Kinds(whole[k..], kinds)
    ensures Carries(whole[k..], kinds, whole[k].number, whole[|whole| - 1].number + 1)
  {
    WithinSlice(whole, k, |whole|, whole[k].number, whole[|whole| - 1].number + 1);
    assert whole[k..|whole|] == whole[k..];
  }

  lemma PlainKinds(whole: seq<Event>, k: nat, kinds: seq<EventKind>, synced: bool)
    requires k <= |whole| && Kinds(whole[k..], kinds)
    requires forall i :: 0 <= i < |kinds| ==> if synced then !kinds[i].SessionEnded? else !kinds[i].SessionSynced?
    ensures PlainFrom(whole, k, synced)
  {
    forall i | k <= i < |whole| ensures Plain(whole[i], synced) { assert whole[i] == whole[k..][i - k]; }
  }

  // ---- StarCraft II ----

  lemma RowsAlike(a: Tables, b: Tables, synced: bool, n: int)
    requires Alike(a, b, synced)
    ensures a.session.Some? && b.session.Some?
    ensures (forall k :: Open(a, k) <==> Open(b, k)) && (forall k :: MembersOf(a, k) == MembersOf(b, k))
    ensures Older(b, n) ==> Older(a, n)
    ensures synced ==> SameSync(a.session.value, b.session.value)
  {
  }

  lemma FollowingAlike(p: Projection.Projector, shown: set<string>, a: Tables, b: Tables, n: nat)
    requires Alike(a, b, true) && LiveMirror.Following(p, shown, b, n)
    ensures LiveMirror.Following(p, shown, a, n)
  {
    hide Alike, Older, Projection.Sound, LiveMirror.OneIndexEach, LiveMirror.OrdersKept, LiveMirror.Known,
      LiveMirror.Depicted, Open, MembersOf, Projection.Identity;
    RowsAlike(a, b, true, n);
    forall i | i in p.rosterSent ensures LiveMirror.ShowsChannel(a, p, i) { assert LiveMirror.ShowsChannel(b, p, i); }
  }

  /** Sharing comes on, `early` events go out before the picture is complete, then a reconcile, then the causes. */
  function LiveKinds(early: seq<EventKind>, p: Projection.Projector, causes: seq<LiveMirror.Cause>): seq<EventKind> {
    ([SessionStarted] + early) + (LiveMirror.Block(p) + LiveRuns.AllEmitted(p, causes))
  }

  lemma EmittedGoesOn(p: Projection.Projector, c: LiveMirror.Cause)
    ensures forall kind :: kind in LiveMirror.Emitted(p, c) ==> !kind.SessionEnded?
  {
    hide LiveMirror.Caused, Projection.Reference, Projection.Values, Projection.Sent;
    CausedGoesOn(p, c);
    BlockGoesOn(LiveMirror.Caused(p, c).0);
  }

  lemma BlockGoesOn(p: Projection.Projector)
    ensures forall kind :: kind in LiveMirror.Block(p) ==> !kind.SessionEnded?
  {
    hide Projection.Reference, Projection.Values, Projection.Sent;
  }

  lemma CausedGoesOn(p: Projection.Projector, c: LiveMirror.Cause)
    ensures LiveMirror.Caused(p, c).1.Some? ==> !LiveMirror.Caused(p, c).1.value.SessionEnded?
  {
    hide LiveMirror.Refreshed, Projection.Reference, Projection.UserReference, Projection.Values, Projection.MirrorOf,
      Projection.WithOrder, Projection.Forget;
  }

  lemma {:induction false} AllGoOn(p: Projection.Projector, causes: seq<LiveMirror.Cause>)
    ensures forall kind :: kind in LiveRuns.AllEmitted(p, causes) ==> !kind.SessionEnded?
    decreases |causes|
  {
    hide LiveMirror.Emitted, LiveMirror.Caused;
    if causes != [] {
      EmittedGoesOn(p, causes[0]);
      AllGoOn(LiveMirror.Caused(p, causes[0]).0, causes[1..]);
    }
  }

  lemma LiveKindsGoOn(early: seq<EventKind>, p: Projection.Projector, causes: seq<LiveMirror.Cause>)
    requires forall kind :: kind in early ==> !kind.SessionEnded?
    ensures
      var kinds := LiveKinds(early, p, causes);
      kinds != [] && forall i :: 0 <= i < |kinds| ==> !kinds[i].SessionEnded?
  {
    hide LiveRuns.AllEmitted;
    AllGoOn(p, causes);
    var kinds := LiveKinds(early, p, causes);
    forall i | 0 <= i < |kinds| ensures !kinds[i].SessionEnded? { assert kinds[i] in kinds; }
  }

  /** The session is live and its rows are old, once it has started. */
  lemma {:induction false} StartedIsReady(u: Tables, events: seq<Event>, early: seq<EventKind>, n: nat, m: nat)
    requires u.session.Some? && Older(u, n) && Carries(events, [SessionStarted] + early, n, m)
    ensures LiveMirror.Ready(ApplyAll(u, events, 0), m)
  {
    hide Older, Carries, ApplyAll, Apply;
    CarriesParts(events, [SessionStarted], early, n, m);
    var first, rest := events[..1], events[1..];
    var k := NumberAfter(first, n);
    var e := CarriesOne(u, first, SessionStarted, n, k, 0);
    LiveRuns.StartIsReady(u, e, 0, n, k);
    ApplyAllAppend(u, first, rest, 0);
    assert first + rest == events;
    EarlyIsReady(Apply(u, e, 0), rest, early, k, m);
  }

  lemma EarlyIsReady(t: Tables, events: seq<Event>, early: seq<EventKind>, n: nat, m: nat)
    requires LiveMirror.Ready(t, n) && Carries(events, early, n, m)
    ensures LiveMirror.Ready(ApplyAll(t, events, 0), m)
  {
    hide Older, ApplyAll, Kinds, Increasing;
    OlderStill(t, n, m);
    ApplyAllOlder(t, events, 0, m);
    SyncSeqBelow(t, events, 0, m);
    LiveSync.LiveAfter(t, events, 0);
  }

  /** The feed holds what its log says: anything at all, then a start of the session, a reconcile and what
      harmless causes emit. */
  lemma StoredFeedFollowsClient(s: System, actions: seq<Action>, t: System, feed: nat, arrivals: seq<Arrival>, k: nat,
                                early: seq<EventKind>, p: Projection.Projector, causes: seq<LiveMirror.Cause>)
    requires Delivered(s, actions, t, feed, arrivals)
    requires k < |t.pushed| && Kinds(t.pushed[k..], LiveKinds(early, p, causes))
    requires forall kind :: kind in early ==> !kind.SessionEnded?
    requires Projection.Sound(p) && LiveMirror.OneIndexEach(p) && LiveMirror.OrdersKept(p)
    requires LiveRuns.AllHarmless(p, LiveMirror.SentKeys(p), causes)
    ensures
      var stored := Received(EMPTY, arrivals);
      var shown := LiveRuns.AllShown(p, LiveMirror.SentKeys(p), causes);
      LiveMirror.Following(LiveRuns.AllCaused(p, causes), shown, stored, t.pushed[|t.pushed| - 1].number + 1)
  {
    hide Delivered, PlainFrom, Alike, Coherent, LiveMirror.Following, Received, ApplyAll, Carries, Kinds, Older,
      LiveRuns.AllHarmless, LiveMirror.Block, Projection.Sound, LiveMirror.OneIndexEach,
          LiveMirror.OrdersKept,
      LiveRuns.AllCaused, LiveRuns.AllShown, LiveRuns.AllEmitted, LiveMirror.Ready, LiveMirror.SentKeys;
    DeliveredLog(s, actions, t, feed, arrivals);
    var kinds := LiveKinds(early, p, causes);
    LiveKindsGoOn(early, p, causes);
    PlainKinds(t.pushed, k, kinds, true);
    var base := RowsOfTheRun(s, actions, t, feed, arrivals, k, true);
    CarriesFrom(t.pushed, k, kinds);
    PlayedFollows(base, t.pushed[k..], early, p, causes, t.pushed[k].number, t.pushed[|t.pushed| - 1].number + 1);
    FollowingAlike(LiveRuns.AllCaused(p, causes), LiveRuns.AllShown(p, LiveMirror.SentKeys(p), causes),
                   Received(EMPTY, arrivals), ApplyAll(base, t.pushed[k..], 0), t.pushed[|t.pushed| - 1].number + 1);
  }

  lemma RowsOfTheRun(s: System, actions: seq<Action>, t: System, feed: nat, arrivals: seq<Arrival>, k: nat,
                     synced: bool)
    returns (base: Tables)
    requires Delivered(s, actions, t, feed, arrivals) && k < |t.pushed| && PlainFrom(t.pushed, k, synced)
    ensures Base(base, t.pushed, k) && Alike(Received(EMPTY, arrivals), ApplyAll(base, t.pushed[k..], 0), synced)
  {
    hide Runs, ArrivesIn, OnlyFeed, Received, Alike, PlainFrom, Base, Coherent;
    DeliveredLog(s, actions, t, feed, arrivals);
    base := RowsAreOfTheLog(s, actions, t, feed, arrivals, k, synced);
  }

  lemma PlayedFollows(u: Tables, events: seq<Event>, early: seq<EventKind>, p: Projection.Projector,
                      causes: seq<LiveMirror.Cause>, n: nat, m: nat)
    requires u.session.Some? && Older(u, n) && Carries(events, LiveKinds(early, p, causes), n, m)
    requires Projection.Sound(p) && LiveMirror.OneIndexEach(p) && LiveMirror.OrdersKept(p)
    requires LiveRuns.AllHarmless(p, LiveMirror.SentKeys(p), causes)
    ensures
      var shown := LiveRuns.AllShown(p, LiveMirror.SentKeys(p), causes);
      LiveMirror.Following(LiveRuns.AllCaused(p, causes), shown, ApplyAll(u, events, 0), m)
  {
    hide LiveMirror.Following, ApplyAll, Carries, Older, LiveRuns.AllHarmless, LiveMirror.Block, Projection.Sound,
      LiveMirror.OneIndexEach, LiveMirror.OrdersKept, LiveRuns.AllCaused, LiveRuns.AllShown, LiveRuns.AllEmitted,
      LiveMirror.Ready, LiveMirror.SentKeys;
    var a, b, c := [SessionStarted] + early, LiveMirror.Block(p), LiveRuns.AllEmitted(p, causes);
    CarriesParts(events, a, b + c, n, m);
    var first, rest := events[..|a|], events[|a|..];
    var i := NumberAfter(first, n);
    CarriesParts(rest, b, c, i, m);
    var block, last := rest[..|b|], rest[|b|..];
    var j := NumberAfter(block, i);
    StartedIsReady(u, first, early, n, i);
    var started := ApplyAll(u, first, 0);
    LiveMirror.BlockFollows(p, started, i, block, j, 0);
    LiveRuns.FeedFollowsClient(p, LiveMirror.SentKeys(p), ApplyAll(started, block, 0), j, causes, last, m, 0);
    ApplyAllAppend(u, first, rest, 0);
    ApplyAllAppend(started, block, last, 0);
    assert first + rest == events && block + last == rest;
  }

  /** What a tap has sent when it has just reconciled, and sends from then on. */
  function TapKinds(begun: (LiveTap.Tap, seq<EventKind>), before: seq<LiveTap.Call>,
                    after: seq<LiveTap.Call>): seq<EventKind> {
    begun.1 + LiveTap.AllSent(begun.0, before + after)
  }

  /** End to end, from the chat session to the stored feed. A session begins, and whatever it sees and however
      sharing is switched, at some point it is on and the tap reconciles; from there sharing stays on and the causes
      are harmless. Then whatever was repeated, retried or re-cut on the way, a feed that was delivered everything
      has exactly the channels open that were shown and not left, and for every roster sent exactly the members the
      client has now. */
  lemma StoredFeedFollowsTap(s: System, actions: seq<Action>, t: System, feed: nat, arrivals: seq<Arrival>,
                             clubNames: map<nat, string>, expected: set<string>, enabled: bool,
                             before: seq<LiveTap.Call>, after: seq<LiveTap.Call>, front: seq<EventKind>)
    requires Delivered(s, actions, t, feed, arrivals) && t.pushed != []
    requires Kinds(t.pushed, TapKinds(LiveTap.Begun(clubNames, expected, enabled), before, after))
    requires
      var begun := LiveTap.Begun(clubNames, expected, enabled);
      var x := LiveTap.AllMoved(begun.0, before);
      && LiveTap.Steady(x) && begun.1 + LiveTap.AllSent(begun.0, before) == front + LiveMirror.Block(x.projector)
      && LiveMirror.OneIndexEach(x.projector)
      && LiveRuns.AllHarmless(x.projector, LiveMirror.SentKeys(x.projector), LiveTap.AllHeard(after))
    requires forall c :: c in after ==> LiveTap.Ongoing(c)
    ensures
      var begun := LiveTap.Begun(clubNames, expected, enabled);
      var x, causes := LiveTap.AllMoved(begun.0, before), LiveTap.AllHeard(after);
      var shown := LiveRuns.AllShown(x.projector, LiveMirror.SentKeys(x.projector), causes);
      LiveMirror.Following(LiveTap.AllMoved(begun.0, before + after).projector, shown, Received(EMPTY, arrivals),
                           t.pushed[|t.pushed| - 1].number + 1)
  {
    hide Delivered, LiveMirror.Following, Received, Kinds, LiveRuns.AllHarmless, LiveMirror.Block, Projection.Sound,
      LiveMirror.OneIndexEach, LiveMirror.OrdersKept, LiveRuns.AllCaused, LiveRuns.AllShown, LiveRuns.AllEmitted,
      LiveMirror.SentKeys, LiveTap.AllSent, LiveTap.AllMoved, LiveTap.AllHeard, LiveTap.Begun, LiveTap.Tells;
    var begun := LiveTap.Begun(clubNames, expected, enabled);
    var x, causes := LiveTap.AllMoved(begun.0, before), LiveTap.AllHeard(after);
    LiveTap.BegunTells(clubNames, expected, enabled);
    LiveTap.RunKeeps(begun.0, before);
    LiveTap.RunTells(begun.0, begun.1, before);
    LiveTap.RunsInTurn(begun.0, before, after);
    LiveTap.SteadyRun(x, after);
    var k, early := StartOf(x, front);
    var kinds := LiveKinds(early, x.projector, causes);
    TapKindsFrom(TapKinds(begun, before, after), front, LiveMirror.Block(x.projector),
                 LiveRuns.AllEmitted(x.projector, causes), k, early);
    KindsFrom(t.pushed, TapKinds(begun, before, after), k);
    StoredFeedFollowsClient(s, actions, t, feed, arrivals, k, early, x.projector, causes);
  }

  /** Where the session that is live now was started. */
  lemma StartOf(x: LiveTap.Tap, front: seq<EventKind>) returns (k: nat, early: seq<EventKind>)
    requires LiveTap.Steady(x) && LiveTap.Tells(x, front + LiveMirror.Block(x.projector))
    ensures k < |front| && front[k].SessionStarted? && early == front[k + 1..]
    ensures forall kind :: kind in early ==> !kind.SessionEnded?
  {
    hide LiveMirror.Block;
    var block := LiveMirror.Block(x.projector);
    BlockNeverStarts(x.projector);
    var i :| LiveTap.LiveFrom(front + block, i);
    k, early := i, front[i + 1..];
    forall kind | kind in early ensures !kind.SessionEnded? {
      var j :| 0 <= j < |early| && early[j] == kind;
      assert (front + block)[i + 1 + j] == kind;
    }
  }

  lemma BlockNeverStarts(p: Projection.Projector)
    ensures forall i :: 0 <= i < |LiveMirror.Block(p)| ==> !LiveMirror.Block(p)[i].SessionStarted?
  {
    hide Projection.Reference, Projection.Values, Projection.Sent;
  }

  lemma TapKindsFrom(whole: seq<EventKind>, front: seq<EventKind>, block: seq<EventKind>, rest: seq<EventKind>, k: nat,
                     early: seq<EventKind>)
    requires whole == front + block + rest && k < |front| && front[k].SessionStarted? && early == front[k + 1..]
    ensures k < |whole| && whole[k..] == ([SessionStarted] + early) + (block + rest)
  {
    assert front[k..] == [SessionStarted] + early;
    assert whole[k..] == front[k..] + (block + rest);
  }

  lemma KindsFrom(events: seq<Event>, kinds: seq<EventKind>, k: nat)
    requires Kinds(events, kinds) && k < |kinds|
    ensures k < |events| && Kinds(events[k..], kinds[k..])
  {
  }

  // ---- classic products ----

  lemma InStepAlike(p: SnapshotDiff.Scr, shown: bool, a: Tables, b: Tables, memory: SnapshotDiff.Memory, n: nat)
    requires Alike(a, b, false) && SnapshotDiff.InStep(p, shown, b, memory, n)
    ensures SnapshotDiff.InStep(p, shown, a, memory, n)
  {
    hide Alike, Older, SnapshotDiff.Keyed, SnapshotDiff.Shows, Open, MembersOf;
    RowsAlike(a, b, false, n);
  }

  lemma MovedNeverSyncs(x: ScrRuns.Tap, c: ScrRuns.Cause)
    ensures forall kind :: kind in ScrRuns.Moved(x, c).1 ==> !kind.SessionSynced?
  {
    hide SnapshotDiff.SnapshotOf, SnapshotDiff.AfterSnapshot, Projection.Values, Projection.Changed;
  }

  lemma {:induction false} AllNeverSync(x: ScrRuns.Course, causes: seq<ScrRuns.Cause>)
    ensures forall kind :: kind in ScrRuns.AllSent(x, causes) ==> !kind.SessionSynced?
    decreases |causes|
  {
    hide ScrRuns.Moved, ScrRuns.Onward;
    if causes != [] {
      MovedNeverSyncs(x.tap, causes[0]);
      AllNeverSync(ScrRuns.Onward(x, causes[0]), causes[1..]);
    }
  }

  /** A classic session before anything happened. */
  function Beginning(who: SnapshotDiff.Account, enabled: bool): ScrRuns.Course {
    ScrRuns.Course(ScrRuns.Tap(who, SnapshotDiff.FRESH, enabled, false, false), false, map[], None)
  }

  /** End to end: a feed that was delivered everything a classic session sent, sharing switched as often as it may
      be, has no channel open but the one last seen while sharing was on, and a row for each of its users that shows
      them as they were last described. */
  lemma StoredFeedHoldsLastChannel(s: System, actions: seq<Action>, t: System, feed: nat, arrivals: seq<Arrival>,
                                   who: SnapshotDiff.Account, enabled: bool, causes: seq<ScrRuns.Cause>)
    requires Delivered(s, actions, t, feed, arrivals) && t.pushed != []
    requires Kinds(t.pushed, ScrRuns.AllSent(Beginning(who, enabled), causes))
    requires ScrRuns.AllKept(Beginning(who, enabled), causes)
    ensures
      var stored, x := Received(EMPTY, arrivals), ScrRuns.AllMoved(Beginning(who, enabled), causes);
      && ScrRuns.Held(x, stored, t.pushed[|t.pushed| - 1].number + 1) && ScrRuns.HoldsLast(x)
      && (x.last.Some? ==>
            && x.tap.projector.channel.Some?
            && var key := x.tap.projector.channel.value.1;
               && (forall k :: Open(stored, k) <==> k == key)
               && (forall u :: u in x.last.value.users ==> who.handleOf(u.name) in MembersOf(stored, key)))
  {
    hide Delivered, PlainFrom, Alike, Coherent, SnapshotDiff.InStep, Received, ApplyAll, Carries, Kinds, Older,
      ScrRuns.AllKept, ScrRuns.AllMoved, ScrRuns.AllSent;
    var x0 := Beginning(who, enabled);
    var x := ScrRuns.AllMoved(x0, causes);
    var kinds := ScrRuns.AllSent(x0, causes);
    DeliveredLog(s, actions, t, feed, arrivals);
    AllNeverSync(x0, causes);
    assert t.pushed[0..] == t.pushed;
    ScrKindsPlain(t.pushed, kinds);
    var base := RowsOfTheRun(s, actions, t, feed, arrivals, 0, false);
    CarriesFrom(t.pushed, 0, kinds);
    var n, m := t.pushed[0].number, t.pushed[|t.pushed| - 1].number + 1;
    BlankInStep(who, enabled, base, n);
    ScrRuns.ServerFollowsIff(x0, base, n, causes, t.pushed, m, 0);
    var stored := Received(EMPTY, arrivals);
    InStepAlike(x.tap.projector, x.shown, stored, ApplyAll(base, t.pushed, 0), x.memory, m);
    ScrRuns.RunHoldsLast(x0, causes);
    if x.last.Some? { HeldShows(x, stored, m); }
  }

  lemma ScrKindsPlain(whole: seq<Event>, kinds: seq<EventKind>)
    requires Kinds(whole, kinds) && forall kind :: kind in kinds ==> !kind.SessionSynced?
    ensures PlainFrom(whole, 0, false)
  {
    assert whole[0..] == whole;
    forall i | 0 <= i < |kinds| ensures !kinds[i].SessionSynced? { assert kinds[i] in kinds; }
    PlainKinds(whole, 0, kinds, false);
  }

  lemma BlankInStep(who: SnapshotDiff.Account, enabled: bool, base: Tables, n: nat)
    requires base.session.Some? && base.channels == map[] && base.roster == map[]
    ensures ScrRuns.Held(Beginning(who, enabled), base, n) && ScrRuns.HoldsLast(Beginning(who, enabled))
  {
  }

  lemma HeldShows(x: ScrRuns.Course, t: Tables, m: nat)
    requires ScrRuns.Held(x, t, m) && ScrRuns.HoldsLast(x) && x.last.Some?
    ensures x.tap.projector.channel.Some?
    ensures
      var key := x.tap.projector.channel.value.1;
      && (forall k :: Open(t, k) <==> k == key)
      && (forall u :: u in x.last.value.users ==> x.tap.who.handleOf(u.name) in MembersOf(t, key))
  {
    hide Older, SnapshotDiff.Depicts, Open, MembersOf, SnapshotDiff.ByHandle;
    ScrRuns.EveryoneIsListed(x.tap.who, x.last.value.users);
  }
}
