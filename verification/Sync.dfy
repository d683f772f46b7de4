/** A sync block (`sync_started`, one complete roster a channel, `session_synced`) and the tables it leaves
    (live/worker/store.ts, app/src/uplink/mod.rs `reconcile`). */
module Sync {
  import opened Common
  import opened Wire
  import opened Store
  import opened StoreProperties

  /** One channel of a sync: its reference and the members listed for it. */
  datatype Listing = Listing(channel: ChannelRef, users: seq<UserRef>)

  ghost predicate Rosters(events: seq<Event>, listings: seq<Listing>) {
    && |events| == |listings|
    && forall i :: 0 <= i < |events| ==> events[i].kind == Roster(listings[i].channel, true, listings[i].users)
  }

  ghost predicate IsSync(events: seq<Event>, listings: seq<Listing>) {
    && |events| == |listings| + 2
    && Increasing(events)
    && events[0].kind.SyncStarted?
    && Rosters(events[1..|events| - 1], listings)
    && events[|events| - 1].kind.SessionSynced?
  }

  ghost predicate Distinct(listings: seq<Listing>) {
    && (forall i, j :: 0 <= i < j < |listings| ==> listings[i].channel.key != listings[j].channel.key)
    && (forall i :: 0 <= i < |listings| ==> DistinctHandles(listings[i].users))
  }

  ghost predicate Mentions(listings: seq<Listing>, key: string) {
    exists i :: 0 <= i < |listings| && listings[i].channel.key == key
  }

  /** The stored members are exactly the users listed, each as the event gave it. */
  ghost predicate Holds(members: Members, users: seq<UserRef>, number: nat, ts: nat) {
    && (forall h :: h in members <==> Has(users, h))
    && (forall i :: 0 <= i < |users| ==>
        && users[i].handle in members
        && members[users[i].handle] == RowOf(users[i], number, ts))
  }

  lemma RosterReplaces(t: Tables, e: Event, listing: Listing, receivedAt: nat)
    requires t.session.Some? && e.kind == Roster(listing.channel, true, listing.users) && DistinctHandles(listing.users)
    ensures
      var r := Apply(t, e, receivedAt);
      && r.session == t.session
      && r.channels == ChannelTouch(t, listing.channel, e).channels
      && Holds(MembersOf(r, listing.channel.key), listing.users, e.number, e.ts)
      && (forall k :: k != listing.channel.key ==> MembersOf(r, k) == MembersOf(t, k))
  {
    hide RowOf, ChannelTouch, UpsertAll;
    var none: Members := map[];
    var members := UpsertAll(none, listing.users, e.number, e.ts);
    UpsertAllRows(none, listing.users, e.number, e.ts);
    TouchOpens(t, listing.channel, e);
    UpsertNone(none, e.number, e.ts);
    var r := Apply(t, e, receivedAt);
    assert MembersOf(r, listing.channel.key) == members;
  }

  /** What the rosters of a sync have done so far. */
  ghost predicate Listed(t: Tables, r: Tables, events: seq<Event>, listings: seq<Listing>, first: nat)
    requires |events| == |listings|
  {
    && r.session == t.session
    && (forall k :: Mentions(listings, k) ==> Open(r, k) && r.channels[k].lastSeq >= first)
    && (forall k :: !Mentions(listings, k) ==>
          (k in r.channels <==> k in t.channels)
          && (k in t.channels ==> r.channels[k] == t.channels[k]) && MembersOf(r, k) == MembersOf(t, k))
    && (forall i :: 0 <= i < |events| ==>
          Holds(MembersOf(r, listings[i].channel.key), listings[i].users, events[i].number, events[i].ts))
  }

  lemma {:induction false} RostersAreListed(t: Tables, events: seq<Event>, listings: seq<Listing>, receivedAt: nat,
                                            first: nat)
    requires t.session.Some? && Rosters(events, listings) && Distinct(listings)
    requires forall e :: e in events ==> e.number >= first
    ensures Listed(t, ApplyAll(t, events, receivedAt), events, listings, first)
    decreases |events|
  {
    if events != [] {
      var n := |events| - 1;
      var before := ApplyAll(t, events[..n], receivedAt);
      assert events[..n] + [events[n]] == events;
      ApplyAllAppend(t, events[..n], [events[n]], receivedAt);
      assert ApplyAll(before, [events[n]], receivedAt) == Apply(before, events[n], receivedAt);
      RostersAreListed(t, events[..n], listings[..n], receivedAt, first);
      RosterReplaces(before, events[n], listings[n], receivedAt);
      ListedStep(t, before, Apply(before, events[n], receivedAt), events, listings, first);
    }
  }

  lemma ListedStep(t: Tables, before: Tables, after: Tables, events: seq<Event>, listings: seq<Listing>, first: nat)
    requires |events| == |listings| > 0 && Distinct(listings) && events[|events| - 1].number >= first
    requires Listed(t, before, events[..|events| - 1], listings[..|events| - 1], first)
    requires
      var e, listing := events[|events| - 1], listings[|events| - 1];
      && after.session == before.session
      && after.channels == ChannelTouch(before, listing.channel, e).channels
      && Holds(MembersOf(after, listing.channel.key), listing.users, e.number, e.ts)
      && (forall k :: k != listing.channel.key ==> MembersOf(after, k) == MembersOf(before, k))
    ensures Listed(t, after, events, listings, first)
  {
    hide Holds, Mentions;
    var n := |events| - 1;
    var key := listings[n].channel.key;
    MentionsStep(listings);
    assert Open(after, key) && after.channels[key].lastSeq >= first;
    forall i | 0 <= i < n
      ensures Holds(MembersOf(after, listings[i].channel.key), listings[i].users, events[i].number, events[i].ts)
    {
      assert listings[..n][i] == listings[i] && events[..n][i] == events[i];
    }
  }

  lemma MentionsStep(listings: seq<Listing>)
    requires listings != []
    ensures
      var n := |listings| - 1;
      forall k :: Mentions(listings, k) <==> k == listings[n].channel.key || Mentions(listings[..n], k)
  {
  }

  /** The sync point in force when the block closes: the block's own number on a live session, whatever was
      stored before on one already marked ended. */
  function SyncPoint(t: Tables, first: Event): nat
    requires t.session.Some?
  {
    if t.session.value.endedAt.None? then first.number else t.session.value.syncSeq
  }

  /** A channel the sync does not mention that is nevertheless left open. */
  ghost predicate LeftBehind(t: Tables, listings: seq<Listing>, first: Event, key: string)
    requires t.session.Some?
  {
    Open(t, key) && !Mentions(listings, key) && t.channels[key].lastSeq >= SyncPoint(t, first)
  }

  /** After a sync block the open channels are those it lists, plus any the sync point does not reach; every
      listed channel holds exactly the members given for it. */
  lemma SyncApplied(t: Tables, events: seq<Event>, listings: seq<Listing>, receivedAt: nat)
    requires t.session.Some? && IsSync(events, listings) && Distinct(listings)
    requires t.session.value.syncSeq <= events[0].number
    ensures
      var r := ApplyAll(t, events, receivedAt);
      && (forall k :: Open(r, k) <==> Mentions(listings, k) || LeftBehind(t, listings, events[0], k))
      && (forall i :: 0 <= i < |listings| ==>
            Holds(MembersOf(r, listings[i].channel.key), listings[i].users, events[i + 1].number, events[i + 1].ts))
      && (t.session.value.endedAt.None? ==>
            r.session.value.syncedAt == Some(events[|events| - 1].ts) && r.session.value.syncSeq == events[0].number)
  {
    hide Holds, IsSync, Listed;
    var n := |listings|;
    var a, b, c := SyncParts(t, events, listings, receivedAt);
    assert forall k :: !Mentions(listings, k) ==> (Open(b, k) <==> Open(t, k)) by {
      ListedChannels(a, b, events[1..n + 1], listings, events[0].number);
    }
    forall k ensures Open(c, k) <==> Mentions(listings, k) || LeftBehind(t, listings, events[0], k) {
      ListedChannels(a, b, events[1..n + 1], listings, events[0].number);
    }
    forall i | 0 <= i < n
      ensures Holds(MembersOf(c, listings[i].channel.key), listings[i].users, events[i + 1].number, events[i + 1].ts)
    {
      ListedMembers(a, b, events[1..n + 1], listings, events[0].number, i);
      assert events[1..n + 1][i] == events[i + 1];
    }
  }

  lemma ListedChannels(t: Tables, r: Tables, events: seq<Event>, listings: seq<Listing>, first: nat)
    requires |events| == |listings| && Listed(t, r, events, listings, first)
    ensures r.session == t.session
    ensures forall k :: Mentions(listings, k) ==> Open(r, k) && r.channels[k].lastSeq >= first
    ensures forall k :: !Mentions(listings, k) ==>
        (k in r.channels <==> k in t.channels) && (k in t.channels ==> r.channels[k] == t.channels[k])
  {
  }

  lemma ListedMembers(t: Tables, r: Tables, events: seq<Event>, listings: seq<Listing>, first: nat, i: nat)
    requires |events| == |listings| && Listed(t, r, events, listings, first) && i < |events|
    ensures Holds(MembersOf(r, listings[i].channel.key), listings[i].users, events[i].number, events[i].ts)
  {
  }

  /** The three stages of a sync: the point is set, the rosters listed, the stale channels closed. */
  lemma SyncParts(t: Tables, events: seq<Event>, listings: seq<Listing>, receivedAt: nat)
      returns (a: Tables, b: Tables, c: Tables)
    requires t.session.Some? && IsSync(events, listings) && Distinct(listings)
    ensures |events| == |listings| + 2
    ensures c == ApplyAll(t, events, receivedAt)
    ensures a == (if t.session.value.endedAt.None?
                  then t.(session := Some(t.session.value.(syncSeq := events[0].number))) else t)
    ensures Listed(a, b, events[1..|listings| + 1], listings, events[0].number)
    ensures b.session == a.session && c.roster == b.roster && c.channels == CloseStale(b, receivedAt).channels
    ensures a.session.value.endedAt.None? ==>
        c.session
        == Some(b.session.value.(syncedAt := Some(events[|events| - 1].ts)))
  {
    hide Listed;
    var n := |listings|;
    var middle := events[1..n + 1];
    var last := events[n + 1];
    a := Apply(t, events[0], receivedAt);
    b := ApplyAll(a, middle, receivedAt);
    c := Apply(b, last, receivedAt);
    assert events == [events[0]] + (middle + [last]);
    assert events[1..] == middle + [last];
    ApplyAllAppend(a, middle, [last], receivedAt);
    assert ApplyAll(b, [last], receivedAt) == c;
    assert forall e :: e in middle ==> e.number >= events[0].number;
    RostersAreListed(a, middle, listings, receivedAt, events[0].number);
    ListedChannels(a, b, middle, listings, events[0].number);
  }

  /** Sync agreement: on a live session, whatever the tables held before, a sync leaves open exactly the
      channels it lists. */
  lemma SyncAgreesWhenLive(t: Tables, events: seq<Event>, listings: seq<Listing>, receivedAt: nat)
    requires t.session.Some? && t.session.value.endedAt.None? && IsSync(events, listings) && Distinct(listings)
    requires OldChannels(t, events[0].number) && t.session.value.syncSeq <= events[0].number
    ensures forall k :: Open(ApplyAll(t, events, receivedAt), k) <==> Mentions(listings, k)
  {
    hide IsSync, Mentions;
    SyncApplied(t, events, listings, receivedAt);
  }

  /** In general, live or not, it does so if and only if no unlisted open channel reaches the sync point. */
  lemma SyncAgreesIff(t: Tables, events: seq<Event>, listings: seq<Listing>, receivedAt: nat)
    requires t.session.Some? && IsSync(events, listings) && Distinct(listings)
        && t.session.value.syncSeq <= events[0].number
    ensures (forall k :: Open(ApplyAll(t, events, receivedAt), k) <==> Mentions(listings, k))
            <==> !exists k :: LeftBehind(t, listings, events[0], k)
  {
    hide IsSync;
    SyncApplied(t, events, listings, receivedAt);
  }

  // ---- a sync that does not take ----

  const STALE := "public:1"

  /** A live session, synced before, with one channel open. */
  function OpenChannel(): Tables {
    Tables(Some(SessionRow(Session("sc2", "", 0), 0, 4, None, Some(1), 2)),
           map[STALE := ChannelRow("", 1, 1, None, 3)], map[], map[], 0)
  }

  function EmptySync(): seq<Event> { [Event(5, 9, SyncStarted), Event(6, 9, SessionSynced)] }

  /** The block alone closes the channel it does not mention. Sent in one envelope with the end of the session it
      does not, for the session is marked ended before the block is applied. */
  lemma EndSwallowsSync()
    ensures
      var t := OpenChannel();
      && !Open(Stored(t, t.session.value.meta, EmptySync(), 10), STALE)
      && Open(Stored(t, t.session.value.meta, EmptySync() + [Event(7, 9, SessionEnded)], 10), STALE)
  {
    var t := OpenChannel();
    var a, b, c := Event(5, 9, SyncStarted), Event(6, 9, SessionSynced), Event(7, 9, SessionEnded);
    assert LastSeq(t) == 4;
    FreshOnes(a, b, c);
    var live := FeedUpkeep(SessionUpkeep(t, t.session.value.meta, b, 10), 10);
    InTurn(live, a, b, c, 10);
    assert Apply(live, a, 10).session.value.syncSeq == 5;
    var over := FeedUpkeep(SessionUpkeep(t, t.session.value.meta, c, 10), 10);
    assert over.session.value.endedAt.Some? && over.session.value.syncSeq == 2;
    InTurn(over, a, b, c, 10);
    assert EmptySync() + [c] == [a, b, c];
  }

  lemma InTurn(t: Tables, a: Event, b: Event, c: Event, receivedAt: nat)
    requires t.session.Some?
    ensures ApplyAll(t, [a, b], receivedAt) == Apply(Apply(t, a, receivedAt), b, receivedAt)
    ensures ApplyAll(t, [a, b, c], receivedAt) == Apply(Apply(Apply(t, a, receivedAt), b, receivedAt), c, receivedAt)
  {
    hide Apply;
    ApplyOne(t, a, receivedAt);
    ApplyOne(Apply(t, a, receivedAt), b, receivedAt);
    ApplyOne(Apply(Apply(t, a, receivedAt), b, receivedAt), c, receivedAt);
    ApplyAllAppend(t, [a], [b], receivedAt);
    ApplyAllAppend(t, [a, b], [c], receivedAt);
    assert [a] + [b] == [a, b] && [a, b] + [c] == [a, b, c];
  }

  lemma ApplyOne(t: Tables, e: Event, receivedAt: nat)
    requires t.session.Some?
    ensures ApplyAll(t, [e], receivedAt) == Apply(t, e, receivedAt)
  {
    hide Apply;
    assert [e][1..] == [];
    assert ApplyAll(Apply(t, e, receivedAt), [], receivedAt) == Apply(t, e, receivedAt);
  }

  lemma FreshOnes(a: Event, b: Event, c: Event)
    requires a.number > 4 && b.number > 4 && c.number > 4
    ensures Fresh([a, b], 4) == [a, b] && Fresh([a, b, c], 4) == [a, b, c]
  {
    assert [a, b][1..] == [b] && [b][1..] == [];
    assert [a, b, c][1..] == [b, c] && [b, c][1..] == [c] && [c][1..] == [];
    assert Fresh([b], 4) == [b] && Fresh([c], 4) == [c] && Fresh([b, c], 4) == [b, c];
  }
}
