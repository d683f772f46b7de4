/** The client's reconcile, stored by the server: the feed then shows the client's picture
    (app/src/uplink/mod.rs `reconcile`, live/worker/store.ts `storeEnvelope`). */
module LiveSync {
  import opened Common
  import opened Wire
  import opened Chat
  import opened Projection
  import opened Store
  import opened StoreProperties
  import opened Sync
  import opened Issued

  // ---- channel keys ----

  lemma {:induction false} DigitsInjective(a: nat, b: nat)
    requires Digits(a) == Digits(b)
    ensures a == b
  {
    var x, y := Digits(a), Digits(b);
    DigitsShape(a);
    DigitsShape(b);
    if a >= 10 && b >= 10 {
      assert Digits(a / 10) == x[..|x| - 1] == y[..|y| - 1] == Digits(b / 10);
      DigitsInjective(a / 10, b / 10);
    }
  }

  lemma {:induction false} DigitsShape(n: nat)
    ensures |Digits(n)| >= 1 && Digits(n)[|Digits(n)| - 1] == ('0' as int + n % 10) as char
    ensures n >= 10 ==> |Digits(n)| >= 2
  {
  }

  /** Different channels have different keys. */
  lemma IdentityInjective(a: ChatChannel, b: ChatChannel)
    requires Identity(a) == Identity(b)
    ensures a == b
  {
    var x, y := Identity(a), Identity(b);
    assert x[1] == y[1];
    match a
    case Public(id) =>
      assert b.Public?;
      assert Digits(id) == x[7..] == y[7..] == Digits(b.id);
      DigitsInjective(id, b.id);
    case Private(name) =>
      assert b.Private?;
      assert name == x[8..] == y[8..] == b.name;
    case Club(id) =>
      assert b.Club?;
      assert Digits(id) == x[5..] == y[5..] == Digits(b.id);
      DigitsInjective(id, b.id);
    case Party =>
  }

  // ---- the block a reconcile emits ----

  function ListingsOf(p: Projector): (r: seq<Listing>)
    ensures |r| == |Sent(p)|
  {
    var indices := Sent(p);
    seq(|indices|, i requires 0 <= i < |indices| =>
      var k: nat := indices[i]; Listing(Reference(p, p.channels[k]), Values(p.rosterState[k])))
  }

  /** The events of one `reconcile`, as the tap numbers them when none is lost. */
  ghost predicate Reconciled(p: Projector, events: seq<Event>) {
    Increasing(events) && Kinds(events, [SyncStarted] + ReconciliationEvents(p) + [SessionSynced])
  }

  lemma ReconciledAt(p: Projector, events: seq<Event>, i: nat)
    requires Reconciled(p, events) && i < |Sent(p)|
    ensures |events| == |Sent(p)| + 2
    ensures events[i + 1].kind == Roster(ListingsOf(p)[i].channel, true, ListingsOf(p)[i].users)
  {
  }

  lemma ReconcileLength(p: Projector, events: seq<Event>)
    requires Reconciled(p, events)
    ensures |events| == |Sent(p)| + 2 && events[0].kind.SyncStarted? && events[|events| - 1].kind.SessionSynced?
  {
  }

  lemma ReconcileIsSync(p: Projector, events: seq<Event>)
    requires Reconciled(p, events)
    ensures IsSync(events, ListingsOf(p))
  {
    hide ListingsOf, ReconciliationEvents, Sent, Kinds;
    ReconcileLength(p, events);
    var middle := events[1..|events| - 1];
    forall i | 0 <= i < |middle|
      ensures middle[i].kind == Roster(ListingsOf(p)[i].channel, true, ListingsOf(p)[i].users)
    {
      ReconciledAt(p, events, i);
    }
  }

  lemma ValuesAreTheMap(m: Mirror)
    requires forall h :: h in m ==> m[h].handle == h
    ensures DistinctHandles(Values(m))
    ensures forall i :: 0 <= i < |Values(m)| ==> Values(m)[i].handle in m && m[Values(m)[i].handle] == Values(m)[i]
    ensures forall h :: Has(Values(m), h) <==> h in m
  {
    hide Values;
    var keys := Ascending(m.Keys);
    var values := Values(m);
    forall i | 0 <= i < |values| ensures i < |keys| && values[i].handle == keys[i] && values[i].handle in m
        && m[values[i].handle] == values[i] {
      ValueAt(m, i);
    }
    ValueAt(m, |values|);
    forall h | h in m ensures Has(values, h) {
      assert h in m.Keys;
      var i :| 0 <= i < |keys| && keys[i] == h;
      assert values[i].handle == h;
    }
  }

  lemma ValueAt(m: Mirror, i: nat)
    requires i <= |Values(m)|
    ensures |Values(m)| == |Ascending(m.Keys)|
    ensures i < |Values(m)| ==> Ascending(m.Keys)[i] in m && var k: nat := Ascending(m.Keys)[i]; Values(m)[i] == m[k]
  {
  }

  /** No two sent channels are the same channel. */
  ghost predicate ChannelsDistinct(p: Projector) {
    forall i, j ::
      i in p.rosterSent && j in p.rosterSent && i in p.channels && j in p.channels && p.channels[i] == p.channels[j] ==>
        i == j
  }

  lemma ListingAt(p: Projector, i: nat)
    requires Sound(p) && i < |Sent(p)|
    ensures
      var k: int := Sent(p)[i];
      k in p.rosterSent && k in p.channels && k in p.rosterState
      && var n: nat := k; ListingsOf(p)[i] == Listing(Reference(p, p.channels[n]), Values(p.rosterState[n]))
  {
  }

  lemma ListingsDistinct(p: Projector)
    requires Sound(p) && ChannelsDistinct(p)
    ensures Distinct(ListingsOf(p))
  {
    hide Values, Identity;
    var listings, sent := ListingsOf(p), Sent(p);
    forall i, j | 0 <= i < j < |listings| ensures listings[i].channel.key != listings[j].channel.key {
      ListingAt(p, i);
      ListingAt(p, j);
      var a: nat, b: nat := sent[i], sent[j];
      if listings[i].channel.key == listings[j].channel.key {
        IdentityInjective(p.channels[a], p.channels[b]);
      }
    }
    forall i | 0 <= i < |listings| ensures DistinctHandles(listings[i].users) {
      ListingAt(p, i);
      var a: nat := sent[i];
      ValuesAreTheMap(p.rosterState[a]);
    }
  }

  /** The stored members are the mirror, row for row. */
  ghost predicate Mirrors(members: Members, mirror: Mirror, number: nat, ts: nat) {
    members.Keys == mirror.Keys
        && forall h :: h in mirror ==> h in members && members[h] == RowOf(mirror[h], number, ts)
  }

  lemma HoldsMirrors(members: Members, mirror: Mirror, number: nat, ts: nat)
    requires (forall h :: h in mirror ==> mirror[h].handle == h) && Holds(members, Values(mirror), number, ts)
    ensures Mirrors(members, mirror, number, ts)
  {
    hide Values, RowOf;
    ValuesAreTheMap(mirror);
    var users := Values(mirror);
    forall h | h in mirror ensures h in members && members[h] == RowOf(mirror[h], number, ts) {
      assert Has(users, h);
      var i :| 0 <= i < |users| && users[i].handle == h;
    }
  }

  /** Exactly the channels whose roster was sent are open. */
  ghost predicate OpensSent(t: Tables, p: Projector) {
    forall k :: Open(t, k) <==> exists i :: i in p.rosterSent && i in p.channels && Identity(p.channels[i]) == k
  }

  /** The `i`th channel sent is stored with exactly its mirror. */
  ghost predicate MirrorsSent(t: Tables, p: Projector, i: nat, events: seq<Event>)
    requires i < |Sent(p)| && |events| == |Sent(p)| + 2
  {
    var n, e := Sent(p)[i], events[i + 1];
    n in p.channels && n in p.rosterState
    && var k: nat := n; Mirrors(MembersOf(t, Identity(p.channels[k])), p.rosterState[k], e.number, e.ts)
  }

  /** The feed shows the client's picture: exactly the sent channels are open, each with exactly its mirror. */
  ghost predicate Shows(t: Tables, p: Projector, events: seq<Event>)
    requires |events| == |Sent(p)| + 2
  {
    OpensSent(t, p) && forall i :: 0 <= i < |Sent(p)| ==> MirrorsSent(t, p, i, events)
  }

  lemma ReconcileShows(p: Projector, t: Tables, events: seq<Event>, receivedAt: nat)
    requires Sound(p) && ChannelsDistinct(p) && Reconciled(p, events)
    requires t.session.Some? && t.session.value.endedAt.None?
    requires OldChannels(t, events[0].number) && t.session.value.syncSeq <= events[0].number
    ensures |events| == |Sent(p)| + 2 && Shows(ApplyAll(t, events, receivedAt), p, events)
  {
    hide Reconciled, ListingsOf, Sent, Holds, IsSync, ApplyAll, Distinct, MirrorsSent, Mentions, OldChannels, Sound;
    ReconcileLength(p, events);
    var listings := ListingsOf(p);
    ReconcileIsSync(p, events);
    ListingsDistinct(p);
    SyncAgreesWhenLive(t, events, listings, receivedAt);
    SyncApplied(t, events, listings, receivedAt);
    MentionsSent(p);
    forall i | 0 <= i < |Sent(p)| ensures MirrorsSent(ApplyAll(t, events, receivedAt), p, i, events) {
      ListedIsMirrored(p, ApplyAll(t, events, receivedAt), i, events);
    }
  }

  lemma ListedIsMirrored(p: Projector, r: Tables, i: nat, events: seq<Event>)
    requires Sound(p) && i < |Sent(p)| && |events| == |Sent(p)| + 2
    requires Holds(MembersOf(r, ListingsOf(p)[i].channel.key), ListingsOf(p)[i].users, events[i + 1].number,
                   events[i + 1].ts)
    ensures MirrorsSent(r, p, i, events)
  {
    hide Holds, Mirrors, ListingsOf, Sent, Identity;
    ListingAt(p, i);
    var k: nat := Sent(p)[i];
    HoldsMirrors(MembersOf(r, ListingsOf(p)[i].channel.key), p.rosterState[k], events[i + 1].number, events[i + 1].ts);
  }

  lemma MentionsSent(p: Projector)
    requires Sound(p)
    ensures forall k :: Mentions(ListingsOf(p), k)
                        <==> exists i :: i in p.rosterSent && i in p.channels && Identity(p.channels[i]) == k
  {
    hide Identity, Values;
    var listings, sent := ListingsOf(p), Sent(p);
    forall k | Mentions(listings, k)
        ensures exists i :: i in p.rosterSent && i in p.channels && Identity(p.channels[i]) == k {
      var i :| 0 <= i < |listings| && listings[i].channel.key == k;
      ListingAt(p, i);
      var n: nat := sent[i];
      assert n in p.rosterSent && Identity(p.channels[n]) == k;
    }
    forall k | exists i :: i in p.rosterSent && i in p.channels && Identity(p.channels[i]) == k
        ensures Mentions(listings, k) {
      var n :| n in p.rosterSent && n in p.channels && Identity(p.channels[n]) == k;
      assert n in p.rosterSent * p.channels.Keys * p.rosterState.Keys;
      assert n in sent;
      var i :| 0 <= i < |sent| && sent[i] == n;
      ListingAt(p, i);
      assert listings[i].channel.key == k;
    }
  }

  // ---- within an envelope ----

  ghost predicate Restarts(events: seq<Event>) { exists e :: e in events && e.kind.SessionStarted? }

  /** A session stays live, or becomes live again, exactly through a `session_started`. */
  lemma {:induction false} LiveAfter(t: Tables, events: seq<Event>, receivedAt: nat)
    requires t.session.Some?
    ensures ApplyAll(t, events, receivedAt).session.value.endedAt.None?
            <==> t.session.value.endedAt.None? || Restarts(events)
    decreases |events|
  {
    if events != [] {
      LiveStep(t, events[0], receivedAt);
      LiveAfter(Apply(t, events[0], receivedAt), events[1..], receivedAt);
      assert forall e :: e in events <==> e == events[0] || e in events[1..];
    }
  }

  lemma LiveStep(t: Tables, e: Event, receivedAt: nat)
    requires t.session.Some?
    ensures Apply(t, e, receivedAt).session.value.endedAt.None?
        <==> t.session.value.endedAt.None? || e.kind.SessionStarted?
  {
    hide RosterUpsert, TranscriptRow, CloseStale;
  }

  /** The tables as the last statement of the sync leaves them, when a batch of new events carries it. */
  function AtSync(t: Tables, meta: Session, before: seq<Event>, sync: seq<Event>, newest: Event,
                  receivedAt: nat): (r: Tables)
    ensures r.session.Some?
  {
    ApplyAll(ApplyAll(Begun(t, meta, newest, receivedAt), before, receivedAt), sync, receivedAt)
  }

  function Begun(t: Tables, meta: Session, newest: Event, receivedAt: nat): (r: Tables)
    ensures r.session.Some? && r.channels == t.channels && r.roster == t.roster
  {
    FeedUpkeep(SessionUpkeep(t, meta, newest, receivedAt), receivedAt)
  }

  /** Sync agreement inside an envelope: when a batch of new events carries a reconcile, does not end with the
      session and finds it live (or restarts it first), then whatever the tables held before, the feed shows
      the client's picture once the block is stored; what is left of the batch is applied on top. */
  lemma StoredSyncShows(p: Projector, t: Tables, meta: Session, before: seq<Event>, sync: seq<Event>,
                        after: seq<Event>, receivedAt: nat)
    requires Sound(p) && ChannelsDistinct(p) && Reconciled(p, sync)
    requires Coherent(t) && Increasing(before + sync + after)
    requires forall e :: e in before + sync + after ==> e.number > LastSeq(t)
    requires
      var all := before + sync + after;
      all != [] && !all[|all| - 1].kind.SessionEnded?
    requires t.session.None? || t.session.value.endedAt.None? || Restarts(before)
    ensures
      var all := before + sync + after;
      var r := AtSync(t, meta, before, sync, all[|all| - 1], receivedAt);
      && |sync| == |Sent(p)| + 2 && Shows(r, p, sync)
      && Stored(t, meta, all, receivedAt) == ApplyAll(r, after, receivedAt)
  {
    hide ApplyAll, Reconciled, Coherent, Older, Shows, Restarts, Sound, ChannelsDistinct, Increasing, Begun,
        OldChannels, Fresh;
    var all := before + sync + after;
    var newest := all[|all| - 1];
    ReconcileLength(p, sync);
    StoredInParts(t, meta, before, sync, after, receivedAt);
    var start := Begun(t, meta, newest, receivedAt);
    BegunKeeps(t, meta, newest, receivedAt);
    LiveAfter(start, before, receivedAt);
    ReadyForSync(t, start, before, sync, after, receivedAt);
    ReconcileShows(p, ApplyAll(start, before, receivedAt), sync, receivedAt);
  }

  lemma BegunKeeps(t: Tables, meta: Session, newest: Event, receivedAt: nat)
    requires !newest.kind.SessionEnded?
    ensures
      var start := Begun(t, meta, newest, receivedAt);
      && start.channels == t.channels && start.roster == t.roster
      && start.session.value.endedAt == (if t.session.Some? then t.session.value.endedAt else None)
      && start.session.value.syncSeq == (if t.session.Some? then t.session.value.syncSeq else 0)
  {
  }

  lemma StoredInParts(t: Tables, meta: Session, before: seq<Event>, sync: seq<Event>, after: seq<Event>,
                      receivedAt: nat)
    requires sync != [] && forall e :: e in before + sync + after ==> e.number > LastSeq(t)
    ensures
      var all := before + sync + after;
      Stored(t, meta, all, receivedAt)
          == ApplyAll(AtSync(t, meta, before, sync, all[|all| - 1], receivedAt), after, receivedAt)
  {
    hide ApplyAll, FeedUpkeep, SessionUpkeep;
    var all := before + sync + after;
    AllFresh(all, LastSeq(t));
    var start := Begun(t, meta, all[|all| - 1], receivedAt);
    ApplyAllAppend(start, before + sync, after, receivedAt);
    ApplyAllAppend(start, before, sync, receivedAt);
  }

  lemma {:induction false} AllFresh(events: seq<Event>, lastSeq: int)
    requires forall e :: e in events ==> e.number > lastSeq
    ensures Fresh(events, lastSeq) == events
    decreases |events|
  {
    if events != [] {
      AllFresh(events[1..], lastSeq);
      assert [events[0]] + events[1..] == events;
    }
  }

  lemma ReadyForSync(t: Tables, start: Tables, before: seq<Event>, sync: seq<Event>, after: seq<Event>, receivedAt: nat)
    requires Coherent(t) && start.session.Some? && start.channels == t.channels && start.roster == t.roster
    requires start.session.value.syncSeq <= (if t.session.Some? then t.session.value.syncSeq else 0)
    requires sync != [] && Increasing(before + sync + after)
        && forall e :: e in before + sync + after ==> e.number > LastSeq(t)
    ensures
      var middle := ApplyAll(start, before, receivedAt);
      OldChannels(middle, sync[0].number) && middle.session.value.syncSeq <= sync[0].number
  {
    var all := before + sync + after;
    var n := sync[0].number;
    assert all[|before|] == sync[0] && sync[0] in all;
    forall e | e in before ensures e.number < n {
      var i :| 0 <= i < |before| && before[i] == e;
      assert all[i] == e;
    }
    OlderSame(t, start, LastSeq(t) + 1);
    OlderStill(start, LastSeq(t) + 1, n);
    ApplyAllOlder(start, before, receivedAt, n);
    SyncSeqBelow(start, before, receivedAt, n);
  }
}
