/** What holds of the worker's tables whatever envelopes they have stored. */
module StoreProperties {
  import opened Common
  import opened Wire
  import opened Store

  ghost predicate OldChannels(t: Tables, n: int) {
    forall k :: k in t.channels ==> t.channels[k].lastSeq < n
  }

  ghost predicate OldMembers(members: Members, n: int) {
    forall h :: h in members ==> members[h].lastSeq < n
  }

  ghost predicate OldRosters(t: Tables, n: int) {
    forall k :: k in t.roster ==> OldMembers(t.roster[k], n)
  }

  /** Every row was last written by an event numbered below `n`. */
  ghost predicate Older(t: Tables, n: int) { OldChannels(t, n) && OldRosters(t, n) }

  /** Rows never run ahead of the session's `last_seq`. */
  ghost predicate Coherent(t: Tables) {
    Older(t, LastSeq(t) + 1) && (t.session.Some? ==> t.session.value.syncSeq <= t.session.value.lastSeq)
  }

  lemma {:induction false} UpsertAllOld(members: Members, users: seq<UserRef>, number: nat, ts: nat, n: int)
    requires OldMembers(members, n) && number < n
    ensures OldMembers(UpsertAll(members, users, number, ts), n)
    decreases |users|
  {
    if users != [] {
      UpsertAllOld(Upsert(members, users[0], number, ts), users[1..], number, ts, n);
    }
  }

  lemma RosterUpsertOld(t: Tables, key: string, users: seq<UserRef>, number: nat, ts: nat, n: int)
    requires Older(t, n) && number < n
    ensures Older(RosterUpsert(t, key, users, number, ts), n)
  {
    hide UpsertAll;
    UpsertAllOld(MembersOf(t, key), users, number, ts, n);
  }

  lemma EffectOlder(t: Tables, e: Event, receivedAt: nat, n: int)
    requires t.session.Some? && Older(t, n) && e.number < n
    requires ChannelOf(e.kind).Some? ==> ChannelOf(e.kind).value.key in t.channels
    ensures Older(Effect(t, e, receivedAt), n)
  {
    hide RosterUpsert, UpsertAll;
    match e.kind
    case MemberJoined(channel, user) =>
      RosterUpsertOld(TranscriptRow(t, e, channel.key, "member_joined", Some(user), ""), channel.key, [user], e.number,
                      e.ts, n);
    case Roster(channel, complete, users) =>
      if complete {
        RosterUpsertOld(t.(roster := t.roster - {channel.key}), channel.key, users, e.number, e.ts, n);
      }
    case RosterDelta(channel, users) => RosterUpsertOld(t, channel.key, users, e.number, e.ts, n);
    case _ =>
  }

  lemma ApplyOlder(t: Tables, e: Event, receivedAt: nat, n: int)
    requires t.session.Some? && Older(t, n) && e.number < n
    ensures Older(Apply(t, e, receivedAt), n)
  {
    hide Effect;
    var channel := ChannelOf(e.kind);
    EffectOlder(if channel.Some? then ChannelTouch(t, channel.value, e) else t, e, receivedAt, n);
  }

  lemma {:induction false} ApplyAllOlder(t: Tables, events: seq<Event>, receivedAt: nat, n: int)
    requires t.session.Some? && Older(t, n) && forall e :: e in events ==> e.number < n
    ensures Older(ApplyAll(t, events, receivedAt), n)
    decreases |events|
  {
    hide Apply, Older;
    if events != [] {
      ApplyOlder(t, events[0], receivedAt, n);
      ApplyAllOlder(Apply(t, events[0], receivedAt), events[1..], receivedAt, n);
    }
  }

  lemma OlderStill(t: Tables, a: int, b: int)
    requires Older(t, a) && a <= b
    ensures Older(t, b)
  {
  }

  lemma {:induction false} SyncSeqBelow(t: Tables, events: seq<Event>, receivedAt: nat, n: nat)
    requires t.session.Some? && t.session.value.syncSeq <= n && forall e :: e in events ==> e.number <= n
    ensures ApplyAll(t, events, receivedAt).session.value.syncSeq <= n
    decreases |events|
  {
    if events != [] {
      SyncSeqStep(t, events[0], receivedAt, n);
      SyncSeqBelow(Apply(t, events[0], receivedAt), events[1..], receivedAt, n);
    }
  }

  lemma SyncSeqStep(t: Tables, e: Event, receivedAt: nat, n: nat)
    requires t.session.Some? && t.session.value.syncSeq <= n && e.number <= n
    ensures Apply(t, e, receivedAt).session.value.syncSeq <= n
  {
  }

  lemma {:induction false} FreshIsNew(events: seq<Event>, lastSeq: int)
    requires Increasing(events)
    ensures forall e :: e in Fresh(events, lastSeq) ==> e in events && e.number > lastSeq
    ensures Increasing(Fresh(events, lastSeq))
    decreases |events|
  {
    if events != [] {
      FreshIsNew(events[1..], lastSeq);
      var rest := Fresh(events[1..], lastSeq);
      assert forall e :: e in events[1..] ==> e in events && events[0].number < e.number;
      assert forall i :: 0 <= i < |rest| ==> rest[i] in rest;
    }
  }

  lemma IncreasingLast(events: seq<Event>)
    requires Increasing(events) && events != []
    ensures forall e :: e in events ==> e.number <= events[|events| - 1].number
  {
  }

  /** Storing any ordered envelope keeps the tables coherent: the session's `last_seq` is the newest number in
      them, and a replay is recognised by it. */
  lemma StoredCoherent(t: Tables, meta: Session, events: seq<Event>, receivedAt: nat)
    requires Coherent(t) && Increasing(events)
    ensures Coherent(Stored(t, meta, events, receivedAt))
    ensures LastSeq(t) <= LastSeq(Stored(t, meta, events, receivedAt))
    ensures forall e :: e in events ==> e.number <= LastSeq(Stored(t, meta, events, receivedAt))
  {
    hide ApplyAll, Older, Fresh;
    var recent := Fresh(events, LastSeq(t));
    FreshIsNew(events, LastSeq(t));
    FreshKeepsNew(events, LastSeq(t));
    if recent != [] {
      IncreasingLast(recent);
      var newest := recent[|recent| - 1];
      var start := FeedUpkeep(SessionUpkeep(t, meta, newest, receivedAt), receivedAt);
      assert start.channels == t.channels && start.roster == t.roster;
      assert LastSeq(start) == newest.number;
      OlderSame(t, start, LastSeq(t) + 1);
      OlderStill(start, LastSeq(t) + 1, newest.number + 1);
      ApplyAllOlder(start, recent, receivedAt, newest.number + 1);
      SyncSeqBelow(start, recent, receivedAt, newest.number);
    }
  }

  lemma OlderSame(t: Tables, u: Tables, n: int)
    requires Older(t, n) && u.channels == t.channels && u.roster == t.roster
    ensures Older(u, n)
  {
  }

  lemma {:induction false} FreshKeepsNew(events: seq<Event>, lastSeq: int)
    ensures forall e :: e in events && e.number > lastSeq ==> e in Fresh(events, lastSeq)
    decreases |events|
  {
    if events != [] {
      FreshKeepsNew(events[1..], lastSeq);
      assert forall e :: e in events ==> e == events[0] || e in events[1..];
    }
  }

  /** A redelivered envelope changes nothing, whenever it arrives. */
  lemma ReplayChangesNothing(t: Tables, meta: Session, events: seq<Event>, receivedAt: nat)
    requires Increasing(events) && forall e :: e in events ==> e.number <= LastSeq(t)
    ensures Stored(t, meta, events, receivedAt) == t
  {
    FreshIsNew(events, LastSeq(t));
    NonEmptyHas(Fresh(events, LastSeq(t)));
  }

  lemma NonEmptyHas(events: seq<Event>)
    ensures events != [] ==> exists e :: e in events
  {
    if events != [] {
      assert events[0] in events;
    }
  }

  // ---- bulk upserts ----

  ghost predicate DistinctHandles(users: seq<UserRef>) {
    forall i, j :: 0 <= i < j < |users| ==> users[i].handle != users[j].handle
  }

  ghost predicate Has(users: seq<UserRef>, handle: nat) {
    exists i :: 0 <= i < |users| && users[i].handle == handle
  }

  /** Exactly the listed users' rows were touched, each once. */
  ghost predicate Upserted(members: Members, after: Members, users: seq<UserRef>, number: nat, ts: nat) {
    && (forall h :: h in after <==> h in members || Has(users, h))
    && (forall i :: 0 <= i < |users| ==>
          users[i].handle in after && after[users[i].handle] == Upsert(members, users[i], number, ts)[users[i].handle])
    && (forall h :: h in members && !Has(users, h) ==> after[h] == members[h])
  }

  lemma {:induction false} UpsertAllRows(members: Members, users: seq<UserRef>, number: nat, ts: nat)
    requires DistinctHandles(users)
    ensures Upserted(members, UpsertAll(members, users, number, ts), users, number, ts)
    decreases |users|
  {
    hide RowOf, Merge;
    if users != [] {
      var first := Upsert(members, users[0], number, ts);
      UpsertAllRows(first, users[1..], number, ts);
      UpsertedStep(members, UpsertAll(members, users, number, ts), users, number, ts);
    }
  }

  lemma HasCons(users: seq<UserRef>)
    requires users != []
    ensures forall h :: Has(users, h) <==> h == users[0].handle || Has(users[1..], h)
    ensures DistinctHandles(users) ==> !Has(users[1..], users[0].handle) && DistinctHandles(users[1..])
  {
  }

  lemma UpsertedStep(members: Members, after: Members, users: seq<UserRef>, number: nat, ts: nat)
    requires users != [] && DistinctHandles(users)
    requires Upserted(Upsert(members, users[0], number, ts), after, users[1..], number, ts)
    ensures Upserted(members, after, users, number, ts)
  {
    hide RowOf, Merge, Has;
    var first := Upsert(members, users[0], number, ts);
    var rest := users[1..];
    HasCons(users);
    forall i | 0 <= i < |users|
      ensures users[i].handle in after && after[users[i].handle]
          == Upsert(members, users[i], number, ts)[users[i].handle]
    {
      if i > 0 {
        assert users[i] == rest[i - 1] && users[i].handle != users[0].handle;
      }
    }
  }

  lemma TouchOpens(t: Tables, channel: ChannelRef, e: Event)
    ensures
      var r := ChannelTouch(t, channel, e);
      && Open(r, channel.key) && r.session == t.session && r.roster == t.roster
      && forall k :: k != channel.key ==> (Open(r, k) <==> Open(t, k))
  {
  }

  lemma UpsertNone(members: Members, number: nat, ts: nat)
    ensures UpsertAll(members, [], number, ts) == members
  {
  }
}
