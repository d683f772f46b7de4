/** Classic products re-send a channel whole on every move; the client sends only the difference
    (app/src/uplink/classic.rs `roster_events`, app/src/uplink/scr.rs `channel_events`). Storing those
    differences keeps the server at the last snapshot. */
module SnapshotDiff {
  import opened Common
  import opened Wire
  import opened Projection
  import opened Store
  import opened StoreProperties
  import Sync
  import opened Issued
  import LiveSync

  datatype ScrUser = ScrUser(name: string, battleTag: Option<string>, presence: string, avatar: Option<string>,
                             isOperator: bool)

  /** A whole channel as the service describes it. */
  datatype ScrChannel = ScrChannel(id: nat, name: string, displayName: Option<string>, isPublic: bool,
                                   users: seq<ScrUser>)

  /** Who is signed in, and two functions on text: the handle derived from a name (a 32-bit hash of its lower
      case) and the form in which account tags are compared (trimmed lower case). */
  datatype Account = Account(local: Option<string>, handleOf: string -> nat, fold: string -> string)

  /** A channel as it is compared with the one before; `members` are keyed by handle. */
  datatype Snapshot = Snapshot(id: nat, key: string, title: string, members: Mirror)

  datatype Scr = Scr(channel: Option<(nat, string)>, roster: Mirror, rosterSent: bool)

  const FRESH := Scr(None, map[], false)

  function ChannelKey(c: ScrChannel): string {
    if c.isPublic then "public:" + Digits(c.id) else "private:" + c.name
  }

  /** The member the signed-in account is behind is marked as local; its name need not resemble the account's. */
  function MemberOf(who: Account, u: ScrUser): UserRef {
    var isLocal := who.local.Some? && u.battleTag.Some? && who.fold(u.battleTag.value) == who.fold(who.local.value);
    UserRef(who.handleOf(u.name), Some(u.name), None, Some(u.presence), None, Some(isLocal), None, u.avatar,
            Some(u.isOperator))
  }

  /** Of two users with one handle the later one counts. */
  function ByHandle(who: Account, users: seq<ScrUser>): (m: Mirror)
    ensures forall h :: h in m ==> m[h].handle == h
  {
    if users == [] then map[]
    else
      var last := MemberOf(who, users[|users| - 1]);
      ByHandle(who, users[..|users| - 1])[last.handle := last]
  }

  function SnapshotOf(who: Account, c: ScrChannel): Snapshot {
    Snapshot(c.id, ChannelKey(c), if c.displayName.Some? then c.displayName.value else c.name, ByHandle(who, c.users))
  }

  /** `roster_events`: the whole roster the first time and whenever the member set changes, the members whose
      attributes moved otherwise. */
  function RosterEvents(channel: ChannelRef, members: Mirror, state: Mirror, sent: bool): seq<EventKind> {
    if !sent || members.Keys != state.Keys then [Roster(channel, true, Values(members))]
    else
      var changed := Changed(members, state);
      if changed == [] then [] else [RosterDelta(channel, changed)]
  }

  predicate IsNew(p: Scr, s: Snapshot) { p.channel.None? || p.channel.value.0 != s.id }

  /** The leave and join that open a new channel. */
  function Switch(p: Scr, s: Snapshot): seq<EventKind> {
    if IsNew(p, s) then
      (if p.channel.Some? then [Left(ChannelRef(p.channel.value.1, None))] else [])
      + [Joined(ChannelRef(s.key, Some(s.title)))]
    else []
  }

  function Enter(p: Scr, s: Snapshot): Scr {
    if IsNew(p, s) then Scr(Some((s.id, s.key)), map[], false) else p
  }

  /** `channel_events`. */
  function ChannelEvents(p: Scr, s: Snapshot): seq<EventKind> {
    var entered := Enter(p, s);
    Switch(p, s) + RosterEvents(ChannelRef(s.key, Some(s.title)), s.members, entered.roster, entered.rosterSent)
  }

  function AfterSnapshot(p: Scr, s: Snapshot): Scr {
    Enter(p, s).(roster := s.members, rosterSent := true)
  }

  class ScrProjector {
    var channel: Option<(nat, string)>
    var roster: Mirror
    var rosterSent: bool

    const who: Account

    constructor (who: Account)
      ensures this.who == who && Value() == FRESH
    {
      this.who := who;
      channel, roster, rosterSent := None, map[], false;
    }

    function Value(): Scr
      reads this
    {
      Scr(channel, roster, rosterSent)
    }

    method Observe(c: ScrChannel) returns (events: seq<EventKind>)
      modifies this
      ensures
        var s := SnapshotOf(who, c);
        Value() == AfterSnapshot(old(Value()), s) && events == ChannelEvents(old(Value()), s)
    {
      hide RosterEvents, ChannelKey, ByHandle;
      var key := ChannelKey(c);
      var name := if c.displayName.Some? then c.displayName.value else c.name;
      events := [];
      if channel.None? || channel.value.0 != c.id {
        if channel.Some? {
          events := events + [Left(ChannelRef(channel.value.1, None))];
        }
        channel := Some((c.id, key));
        roster := map[];
        rosterSent := false;
        events := events + [Joined(ChannelRef(key, Some(name)))];
      }
      var members := ByHandle(who, c.users);
      var more := DiffRoster(ChannelRef(key, Some(name)), members);
      events := events + more;
    }

    method DiffRoster(channelRef: ChannelRef, members: Mirror) returns (events: seq<EventKind>)
      modifies this`roster, this`rosterSent
      ensures roster == members && rosterSent
      ensures events == RosterEvents(channelRef, members, old(roster), old(rosterSent))
    {
      if !rosterSent || members.Keys != roster.Keys {
        rosterSent := true;
        roster := members;
        return [Roster(channelRef, true, Values(members))];
      }
      var changed := Changed(members, roster);
      roster := members;
      return if changed == [] then [] else [RosterDelta(channelRef, changed)];
    }
  }

  // ---- what the server stores ----

  /** The avatar each member should be shown with: its latest, or the one remembered since the last whole
      roster when it has none now. */
  type Memory = map<nat, Option<string>>

  function Whole(members: Mirror): Memory { map h | h in members :: members[h].avatar }

  function Blend(members: Mirror, memory: Memory): Memory {
    map h | h in members :: Coalesce(members[h].avatar, if h in memory then memory[h] else None)
  }

  function Remember(p: Scr, s: Snapshot, memory: Memory): Memory {
    if !p.rosterSent || s.members.Keys != p.roster.Keys then Whole(s.members) else Blend(s.members, memory)
  }

  /** The row shows the member with that avatar, and was written before `number`. */
  ghost predicate Depicts(row: RosterRow, user: UserRef, avatar: Option<string>, number: int) {
    && row.name == user.name && row.clanTag == user.clanTag
    && row.presence == (if user.presence.Some? then user.presence.value else "")
    && row.isLocal == (user.isLocal == Some(true)) && row.isOperator == (user.isOperator == Some(true))
    && row.avatar == avatar && (user.avatar.Some? ==> avatar == user.avatar)
    && row.lastSeq < number
  }

  ghost predicate Shows(members: Members, mirror: Mirror, memory: Memory, number: int) {
    && members.Keys == mirror.Keys == memory.Keys
    && forall h :: h in mirror ==> h in members && h in memory && Depicts(members[h], mirror[h], memory[h], number)
  }

  ghost predicate Keyed(mirror: Mirror) { forall h :: h in mirror ==> mirror[h].handle == h }

  /** The server agrees with the projector: no channel but its own is open, and once that channel's roster was
      sent, `shown`, it is open and the stored roster is the mirror. */
  ghost predicate InStep(p: Scr, shown: bool, t: Tables, memory: Memory, number: nat) {
    && t.session.Some? && Keyed(p.roster) && Older(t, number) && (p.rosterSent ==> shown)
    && (forall k :: Open(t, k) ==> p.channel.Some? && k == p.channel.value.1)
    && (shown ==>
          && p.channel.Some? && Open(t, p.channel.value.1)
          && Shows(MembersOf(t, p.channel.value.1), p.roster, memory, number))
  }

  lemma DepictsRow(user: UserRef, number: nat, ts: nat)
    ensures Depicts(RowOf(user, number, ts), user, user.avatar, number + 1)
  {
  }

  lemma DepictsMerge(prior: RosterRow, user: UserRef, number: nat, ts: nat)
    requires prior.lastSeq < number
    ensures Depicts(Merge(prior, RowOf(user, number, ts)), user, Coalesce(user.avatar, prior.avatar), number + 1)
  {
  }

  lemma WholeRoster(t: Tables, key: string, name: Option<string>, mirror: Mirror, e: Event, receivedAt: nat)
    requires t.session.Some? && Keyed(mirror) && Older(t, e.number)
    requires e.kind == Roster(ChannelRef(key, name), true, Values(mirror))
    ensures
      var r := Apply(t, e, receivedAt);
      && r.session.Some? && Open(r, key) && Older(r, e.number + 1)
      && Shows(MembersOf(r, key), mirror, Whole(mirror), e.number + 1)
      && (forall k :: k != key ==> (Open(r, k) <==> Open(t, k)))
  {
    hide RowOf, Values, ChannelTouch, Apply, Older;
    OlderStill(t, e.number, e.number + 1);
    ApplyOlder(t, e, receivedAt, e.number + 1);
    LiveSync.ValuesAreTheMap(mirror);
    Sync.RosterReplaces(t, e, Sync.Listing(ChannelRef(key, name), Values(mirror)), receivedAt);
    TouchOpens(t, ChannelRef(key, name), e);
    var members := MembersOf(Apply(t, e, receivedAt), key);
    forall h | h in mirror ensures h in members && Depicts(members[h], mirror[h], mirror[h].avatar, e.number + 1) {
      assert Has(Values(mirror), h);
      var i :| 0 <= i < |Values(mirror)| && Values(mirror)[i].handle == h;
      DepictsRow(mirror[h], e.number, e.ts);
    }
  }

  lemma ChangedMembers(mirror: Mirror, known: Mirror)
    requires Keyed(mirror)
    ensures
      var changed := Changed(mirror, known);
      && DistinctHandles(changed)
      && (forall i :: 0 <= i < |changed| ==> changed[i].handle in mirror && changed[i] == mirror[changed[i].handle])
      && (forall h :: h in mirror && !(h in known && known[h] == mirror[h]) ==> Has(changed, h))
  {
    hide Values;
    LiveSync.ValuesAreTheMap(map h | h in mirror && !(h in known && known[h] == mirror[h]) :: mirror[h]);
  }

  lemma DeltaRoster(t: Tables, key: string, name: Option<string>, mirror: Mirror, known: Mirror, memory: Memory,
                    e: Event, receivedAt: nat)
    requires t.session.Some? && Keyed(mirror) && mirror.Keys == known.Keys && Older(t, e.number)
    requires Open(t, key) && Shows(MembersOf(t, key), known, memory, e.number)
    requires e.kind == RosterDelta(ChannelRef(key, name), Changed(mirror, known))
    ensures
      var r := Apply(t, e, receivedAt);
      && r.session.Some? && Open(r, key) && Older(r, e.number + 1)
      && Shows(MembersOf(r, key), mirror, Blend(mirror, memory), e.number + 1)
      && (forall k :: k != key ==> (Open(r, k) <==> Open(t, k)))
  {
    hide RowOf, Merge, Changed, ChannelTouch, Upsert, UpsertAll, Older, Apply, Upserted, Shows;
    OlderStill(t, e.number, e.number + 1);
    ApplyOlder(t, e, receivedAt, e.number + 1);
    ChangedMembers(mirror, known);
    var changed := Changed(mirror, known);
    DeltaMembers(t, ChannelRef(key, name), changed, e, receivedAt);
    UpsertAllRows(MembersOf(t, key), changed, e.number, e.ts);
    UpdatedShows(MembersOf(t, key), UpsertAll(MembersOf(t, key), changed, e.number, e.ts), mirror, known, memory,
                 changed, e.number, e.ts);
  }

  lemma DeltaMembers(t: Tables, channel: ChannelRef, users: seq<UserRef>, e: Event, receivedAt: nat)
    requires t.session.Some? && e.kind == RosterDelta(channel, users)
    ensures
      var r := Apply(t, e, receivedAt);
      && r.session.Some? && Open(r, channel.key)
      && MembersOf(r, channel.key) == UpsertAll(MembersOf(t, channel.key), users, e.number, e.ts)
      && (forall k :: k != channel.key ==> (Open(r, k) <==> Open(t, k)))
  {
  }

  lemma UpdatedShows(stored: Members, after: Members, mirror: Mirror, known: Mirror, memory: Memory,
                     changed: seq<UserRef>, number: nat, ts: nat)
    requires mirror.Keys == known.Keys && Shows(stored, known, memory, number)
    requires forall i :: 0 <= i < |changed| ==> changed[i].handle in mirror && changed[i] == mirror[changed[i].handle]
    requires forall h :: h in mirror && !(h in known && known[h] == mirror[h]) ==> Has(changed, h)
    requires Upserted(stored, after, changed, number, ts)
    ensures Shows(after, mirror, Blend(mirror, memory), number + 1)
  {
    hide RowOf, Merge, Depicts, Upsert, Upserted;
    UpdatedHandles(stored, after, mirror, changed, number, ts);
    forall h | h in mirror ensures h in after && Depicts(after[h], mirror[h], Blend(mirror, memory)[h], number + 1) {
      UpdatedRow(stored, after, mirror, known, memory, changed, number, ts, h);
    }
  }

  lemma UpdatedHandles(stored: Members, after: Members, mirror: Mirror, changed: seq<UserRef>, number: nat, ts: nat)
    requires stored.Keys == mirror.Keys && Upserted(stored, after, changed, number, ts)
    requires forall i :: 0 <= i < |changed| ==> changed[i].handle in mirror
    ensures after.Keys == mirror.Keys
  {
  }

  lemma UpdatedRow(stored: Members, after: Members, mirror: Mirror, known: Mirror, memory: Memory,
                   changed: seq<UserRef>, number: nat, ts: nat, h: nat)
    requires mirror.Keys == known.Keys && Shows(stored, known, memory, number) && h in mirror
    requires forall i :: 0 <= i < |changed| ==> changed[i].handle in mirror && changed[i] == mirror[changed[i].handle]
    requires !(h in known && known[h] == mirror[h]) ==> Has(changed, h)
    requires Upserted(stored, after, changed, number, ts)
    ensures h in after && Depicts(after[h], mirror[h], Blend(mirror, memory)[h], number + 1)
  {
    hide RowOf, Merge, Depicts;
    assert h in stored && Depicts(stored[h], known[h], memory[h], number);
    if Has(changed, h) {
      var i :| 0 <= i < |changed| && changed[i].handle == h;
      OldRow(stored[h], known[h], memory[h], number);
      DepictsMerge(stored[h], changed[i], number, ts);
    } else {
      DepictsStill(stored[h], known[h], memory[h], number);
    }
  }

  lemma OldRow(row: RosterRow, user: UserRef, avatar: Option<string>, number: nat)
    requires Depicts(row, user, avatar, number)
    ensures row.lastSeq < number && row.avatar == avatar
  {
  }

  lemma DepictsStill(row: RosterRow, user: UserRef, avatar: Option<string>, number: int)
    requires Depicts(row, user, avatar, number)
    ensures Depicts(row, user, Coalesce(user.avatar, avatar), number + 1)
  {
  }

  lemma BlendSame(members: Members, mirror: Mirror, memory: Memory, number: int)
    requires Shows(members, mirror, memory, number)
    ensures Blend(mirror, memory) == memory
  {
  }

  // ---- one snapshot ----

  lemma LeftCloses(p: Scr, shown: bool, t: Tables, memory: Memory, e: Event, receivedAt: nat)
    requires InStep(p, shown, t, memory, e.number) && p.channel.Some?
    requires e.kind == Left(ChannelRef(p.channel.value.1, None))
    ensures
      var r := Apply(t, e, receivedAt);
      r.session.Some? && Older(r, e.number + 1) && forall k :: !Open(r, k)
  {
    hide Older, Shows, ChannelTouch;
    OlderStill(t, e.number, e.number + 1);
    ApplyOlder(t, e, receivedAt, e.number + 1);
    var channel := ChannelRef(p.channel.value.1, None);
    var touched := ChannelTouch(t, channel, e);
    TouchOpens(t, channel, e);
    var r := Apply(t, e, receivedAt);
    assert r == Store.Leave(touched, channel.key, e);
    forall k ensures !Open(r, k) {
      assert k != channel.key ==> (Open(r, k) <==> Open(touched, k)) && (Open(touched, k) <==> Open(t, k));
    }
  }

  lemma JoinedOpens(t: Tables, key: string, title: string, e: Event, receivedAt: nat)
    requires t.session.Some? && Older(t, e.number) && (forall k :: !Open(t, k))
    requires e.kind == Joined(ChannelRef(key, Some(title)))
    ensures
      var r := Apply(t, e, receivedAt);
      r.session.Some? && Older(r, e.number + 1) && forall k :: Open(r, k) <==> k == key
  {
    hide Older, ChannelTouch;
    OlderStill(t, e.number, e.number + 1);
    ApplyOlder(t, e, receivedAt, e.number + 1);
    TouchOpens(t, ChannelRef(key, Some(title)), e);
  }

  // ---- one snapshot stored ----

  lemma InStepLater(p: Scr, shown: bool, t: Tables, memory: Memory, n: nat, m: nat)
    requires InStep(p, shown, t, memory, n) && n <= m
    ensures InStep(p, shown, t, memory, m)
  {
    hide Older, Keyed;
    OlderStill(t, n, m);
  }

  /** The snapshot's channel has the key it came with before. */
  ghost predicate KeptKey(p: Scr, s: Snapshot) { !IsNew(p, s) ==> p.channel.value.1 == s.key }

  lemma SwitchInStep(p: Scr, shown: bool, t: Tables, memory: Memory, s: Snapshot, events: seq<Event>, n: nat, m: nat,
                     receivedAt: nat)
    requires InStep(p, shown, t, memory, n) && Carries(events, Switch(p, s), n, m)
    ensures InStep(Enter(p, s), shown && !IsNew(p, s), ApplyAll(t, events, receivedAt), memory, m)
  {
    hide Older, Shows, Apply, Open, Carries, ApplyAll, Keyed;
    if IsNew(p, s) {
      EmptyKeyed();
      var join := Joined(ChannelRef(s.key, Some(s.title)));
      if p.channel.Some? {
        var leave := Left(ChannelRef(p.channel.value.1, None));
        CarriesParts(events, [leave], [join], n, m);
        var first, rest := events[..1], events[1..];
        var k := NumberAfter(first, n);
        assert first + rest == events;
        ApplyAllAppend(t, first, rest, receivedAt);
        var e := CarriesOne(t, first, leave, n, k, receivedAt);
        InStepLater(p, shown, t, memory, n, e.number);
        LeftCloses(p, shown, t, memory, e, receivedAt);
        CarriesUpTo(first, [leave], n, k);
        EnteredInStep(Enter(p, s), Apply(t, e, receivedAt), s, memory, rest, e.number + 1, k, m, receivedAt);
      } else {
        assert Switch(p, s) == [join];
        CarriesUpTo(events, [join], n, m);
        EnteredInStep(Enter(p, s), t, s, memory, events, n, n, m, receivedAt);
      }
    } else {
      CarriesNone(t, events, n, m, receivedAt);
      CarriesUpTo(events, [], n, m);
      InStepLater(p, shown, t, memory, n, m);
    }
  }

  /** With no channel open, joining one opens it alone. */
  lemma EnteredInStep(q: Scr, t: Tables, s: Snapshot, memory: Memory, events: seq<Event>, n: nat, k: nat, m: nat,
                      receivedAt: nat)
    requires t.session.Some? && Older(t, n) && n <= k && forall key :: !Open(t, key)
    requires q == Scr(Some((s.id, s.key)), map[], false)
    requires Carries(events, [Joined(ChannelRef(s.key, Some(s.title)))], k, m)
    ensures InStep(q, false, ApplyAll(t, events, receivedAt), memory, m)
  {
    hide Older, Shows, Apply, Open, Carries, ApplyAll;
    var e := CarriesOne(t, events, Joined(ChannelRef(s.key, Some(s.title))), k, m, receivedAt);
    OlderStill(t, n, e.number);
    JoinedOpens(t, s.key, s.title, e, receivedAt);
    OlderStill(Apply(t, e, receivedAt), e.number + 1, m);
  }

  lemma RosterInStep(p: Scr, shown: bool, t: Tables, memory: Memory, s: Snapshot, events: seq<Event>, n: nat, m: nat,
                     receivedAt: nat)
    requires InStep(p, shown, t, memory, n) && Keyed(s.members) && p.channel == Some((s.id, s.key))
    requires Carries(events, RosterEvents(ChannelRef(s.key, Some(s.title)), s.members, p.roster, p.rosterSent), n, m)
    ensures InStep(p.(roster := s.members, rosterSent := true), true, ApplyAll(t, events, receivedAt),
                   Remember(p, s, memory), m)
  {
    hide Older, Shows, Apply, Changed, Values, Open, Carries, ApplyAll;
    var channel := ChannelRef(s.key, Some(s.title));
    var q, remembered := p.(roster := s.members, rosterSent := true), Remember(p, s, memory);
    if !p.rosterSent || s.members.Keys != p.roster.Keys {
      var kind := Roster(channel, true, Values(s.members));
      var e := CarriesOne(t, events, kind, n, m, receivedAt);
      InStepLater(p, shown, t, memory, n, e.number);
      WholeRoster(t, s.key, channel.name, s.members, e, receivedAt);
      InStepLater(q, true, Apply(t, e, receivedAt), remembered, e.number + 1, m);
    } else if Changed(s.members, p.roster) == [] {
      CarriesNone(t, events, n, m, receivedAt);
      CarriesUpTo(events, [], n, m);
      ChangedMembers(s.members, p.roster);
      assert s.members == p.roster;
      BlendSame(MembersOf(t, s.key), p.roster, memory, n);
      InStepLater(q, true, t, remembered, n, m);
    } else {
      var kind := RosterDelta(channel, Changed(s.members, p.roster));
      var e := CarriesOne(t, events, kind, n, m, receivedAt);
      InStepLater(p, shown, t, memory, n, e.number);
      DeltaRoster(t, s.key, channel.name, s.members, p.roster, memory, e, receivedAt);
      InStepLater(q, true, Apply(t, e, receivedAt), remembered, e.number + 1, m);
    }
  }

  /** One snapshot, projected and stored, leaves the server in step if and only if its channel kept its key, or
      there was nothing to send. */
  lemma SnapshotInStepIff(p: Scr, shown: bool, t: Tables, memory: Memory, s: Snapshot, events: seq<Event>, n: nat,
                          m: nat, receivedAt: nat)
    requires InStep(p, shown, t, memory, n) && Keyed(s.members) && Carries(events, ChannelEvents(p, s), n, m)
    ensures KeptKey(p, s) || ChannelEvents(p, s) == []
            <==> InStep(AfterSnapshot(p, s), true, ApplyAll(t, events, receivedAt), Remember(Enter(p, s), s, memory), m)
  {
    hide InStep, RosterEvents, Switch, Carries, ApplyAll, Keyed;
    var entered, switched := Enter(p, s), Switch(p, s);
    var kinds := RosterEvents(ChannelRef(s.key, Some(s.title)), s.members, entered.roster, entered.rosterSent);
    InStepSession(p, shown, t, memory, n);
    CarriesParts(events, switched, kinds, n, m);
    var first, rest := events[..|switched|], events[|switched|..];
    var k := NumberAfter(first, n);
    assert first + rest == events;
    ApplyAllAppend(t, first, rest, receivedAt);
    SwitchInStep(p, shown, t, memory, s, first, n, k, receivedAt);
    if KeptKey(p, s) {
      RosterInStep(entered, shown && !IsNew(p, s), ApplyAll(t, first, receivedAt), memory, s, rest, k, m, receivedAt);
    } else if ChannelEvents(p, s) == [] {
      NothingNew(p, shown, t, memory, s, n);
      CarriesNone(t, events, n, m, receivedAt);
      CarriesUpTo(events, [], n, m);
      InStepLater(AfterSnapshot(p, s), true, t, Remember(p, s, memory), n, m);
    } else {
      OtherKeyOpens(p, t, Remember(p, s, memory), s, events, n, m, receivedAt);
    }
  }

  lemma InStepSession(p: Scr, shown: bool, t: Tables, memory: Memory, n: nat)
    requires InStep(p, shown, t, memory, n)
    ensures t.session.Some?
  {
  }

  lemma NothingNew(p: Scr, shown: bool, t: Tables, memory: Memory, s: Snapshot, n: nat)
    requires InStep(p, shown, t, memory, n) && Keyed(s.members) && ChannelEvents(p, s) == []
    ensures InStep(AfterSnapshot(p, s), true, t, Remember(Enter(p, s), s, memory), n) && Enter(p, s) == p
  {
    hide Older, Shows, Changed, Values, Open;
    assert !IsNew(p, s) && p.rosterSent && s.members.Keys == p.roster.Keys && Changed(s.members, p.roster) == [];
    ChangedMembers(s.members, p.roster);
    assert s.members == p.roster;
    BlendSame(MembersOf(t, p.channel.value.1), p.roster, memory, n);
  }

  /** Under another key the roster opens a second channel. */
  lemma OtherKeyOpens(p: Scr, t: Tables, memory: Memory, s: Snapshot, events: seq<Event>, n: nat, m: nat,
                      receivedAt: nat)
    requires t.session.Some? && !KeptKey(p, s) && ChannelEvents(p, s) != []
        && Carries(events, ChannelEvents(p, s), n, m)
    ensures !InStep(AfterSnapshot(p, s), true, ApplyAll(t, events, receivedAt), memory, m)
  {
    hide Older, Shows, Changed, Values, Apply, Carries, ApplyAll;
    var kinds := ChannelEvents(p, s);
    assert |kinds| == 1 && kinds == [kinds[0]] && (kinds[0].Roster? || kinds[0].RosterDelta?)
        && kinds[0].channel.key == s.key;
    var e := CarriesOne(t, events, kinds[0], n, m, receivedAt);
    RosterOpens(t, e, receivedAt);
  }

  lemma RosterOpens(t: Tables, e: Event, receivedAt: nat)
    requires t.session.Some? && (e.kind.Roster? || e.kind.RosterDelta?)
    ensures Open(Apply(t, e, receivedAt), e.kind.channel.key)
  {
    hide ChannelTouch, RosterUpsert;
    TouchOpens(t, e.kind.channel, e);
  }

  lemma EmptyKeyed()
    ensures Keyed(map[])
  {
  }
}
