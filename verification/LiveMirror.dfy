/** After the first sync the client sends only changes. Storing them, event by event, keeps the feed showing the
    client's mirror (app/src/uplink/mod.rs `observe`, `observe_left` and `reconcile`, app/src/uplink/model.rs
    `project`, live/worker/store.ts). Sharing is on throughout. */
module LiveMirror {
  import opened Common
  import opened Names
  import opened Wire
  import opened Chat
  import opened Projection
  import opened Store
  import opened StoreProperties
  import opened SnapshotDiff
  import opened Issued
  import LiveSync

  /** Sharing is on and shares every channel. */
  const EVERYTHING := Gates(true, None)

  /** One roster as the chat session holds it, with what the service said of it so far. */
  datatype Listed = Listed(index: nat, complete: bool, users: seq<ChatUser>)

  /** What moves the tap: a chat event, a leave command, the periodic reconcile with every roster the session
      holds, and the keepalive tick. */
  datatype Cause = Chat(event: ChatEvent) | LeaveCommand(index: nat) | Resync(rosters: seq<Listed>) | Beat

  /** `reconcile` first projects the session's rosters; what they would send is discarded. */
  function Refreshed(p: Projector, rosters: seq<Listed>): Projector
    decreases |rosters|
  {
    if rosters == [] then p
    else
      var last := rosters[|rosters| - 1];
      Project(Refreshed(p, rosters[..|rosters| - 1]), RosterSnapshot(last.index, last.complete, last.users),
              EVERYTHING).0
  }

  function Caused(p: Projector, c: Cause): (Projector, Option<EventKind>) {
    match c
    case Chat(e) => Project(p, e, EVERYTHING)
    case LeaveCommand(index) =>
      var left := Projection.Leave(p, index, EVERYTHING);
      (left.0, Mapped(left.1, r => Left(r)))
    case Resync(rosters) => (Refreshed(p, rosters), None)
    case Beat => (p, Some(Heartbeat))
  }

  function Block(p: Projector): seq<EventKind> { [SyncStarted] + ReconciliationEvents(p) + [SessionSynced] }

  /** The whole picture, if there is any. */
  function Reconcile(p: Projector): seq<EventKind> { if ReconciliationEvents(p) == [] then [] else Block(p) }

  /** A first roster makes the tap reconcile; anything else is sent as it is. */
  function Emitted(p: Projector, c: Cause): seq<EventKind> {
    var r := Caused(p, c);
    if c.Resync? then Reconcile(r.0)
    else if r.1.None? then []
    else if r.1.value.Roster? then Reconcile(r.0)
    else [r.1.value]
  }

  /** The channels of the sent rosters. */
  function SentKeys(p: Projector): set<string> {
    set i | i in p.rosterSent && i in p.channels :: Identity(p.channels[i])
  }

  function ShownBy(shown: set<string>, kind: EventKind): set<string> {
    var channel := ChannelOf(kind);
    if channel.None? then shown else if kind.Left? then shown - {channel.value.key} else shown + {channel.value.key}
  }

  /** The channels the feed has open, as the client can tell from what it sent. */
  function ShownAfter(p: Projector, shown: set<string>, c: Cause): set<string> {
    var kinds := Emitted(p, c);
    if kinds == [] then shown else if kinds[0].SyncStarted? then SentKeys(Caused(p, c).0) else ShownBy(shown, kinds[0])
  }

  // ---- what the feed shows ----

  /** The row shows the member; a portrait it no longer has may be remembered. */
  ghost predicate Portrays(row: RosterRow, user: UserRef) {
    && row.name == user.name && row.clanTag == user.clanTag && row.joinedOrder == user.joinedOrder
    && row.presence == (if user.presence.Some? then user.presence.value else "")
    && row.isLocal == (user.isLocal == Some(true)) && row.isOperator == (user.isOperator == Some(true))
    && (user.portrait.Some? ==>
        && row.portraitTable == Some(user.portrait.value.table)
        && row.portraitOffset == Some(user.portrait.value.offset))
  }

  ghost predicate Depicted(members: Members, mirror: Mirror) {
    members.Keys == mirror.Keys && forall h :: h in mirror ==> h in members && Portrays(members[h], mirror[h])
  }

  ghost predicate ShowsChannel(t: Tables, p: Projector, i: nat) {
    && i in p.channels && i in p.rosterState
    && Open(t, Identity(p.channels[i])) && Depicted(MembersOf(t, Identity(p.channels[i])), p.rosterState[i])
  }

  /** No channel is open under two indices. */
  ghost predicate OneIndexEach(p: Projector) {
    forall i, j :: i in p.channels && j in p.channels && p.channels[i] == p.channels[j] ==> i == j
  }

  ghost predicate CarriesOrders(mirror: Mirror, orders: map<nat, nat>) {
    forall h :: h in mirror ==> h in orders && mirror[h].joinedOrder == Some(orders[h])
  }

  /** Mirrored members carry the order they were first seen in. */
  ghost predicate OrdersKept(p: Projector) {
    forall i :: i in p.rosterState ==> CarriesOrders(p.rosterState[i], At(p.rosterOrder, i))
  }

  ghost predicate Known(p: Projector, key: string) { exists i :: i in p.channels && Identity(p.channels[i]) == key }

  ghost predicate Ready(t: Tables, n: nat) {
    Older(t, n) && t.session.Some? && t.session.value.endedAt.None? && t.session.value.syncSeq <= n
  }

  /** Exactly the `shown` channels are open, the client is in each, and every channel whose roster was sent shows
      its mirror. */
  ghost predicate Following(p: Projector, shown: set<string>, t: Tables, n: nat) {
    && Sound(p) && OneIndexEach(p) && OrdersKept(p) && Ready(t, n)
    && (forall k :: Open(t, k) <==> k in shown)
    && (forall k :: k in shown ==> Known(p, k))
    && (forall i :: i in p.rosterSent ==> ShowsChannel(t, p, i))
  }

  /** A channel is entered under an index that holds no other channel the feed has open, and under no second
      index. */
  predicate JoinFits(p: Projector, shown: set<string>, index: nat, channel: ChatChannel) {
    && (index in p.channels && p.channels[index] != channel ==> Identity(p.channels[index]) !in shown)
    && (forall i :: i in p.channels && p.channels[i] == channel ==> i == index)
  }

  /** The causes the feed can follow: a join that fits, and no repeated snapshot that leaves out someone who was
      there. */
  ghost predicate Harmless(p: Projector, shown: set<string>, c: Cause) {
    match c
    case Chat(ChannelJoined(index, channel, _)) => JoinFits(p, shown, index, channel)
    case Chat(RosterSnapshot(index, true, users)) =>
      index in p.rosterSent ==> At(p.rosterState, index).Keys <= Handles(users)
    case _ => true
  }

  ghost function Handles(users: seq<ChatUser>): set<nat> { set i | 0 <= i < |users| :: users[i].handle }

  // ---- the tables under one event ----

  predicate Incremental(kind: EventKind) {
    kind.Joined? || kind.Left? || kind.MemberJoined? || kind.MemberLeft? || kind.RosterDelta? || kind.Message?
  }

  /** What an incremental event makes of the members of its channel. */
  function MembersAfter(members: Members, e: Event): Members {
    match e.kind
    case Left(_) => map[]
    case MemberJoined(_, user) => Upsert(members, user, e.number, e.ts)
    case MemberLeft(_, user) => members - {user.handle}
    case RosterDelta(_, users) => UpsertAll(members, users, e.number, e.ts)
    case _ => members
  }

  /** The event opens its channel, or closes it when it is the leave, and touches no other. */
  ghost predicate Touched(t: Tables, r: Tables, e: Event, key: string) {
    && r.session == t.session
    && MembersOf(r, key) == MembersAfter(MembersOf(t, key), e)
    && (Open(r, key) <==> !e.kind.Left?)
    && (forall k :: k != key ==> MembersOf(r, k) == MembersOf(t, k) && (Open(r, k) <==> Open(t, k)))
  }

  lemma OneEvent(t: Tables, e: Event, receivedAt: nat)
    requires t.session.Some? && Incremental(e.kind)
    ensures ChannelOf(e.kind).Some? && Touched(t, Apply(t, e, receivedAt), e, ChannelOf(e.kind).value.key)
  {
    hide RowOf, Merge, ChannelTouch, UpsertAll, Upsert, TranscriptRow, CloseStale;
    var channel := ChannelOf(e.kind).value;
    TouchOpens(t, channel, e);
    match e.kind
    case MemberJoined(c, user) => OneUser(MembersOf(t, c.key), user, e.number, e.ts);
    case RosterDelta(c, _) => UpsertNone(MembersOf(t, c.key), e.number, e.ts);
    case _ =>
  }

  lemma OneUser(members: Members, user: UserRef, number: nat, ts: nat)
    ensures UpsertAll(members, [user], number, ts) == Upsert(members, user, number, ts)
  {
    assert [user][1..] == [];
    UpsertNone(Upsert(members, user, number, ts), number, ts);
  }

  lemma ReadyAfter(t: Tables, e: Event, receivedAt: nat)
    requires Ready(t, e.number) && Incremental(e.kind)
    ensures Ready(Apply(t, e, receivedAt), e.number + 1)
  {
    hide Older, Touched;
    OlderStill(t, e.number, e.number + 1);
    ApplyOlder(t, e, receivedAt, e.number + 1);
    OneEvent(t, e, receivedAt);
    assert Apply(t, e, receivedAt).session == t.session by { OneEventKeepsSession(t, e, receivedAt); }
  }

  lemma OneEventKeepsSession(t: Tables, e: Event, receivedAt: nat)
    requires t.session.Some? && Incremental(e.kind)
    ensures Apply(t, e, receivedAt).session == t.session
  {
    OneEvent(t, e, receivedAt);
  }

  // ---- rows ----

  lemma NewRowPortrays(user: UserRef, number: nat, ts: nat)
    ensures Portrays(RowOf(user, number, ts), user)
  {
  }

  /** A newer row shows the member, provided its order is the one already stored. */
  lemma MergedRowPortrays(prior: RosterRow, user: UserRef, number: nat, ts: nat)
    requires prior.lastSeq < number && prior.joinedOrder == user.joinedOrder
    ensures Portrays(Merge(prior, RowOf(user, number, ts)), user)
  {
  }

  lemma UpsertPortrays(members: Members, user: UserRef, number: nat, ts: nat)
    requires OldMembers(members, number)
    requires user.handle in members ==> members[user.handle].joinedOrder == user.joinedOrder
    ensures user.handle in Upsert(members, user, number, ts)
        && Portrays(Upsert(members, user, number, ts)[user.handle], user)
  {
    hide RowOf, Merge, Portrays;
    NewRowPortrays(user, number, ts);
    if user.handle in members { MergedRowPortrays(members[user.handle], user, number, ts); }
  }

  /** The stored order of a member that stays is the order in its new reference. */
  ghost predicate SameOrders(known: Mirror, mirror: Mirror) {
    forall h :: h in known && h in mirror ==> known[h].joinedOrder == mirror[h].joinedOrder
  }

  lemma JoinDepicts(members: Members, known: Mirror, user: UserRef, number: nat, ts: nat)
    requires Depicted(members, known) && OldMembers(members, number) && SameOrders(known, known[user.handle := user])
    ensures Depicted(Upsert(members, user, number, ts), known[user.handle := user])
  {
    hide RowOf, Merge;
    UpsertPortrays(members, user, number, ts);
  }

  /** A repeated snapshot, sent as its changed members, leaves the stored handles those of the snapshot if and
      only if nobody it leaves out was still known. */
  lemma DeltaDepictsIff(members: Members, known: Mirror, mirror: Mirror, number: nat, ts: nat)
    requires Depicted(members, known) && OldMembers(members, number) && SameOrders(known, mirror) && Keyed(mirror)
    ensures
      var after := UpsertAll(members, Changed(mirror, known), number, ts);
      && (after.Keys == mirror.Keys <==> known.Keys <= mirror.Keys)
      && (known.Keys <= mirror.Keys ==> Depicted(after, mirror))
  {
    hide RowOf, Merge, Changed, UpsertAll, Upsert;
    var changed := Changed(mirror, known);
    var after := UpsertAll(members, changed, number, ts);
    ChangedMembers(mirror, known);
    UpsertAllRows(members, changed, number, ts);
    assert after.Keys == known.Keys + mirror.Keys by {
      forall h ensures h in after <==> h in known || h in mirror {
        DeltaHandle(members, after, known, mirror, changed, number, ts, h);
      }
    }
    forall h | h in mirror ensures h in after && Portrays(after[h], mirror[h]) {
      DeltaRow(members, after, known, mirror, changed, number, ts, h);
    }
  }

  /** Two members are shown, a snapshot leaves one out without a departure of its own: nothing is sent, and the
      feed keeps showing both. */
  lemma SilentDepartureStays(one: UserRef, two: UserRef)
    requires one.handle == 1 && two.handle == 2
    ensures
      var members: Members := map[1 := RowOf(one, 5, 9), 2 := RowOf(two, 5, 9)];
      var known: Mirror := map[1 := one, 2 := two];
      var mirror: Mirror := map[1 := one];
      && Depicted(members, known) && Changed(mirror, known) == []
      && UpsertAll(members, Changed(mirror, known), 6, 9) == members && members.Keys != mirror.Keys
  {
    var known: Mirror := map[1 := one, 2 := two];
    var mirror: Mirror := map[1 := one];
    NewRowPortrays(one, 5, 9);
    NewRowPortrays(two, 5, 9);
    assert (map h | h in mirror && !(h in known && known[h] == mirror[h]) :: mirror[h]) == map[];
    assert 2 !in mirror;
  }

  ghost predicate ListsChanged(changed: seq<UserRef>, mirror: Mirror, known: Mirror) {
    && (forall i :: 0 <= i < |changed| ==> changed[i].handle in mirror && changed[i] == mirror[changed[i].handle])
    && (forall h :: h in mirror && !(h in known && known[h] == mirror[h]) ==> Has(changed, h))
  }

  lemma DeltaHandle(members: Members, after: Members, known: Mirror, mirror: Mirror, changed: seq<UserRef>,
                    number: nat, ts: nat, h: nat)
    requires Depicted(members, known) && ListsChanged(changed, mirror, known)
        && Upserted(members, after, changed, number, ts)
    ensures h in after <==> h in known || h in mirror
  {
    hide Upsert, Portrays;
    assert Has(changed, h) ==> h in mirror;
  }

  lemma DeltaRow(members: Members, after: Members, known: Mirror, mirror: Mirror, changed: seq<UserRef>, number: nat,
                 ts: nat, h: nat)
    requires Depicted(members, known) && OldMembers(members, number) && SameOrders(known, mirror) && h in mirror
    requires ListsChanged(changed, mirror, known) && Upserted(members, after, changed, number, ts)
    ensures h in after && Portrays(after[h], mirror[h])
  {
    hide Upsert;
    if Has(changed, h) {
      var i :| 0 <= i < |changed| && changed[i].handle == h;
      UpsertPortrays(members, changed[i], number, ts);
    }
  }

  // ---- the projector ----

  /** Giving a member its order changes the order of nobody else. */
  ghost predicate OrderGiven(p: Projector, q: Projector, index: nat, handle: nat, order: nat) {
    && handle in At(q.rosterOrder, index) && At(q.rosterOrder, index)[handle] == order
    && At(p.rosterOrder, index).Keys + {handle} == At(q.rosterOrder, index).Keys
    && Extends(p, q, index)
  }

  ghost predicate Extends(p: Projector, q: Projector, index: nat) {
    && (forall h :: h in At(p.rosterOrder, index) ==>
        h in At(q.rosterOrder, index) && At(q.rosterOrder, index)[h] == At(p.rosterOrder, index)[h])
    && (forall i :: i != index ==> At(q.rosterOrder, i) == At(p.rosterOrder, i))
  }

  lemma WithOrderGives(p: Projector, index: nat, handle: nat)
    ensures
      var r := WithOrder(p, index, handle);
      OrderGiven(p, r.0, index, handle, r.1)
  {
  }

  /** Members already ordered keep their order, and a mirror carries the orders the projector now holds. */
  lemma {:induction false} MirrorOrders(p: Projector, index: nat, users: seq<ChatUser>)
    ensures
      var r := MirrorOf(p, index, users);
      r.1.Keys == Handles(users) && Extends(p, r.0, index) && CarriesOrders(r.1, At(r.0.rosterOrder, index))
    decreases |users|
  {
    hide WithOrder, OrderGiven, Extends, CarriesOrders;
    if users == [] {
      NoUsers(p, index);
    } else {
      var n := |users| - 1;
      var before := MirrorOf(p, index, users[..n]);
      var handle := users[n].handle;
      var ordered := WithOrder(before.0, index, handle);
      MirrorOrders(p, index, users[..n]);
      WithOrderGives(before.0, index, handle);
      assert Handles(users) == Handles(users[..n]) + {handle};
      OneMoreOrder(p, before.0, ordered.0, index, before.1, handle, UserReference(p, index, users[n], ordered.1),
                   ordered.1);
    }
  }

  lemma NoUsers(p: Projector, index: nat)
    ensures Extends(p, p, index) && Handles([]) == {} && CarriesOrders(map[], At(p.rosterOrder, index))
  {
  }

  lemma OneMoreOrder(p: Projector, before: Projector, after: Projector, index: nat, mirror: Mirror, handle: nat,
                     user: UserRef, order: nat)
    requires Extends(p, before, index) && CarriesOrders(mirror, At(before.rosterOrder, index))
    requires OrderGiven(before, after, index, handle, order) && user.joinedOrder == Some(order)
    ensures Extends(p, after, index) && CarriesOrders(mirror[handle := user], At(after.rosterOrder, index))
  {
  }

  /** The parts of the projector the feed depends on, changed at one index only. */
  ghost predicate ChangedAt(p: Projector, q: Projector, index: nat) {
    && q.channels == p.channels && q.rosterSent == p.rosterSent
    && (forall i :: i != index ==>
        && (i in q.rosterState <==> i in p.rosterState)
        && (i in p.rosterState ==> q.rosterState[i] == p.rosterState[i]))
  }

  // ---- one event stored ----

  /** An event on one channel, together with a change of that channel's mirror, keeps everything else. */
  lemma OwnChannel(p: Projector, q: Projector, shown: set<string>, t: Tables, e: Event, receivedAt: nat, index: nat)
    requires Following(p, shown, t, e.number) && Sound(q) && OrdersKept(q) && ChangedAt(p, q, index) && t.session.Some?
    requires index in p.channels && Incremental(e.kind) && !e.kind.Left? && ChannelOf(e.kind).Some?
    requires ChannelOf(e.kind).value.key == Identity(p.channels[index])
    requires index in p.rosterSent ==>
               && index in q.rosterState
               && Depicted(MembersAfter(MembersOf(t, Identity(p.channels[index])), e), q.rosterState[index])
    ensures Following(q, ShownBy(shown, e.kind), Apply(t, e, receivedAt), e.number + 1)
  {
    hide Identity, Depicted, OrdersKept, Ready, MembersAfter, Apply;
    var r := Apply(t, e, receivedAt);
    OneEvent(t, e, receivedAt);
    ReadyAfter(t, e, receivedAt);
    forall k | k in ShownBy(shown, e.kind) ensures Known(q, k) {
      assert k != Identity(p.channels[index]) ==> Known(p, k);
    }
    forall i | i in q.rosterSent ensures ShowsChannel(r, q, i) {
      assert ShowsChannel(t, p, i);
      if i != index { KeysDiffer(p, i, index); }
    }
  }

  lemma KeysDiffer(p: Projector, i: nat, j: nat)
    requires OneIndexEach(p) && i in p.channels && j in p.channels && i != j
    ensures Identity(p.channels[i]) != Identity(p.channels[j])
  {
    hide Identity;
    if Identity(p.channels[i]) == Identity(p.channels[j]) { LiveSync.IdentityInjective(p.channels[i], p.channels[j]); }
  }

  /** Nothing is sent: the mirror of one index may change, if the feed already shows what it becomes. */
  lemma NothingSent(p: Projector, q: Projector, shown: set<string>, t: Tables, n: nat, index: nat)
    requires Following(p, shown, t, n) && Sound(q) && OrdersKept(q) && ChangedAt(p, q, index)
    requires index in p.rosterSent ==> index in q.rosterState && q.rosterState[index] == p.rosterState[index]
    ensures Following(q, shown, t, n)
  {
    hide Identity, Depicted, OrdersKept, Ready;
    forall k | k in shown ensures Known(q, k) { assert Known(p, k); }
    forall i | i in q.rosterSent ensures ShowsChannel(t, q, i) { assert ShowsChannel(t, p, i); }
  }

  lemma FollowingLater(p: Projector, shown: set<string>, t: Tables, n: nat, m: nat)
    requires Following(p, shown, t, n) && n <= m
    ensures Following(p, shown, t, m)
  {
    hide Sound, OneIndexEach, OrdersKept, Older, Known, ShowsChannel;
    OlderStill(t, n, m);
  }

  lemma MembersAreOld(t: Tables, n: nat, key: string)
    requires Older(t, n)
    ensures OldMembers(MembersOf(t, key), n)
  {
  }

  // ---- newcomers ----

  /** The projector after a newcomer. */
  function Arrived(p: Projector, index: nat, user: ChatUser): Projector {
    var ordered := WithOrder(p, index, user.handle);
    var projected := UserReference(p, index, user, ordered.1);
    ordered.0.(rosterState := p.rosterState[index := At(p.rosterState, index)[user.handle := projected]])
  }

  lemma ArrivedOrders(p: Projector, index: nat, user: ChatUser)
    requires OrdersKept(p)
    ensures
      var q := Arrived(p, index, user);
      OrdersKept(q) && ChangedAt(p, q, index) && SameOrders(At(p.rosterState, index), At(q.rosterState, index))
  {
    hide WithOrder, UserReference, CarriesOrders;
    var ordered := WithOrder(p, index, user.handle);
    WithOrderGives(p, index, user.handle);
    var q, known := Arrived(p, index, user), At(p.rosterState, index);
    UserOrder(p, index, user, ordered.1);
    MirrorGrows(known, At(p.rosterOrder, index), At(ordered.0.rosterOrder, index), q.rosterState[index][user.handle]);
    assert forall i :: i in q.rosterState && i != index ==> q.rosterState[i] == p.rosterState[i];
  }

  lemma UserOrder(p: Projector, index: nat, user: ChatUser, order: nat)
    ensures UserReference(p, index, user, order).joinedOrder == Some(order)
  {
  }

  /** A member who was there keeps its order; a newcomer brings its own. */
  lemma MirrorGrows(known: Mirror, orders: map<nat, nat>, more: map<nat, nat>, user: UserRef)
    requires known == map[] || CarriesOrders(known, orders)
    requires forall h :: h in orders ==> h in more && more[h] == orders[h]
    requires user.handle in more && user.joinedOrder == Some(more[user.handle])
    ensures CarriesOrders(known[user.handle := user], more) && SameOrders(known, known[user.handle := user])
  {
  }

  lemma ArrivalIs(p: Projector, index: nat, user: ChatUser)
    ensures
      var r := Caused(p, Chat(UserJoined(index, user)));
      && r.0 == Arrived(p, index, user)
      && r.1 == (if index in p.channels
                 then Some(MemberJoined(Reference(p, p.channels[index]), r.0.rosterState[index][user.handle]))
                     else None)
  {
    hide Reference, UserReference;
    SameReference(p, WithOrder(p, index, user.handle).0, index);
  }

  lemma SameReference(p: Projector, q: Projector, index: nat)
    requires q.channels == p.channels && q.clubNames == p.clubNames && q.publicNames == p.publicNames
    ensures index in p.channels ==> Reference(q, p.channels[index]) == Reference(p, p.channels[index])
  {
  }

  lemma UserJoinedFollows(p: Projector, shown: set<string>, t: Tables, n: nat, index: nat, user: ChatUser,
                          events: seq<Event>, m: nat, receivedAt: nat)
    requires Following(p, shown, t, n) && Carries(events, Emitted(p, Chat(UserJoined(index, user))), n, m)
    ensures Follows(p, shown, t, Chat(UserJoined(index, user)), events, m, receivedAt)
  {
    hide Identity, Reference, Arrived, Following, Depicted, MembersOf, Caused, OrdersKept, Sound, Carries;
    FollowingParts(p, shown, t, n);
    ArrivedOrders(p, index, user);
    ArrivalIs(p, index, user);
    var c := Chat(UserJoined(index, user));
    CausedKeepsSound(p, c);
    var q := Arrived(p, index, user);
    if index in p.channels {
      var kind := Caused(p, c).1.value;
      var e := CarriesOne(t, events, kind, n, m, receivedAt);
      FollowingLater(p, shown, t, n, e.number);
      ReferenceKey(p, p.channels[index]);
      ArrivedMirror(p, index, user);
      if index in p.rosterSent {
        SentShows(p, shown, t, n, index);
        MembersAreOld(t, n, Identity(p.channels[index]));
        JoinDepicts(MembersOf(t, Identity(p.channels[index])), p.rosterState[index], kind.user, e.number, e.ts);
      }
      OwnChannel(p, q, shown, t, e, receivedAt, index);
      FollowingLater(q, ShownBy(shown, kind), Apply(t, e, receivedAt), e.number + 1, m);
    } else {
      CarriesNone(t, events, n, m, receivedAt);
      NothingSent(p, q, shown, t, n, index);
      CarriesUpTo(events, [], n, m);
      FollowingLater(q, shown, t, n, m);
    }
  }

  lemma ArrivedMirror(p: Projector, index: nat, user: ChatUser)
    ensures
      var q := Arrived(p, index, user);
      && index in q.rosterState && user.handle in q.rosterState[index]
      && q.rosterState[index][user.handle].handle == user.handle
      && q.rosterState[index] == At(p.rosterState, index)[user.handle := q.rosterState[index][user.handle]]
  {
    hide WithOrder, UserReference;
  }

  lemma {:induction false} RefreshedKeeps(p: Projector, rosters: seq<Listed>)
    requires Sound(p) && OrdersKept(p)
    ensures
      var q := Refreshed(p, rosters);
      Sound(q) && OrdersKept(q) && q.channels == p.channels && p.rosterSent <= q.rosterSent
    decreases |rosters|
  {
    hide Project, Sound, OrdersKept;
    if rosters != [] {
      var last, before := rosters[|rosters| - 1], Refreshed(p, rosters[..|rosters| - 1]);
      RefreshedKeeps(p, rosters[..|rosters| - 1]);
      ProjectKeepsSound(before, RosterSnapshot(last.index, last.complete, last.users), EVERYTHING);
      SnapshotIs(before, last.index, last.complete, last.users);
      OrdersAfterSnapshot(before, last.index, last.users);
    }
  }

  lemma CausedKeepsSound(p: Projector, c: Cause)
    requires Sound(p)
    ensures c.Resync? || Sound(Caused(p, c).0)
  {
    hide Project, Projection.Leave, Sound;
    match c
    case Chat(e) => ProjectKeepsSound(p, e, EVERYTHING);
    case LeaveCommand(index) => LeaveKeepsSound(p, index, EVERYTHING);
    case _ =>
  }

  lemma FollowingParts(p: Projector, shown: set<string>, t: Tables, n: nat)
    requires Following(p, shown, t, n)
    ensures Sound(p) && OneIndexEach(p) && OrdersKept(p) && Ready(t, n) && t.session.Some? && Older(t, n)
    ensures forall i :: i in p.rosterSent ==> i in p.channels && i in p.rosterState
    ensures forall k :: Open(t, k) <==> k in shown
  {
  }

  lemma SentShows(p: Projector, shown: set<string>, t: Tables, n: nat, i: nat)
    requires Following(p, shown, t, n) && i in p.rosterSent
    ensures i in p.channels && i in p.rosterState
    ensures Open(t, Identity(p.channels[i])) && Depicted(MembersOf(t, Identity(p.channels[i])), p.rosterState[i])
  {
    assert ShowsChannel(t, p, i);
  }

  lemma ReferenceKey(p: Projector, channel: ChatChannel)
    ensures Reference(p, channel).key == Identity(channel)
  {
  }

  // ---- departures ----

  /** The projector after a departure, once the departing member has an order. */
  function Departed(p: Projector, ordered: Projector, index: nat, handle: nat): Projector {
    ordered.(rosterState := p.rosterState[index := At(p.rosterState, index) - {handle}],
             rosterOrder := ordered.rosterOrder[index := At(ordered.rosterOrder, index) - {handle}])
  }

  lemma DepartedOrders(p: Projector, ordered: Projector, index: nat, handle: nat)
    requires OrdersKept(p) && Extends(p, ordered, index)
    requires ordered.rosterState == p.rosterState && ordered.channels == p.channels
        && ordered.rosterSent == p.rosterSent
    ensures
      var q := Departed(p, ordered, index, handle);
      OrdersKept(q) && ChangedAt(p, q, index) && At(q.rosterState, index) == At(p.rosterState, index) - {handle}
  {
    hide CarriesOrders;
    var q := Departed(p, ordered, index, handle);
    CarriesFewer(At(p.rosterState, index), At(p.rosterOrder, index), At(ordered.rosterOrder, index), handle);
    assert forall i :: i in q.rosterState ==> i == index || q.rosterState[i] == p.rosterState[i];
  }

  lemma CarriesFewer(mirror: Mirror, orders: map<nat, nat>, more: map<nat, nat>, handle: nat)
    requires mirror == map[] || CarriesOrders(mirror, orders)
    requires forall h :: h in orders ==> h in more && more[h] == orders[h]
    ensures CarriesOrders(mirror - {handle}, more - {handle})
  {
  }

  lemma OrdersAfterDeparture(p: Projector, index: nat, user: ChatUser)
    requires OrdersKept(p)
    ensures
      var q := Caused(p, Chat(UserLeft(index, user))).0;
      OrdersKept(q) && ChangedAt(p, q, index) && At(q.rosterState, index) == At(p.rosterState, index) - {user.handle}
  {
    hide Identity, Reference, UserReference, WithOrder, OrdersKept, ChangedAt;
    WithOrderGives(p, index, user.handle);
    var ordered := if user.handle in At(p.rosterState, index) then p else WithOrder(p, index, user.handle).0;
    DepartedOrders(p, ordered, index, user.handle);
  }

  lemma DepartureDepicts(members: Members, mirror: Mirror, handle: nat)
    requires Depicted(members, mirror)
    ensures Depicted(members - {handle}, mirror - {handle})
  {
    hide Portrays;
  }

  lemma DepartureIs(p: Projector, index: nat, user: ChatUser)
    requires Sound(p)
    ensures
      var r := Caused(p, Chat(UserLeft(index, user)));
      && (index in p.rosterState ==> index in r.0.rosterState)
      && (if index in p.channels
          then && r.1.Some? && r.1.value.MemberLeft? && r.1.value.channel == Reference(p, p.channels[index])
               && r.1.value.user.handle == user.handle
          else r.1.None?)
  {
    hide Reference;
    SameReference(p, WithOrder(p, index, user.handle).0, index);
  }

  lemma UserLeftFollows(p: Projector, shown: set<string>, t: Tables, n: nat, index: nat, user: ChatUser,
                        events: seq<Event>, m: nat, receivedAt: nat)
    requires Following(p, shown, t, n) && Carries(events, Emitted(p, Chat(UserLeft(index, user))), n, m)
    ensures Follows(p, shown, t, Chat(UserLeft(index, user)), events, m, receivedAt)
  {
    hide Identity, Reference, Following, Depicted, MembersOf, Caused, OrdersKept, Sound, Carries;
    FollowingParts(p, shown, t, n);
    OrdersAfterDeparture(p, index, user);
    DepartureIs(p, index, user);
    var c := Chat(UserLeft(index, user));
    CausedKeepsSound(p, c);
    var q := Caused(p, c).0;
    if index in p.channels {
      var kind := Caused(p, c).1.value;
      var e := CarriesOne(t, events, kind, n, m, receivedAt);
      FollowingLater(p, shown, t, n, e.number);
      ReferenceKey(p, p.channels[index]);
      if index in p.rosterSent {
        SentShows(p, shown, t, n, index);
        DepartureDepicts(MembersOf(t, Identity(p.channels[index])), p.rosterState[index], user.handle);
      }
      OwnChannel(p, q, shown, t, e, receivedAt, index);
      FollowingLater(q, ShownBy(shown, kind), Apply(t, e, receivedAt), e.number + 1, m);
    } else {
      CarriesNone(t, events, n, m, receivedAt);
      NothingSent(p, q, shown, t, n, index);
      CarriesUpTo(events, [], n, m);
      FollowingLater(q, shown, t, n, m);
    }
  }

  // ---- repeated snapshots ----

  /** The cause, its events stored, leaves the feed following the client. */
  ghost predicate Follows(p: Projector, shown: set<string>, t: Tables, c: Cause, events: seq<Event>, m: nat,
                          receivedAt: nat)
    requires t.session.Some?
  {
    Following(Caused(p, c).0, ShownAfter(p, shown, c), ApplyAll(t, events, receivedAt), m)
  }

  /** A repeated snapshot can be followed if and only if it leaves out nobody who was there. */
  lemma SnapshotFollowsIff(p: Projector, shown: set<string>, t: Tables, n: nat, index: nat, users: seq<ChatUser>,
                           events: seq<Event>, m: nat, receivedAt: nat)
    requires Following(p, shown, t, n) && index in p.rosterSent
    requires Carries(events, Emitted(p, Chat(RosterSnapshot(index, true, users))), n, m)
    ensures Follows(p, shown, t, Chat(RosterSnapshot(index, true, users)), events, m, receivedAt)
            <==> At(p.rosterState, index).Keys <= Handles(users)
  {
    hide Identity, Reference, MirrorOf, Following, Depicted, MembersOf, ReconciliationEvents, OrdersKept, Changed,
      UpsertAll, Handles, Carries, Sound, Apply;
    FollowingParts(p, shown, t, n);
    var c := Chat(RosterSnapshot(index, true, users));
    CausedKeepsSound(p, c);
    var q := Caused(p, c).0;
    SnapshotIs(p, index, true, users);
    var known, mirror := p.rosterState[index], MirrorOf(p, index, users).1;
    OrdersAfterSnapshot(p, index, users);
    var key := Identity(p.channels[index]);
    SentShows(p, shown, t, n, index);
    if Changed(mirror, known) == [] {
      CarriesNone(t, events, n, m, receivedAt);
      CarriesUpTo(events, [], n, m);
      MembersAreOld(t, n, key);
      DeltaDepictsIff(MembersOf(t, key), known, mirror, n, 0);
      UpsertNone(MembersOf(t, key), n, 0);
      if known.Keys <= mirror.Keys {
        NothingChanged(known, mirror);
        NothingSent(p, q, shown, t, n, index);
        FollowingLater(q, shown, t, n, m);
      } else {
        DepictsOther(q, shown, t, m, index);
      }
    } else {
      var kind := Caused(p, c).1.value;
      var e := CarriesOne(t, events, kind, n, m, receivedAt);
      FollowingLater(p, shown, t, n, e.number);
      FollowingParts(p, shown, t, e.number);
      MembersAreOld(t, e.number, key);
      DeltaDepictsIff(MembersOf(t, key), known, mirror, e.number, e.ts);
      ReferenceKey(p, p.channels[index]);
      if known.Keys <= mirror.Keys {
        OwnChannel(p, q, shown, t, e, receivedAt, index);
        FollowingLater(q, ShownBy(shown, kind), Apply(t, e, receivedAt), e.number + 1, m);
      } else {
        OneEvent(t, e, receivedAt);
        DepictsOther(q, ShownBy(shown, kind), Apply(t, e, receivedAt), m, index);
      }
    }
  }

  lemma DepictsOther(q: Projector, shown: set<string>, r: Tables, m: nat, index: nat)
    requires index in q.rosterSent && index in q.channels && index in q.rosterState
    requires MembersOf(r, Identity(q.channels[index])).Keys != q.rosterState[index].Keys
    ensures !Following(q, shown, r, m)
  {
    hide Identity;
    if Following(q, shown, r, m) { SentShows(q, shown, r, m, index); }
  }

  lemma NothingChanged(known: Mirror, mirror: Mirror)
    requires Keyed(mirror) && known.Keys <= mirror.Keys && Changed(mirror, known) == []
    ensures mirror == known
  {
    hide Changed;
    ChangedMembers(mirror, known);
    forall h | h in mirror ensures h in known && known[h] == mirror[h] { assert !Has(Changed(mirror, known), h); }
  }

  /** The projector after a complete snapshot of an open channel. */
  function Snapped(p: Projector, index: nat, users: seq<ChatUser>): Projector {
    var r := MirrorOf(p, index, users);
    r.0.(rosterSent := p.rosterSent + {index}, rosterState := p.rosterState[index := r.1])
  }

  lemma SnapshotIs(p: Projector, index: nat, complete: bool, users: seq<ChatUser>)
    ensures
      var r := Project(p, RosterSnapshot(index, complete, users), EVERYTHING);
      if complete && index in p.channels then
        && r.0 == Snapped(p, index, users)
        && (index !in p.rosterSent ==>
              r.1.Some? && r.1.value.Roster? && r.1.value.channel == Reference(p, p.channels[index]))
        && (index in p.rosterSent ==>
              var changed := Changed(MirrorOf(p, index, users).1, At(p.rosterState, index));
              r.1 == if changed == [] then None else Some(RosterDelta(Reference(p, p.channels[index]), changed)))
      else r == (p, None)
  {
    hide MirrorOf, Reference, Changed;
  }

  lemma OrdersAfterSnapshot(p: Projector, index: nat, users: seq<ChatUser>)
    requires OrdersKept(p)
    ensures
      var q, mirror := Snapped(p, index, users), MirrorOf(p, index, users).1;
      && OrdersKept(q) && Keyed(mirror) && mirror.Keys == Handles(users)
      && (index in p.rosterSent ==> ChangedAt(p, q, index)) && SameOrders(At(p.rosterState, index), mirror)
  {
    hide MirrorOf, Handles;
    MirrorOrders(p, index, users);
  }

  // ---- the whole picture again ----

  lemma CarriesBlock(q: Projector, events: seq<Event>, n: nat, m: nat)
    requires Carries(events, Block(q), n, m)
    ensures LiveSync.Reconciled(q, events) && |events| == |Sent(q)| + 2 && n <= events[0].number
    ensures forall e :: e in events ==> e.number < m
  {
    hide ReconciliationEvents, Sent;
    assert events[0] in events;
  }

  lemma MirroredIsDepicted(members: Members, mirror: Mirror, number: nat, ts: nat)
    requires LiveSync.Mirrors(members, mirror, number, ts)
    ensures Depicted(members, mirror)
  {
  }

  lemma SentHas(q: Projector, i: nat) returns (at: nat)
    requires i in q.rosterSent && i in q.channels && i in q.rosterState
    ensures at < |Sent(q)| && Sent(q)[at] == i
  {
    assert i in q.rosterSent * q.channels.Keys * q.rosterState.Keys;
    at :| 0 <= at < |Sent(q)| && Sent(q)[at] == i;
  }

  lemma ShownIsFollowed(q: Projector, r: Tables, events: seq<Event>, i: nat)
    requires |events| == |Sent(q)| + 2 && LiveSync.Shows(r, q, events) && Sound(q) && i in q.rosterSent
    ensures ShowsChannel(r, q, i)
  {
    hide Identity, Sent, LiveSync.Mirrors, Depicted;
    var at := SentHas(q, i);
    assert LiveSync.MirrorsSent(r, q, at, events);
    MirroredIsDepicted(MembersOf(r, Identity(q.channels[i])), q.rosterState[i], events[at + 1].number,
                       events[at + 1].ts);
  }

  /** A block makes a live feed follow the client, whatever its tables held before. */
  lemma BlockFollows(q: Projector, t: Tables, n: nat, events: seq<Event>, m: nat, receivedAt: nat)
    requires Sound(q) && OneIndexEach(q) && OrdersKept(q) && Ready(t, n) && Carries(events, Block(q), n, m)
    ensures t.session.Some? && Following(q, SentKeys(q), ApplyAll(t, events, receivedAt), m)
  {
    hide Identity, Depicted, OrdersKept, ApplyAll, Block, LiveSync.Reconciled, Sent, Older, Carries;
    var r := ApplyAll(t, events, receivedAt);
    CarriesBlock(q, events, n, m);
    CarriesUpTo(events, Block(q), n, m);
    OlderStill(t, n, m);
    ApplyAllOlder(t, events, receivedAt, m);
    SyncSeqBelow(t, events, receivedAt, m);
    LiveSync.LiveAfter(t, events, receivedAt);
    OldIsReady(t, n, events[0].number);
    LiveSync.ReconcileShows(q, t, events, receivedAt);
    forall k ensures Open(r, k) <==> k in SentKeys(q) {
      assert Open(r, k) <==> exists i :: i in q.rosterSent && i in q.channels && Identity(q.channels[i]) == k;
    }
    forall i | i in q.rosterSent ensures ShowsChannel(r, q, i) {
      ShownIsFollowed(q, r, events, i);
    }
  }

  lemma OldIsReady(t: Tables, n: nat, m: nat)
    requires Older(t, n) && n <= m
    ensures OldChannels(t, m)
  {
  }

  lemma NothingToReconcile(q: Projector)
    requires Sound(q)
    ensures ReconciliationEvents(q) == [] <==> q.rosterSent == {}
  {
    assert q.rosterSent * q.channels.Keys * q.rosterState.Keys == q.rosterSent;
    assert |q.rosterSent| == |Sent(q)|;
  }

  lemma FirstSnapshotFollows(p: Projector, shown: set<string>, t: Tables, n: nat, index: nat, users: seq<ChatUser>,
                             events: seq<Event>, m: nat, receivedAt: nat)
    requires Following(p, shown, t, n) && index !in p.rosterSent
    requires Carries(events, Emitted(p, Chat(RosterSnapshot(index, true, users))), n, m)
    ensures Follows(p, shown, t, Chat(RosterSnapshot(index, true, users)), events, m, receivedAt)
  {
    hide Identity, Reference, MirrorOf, Following, ReconciliationEvents, OrdersKept, Values, Handles, SameOrders,
      Carries, Sound, Project, Changed;
    FollowingParts(p, shown, t, n);
    var c := Chat(RosterSnapshot(index, true, users));
    CausedKeepsSound(p, c);
    SnapshotIs(p, index, true, users);
    OrdersAfterSnapshot(p, index, users);
    var q := Caused(p, c).0;
    if index in p.channels {
      NothingToReconcile(q);
      BlockFollows(q, t, n, events, m, receivedAt);
    } else {
      CarriesNone(t, events, n, m, receivedAt);
      CarriesUpTo(events, [], n, m);
      FollowingLater(p, shown, t, n, m);
    }
  }

  /** The periodic reconcile is always followed. */
  lemma ResyncFollows(p: Projector, shown: set<string>, t: Tables, n: nat, rosters: seq<Listed>,
                      events: seq<Event>, m: nat, receivedAt: nat)
    requires Following(p, shown, t, n) && Carries(events, Emitted(p, Resync(rosters)), n, m)
    ensures Follows(p, shown, t, Resync(rosters), events, m, receivedAt)
  {
    hide Following, ReconciliationEvents, OrdersKept, Carries, Sound, Refreshed;
    FollowingParts(p, shown, t, n);
    var q := Refreshed(p, rosters);
    RefreshedKeeps(p, rosters);
    NothingToReconcile(q);
    if q.rosterSent == {} {
      CarriesNone(t, events, n, m, receivedAt);
      CarriesUpTo(events, [], n, m);
      NothingShown(p, q, shown, t, n);
      FollowingLater(q, shown, t, n, m);
    } else {
      BlockFollows(q, t, n, events, m, receivedAt);
    }
  }

  lemma NothingShown(p: Projector, q: Projector, shown: set<string>, t: Tables, n: nat)
    requires Following(p, shown, t, n) && Sound(q) && OrdersKept(q) && q.channels == p.channels && q.rosterSent == {}
    ensures Following(q, shown, t, n)
  {
    hide Identity, OrdersKept, Ready;
    forall k | k in shown ensures Known(q, k) { assert Known(p, k); }
  }

  // ---- joining and leaving channels ----

  /** The projector after the local user joined a channel. */
  function Entered(p: Projector, index: nat, channel: ChatChannel, localHandle: nat): Projector {
    Projection.Forget(p, index).(channels := p.channels[index := channel],
                                 localHandles := p.localHandles[index := localHandle])
  }

  lemma EnteredKeeps(p: Projector, shown: set<string>, t: Tables, r: Tables, n: nat, index: nat, channel: ChatChannel,
                     localHandle: nat)
    requires Following(p, shown, t, n) && JoinFits(p, shown, index, channel)
    requires forall i :: i in p.rosterSent && i != index ==>
               && i in p.channels && Open(r, Identity(p.channels[i]))
               && MembersOf(r, Identity(p.channels[i])) == MembersOf(t, Identity(p.channels[i]))
    ensures
      var q := Entered(p, index, channel, localHandle);
      && Sound(q) && OneIndexEach(q) && OrdersKept(q)
      && (forall k :: k in shown + {Identity(channel)} ==> Known(q, k))
      && (forall i :: i in q.rosterSent ==> ShowsChannel(r, q, i))
  {
    hide Identity, Depicted, Ready, MembersOf, Open;
    var q := Entered(p, index, channel, localHandle);
    assert index in q.channels && q.channels[index] == channel;
    forall k | k in shown && k != Identity(channel) ensures Known(q, k) {
      assert Known(p, k);
      var i :| i in p.channels && Identity(p.channels[i]) == k;
      assert i != index && q.channels[i] == p.channels[i];
    }
    forall i | i in q.rosterSent ensures ShowsChannel(r, q, i) { assert ShowsChannel(t, p, i); }
  }

  /** A channel the feed has open, whose index went to another channel, is known to the client no more. */
  lemma EnteredLoses(p: Projector, shown: set<string>, t: Tables, n: nat, index: nat, channel: ChatChannel,
                     localHandle: nat)
    requires Following(p, shown, t, n) && !JoinFits(p, shown, index, channel)
    ensures
      var q := Entered(p, index, channel, localHandle);
      || !OneIndexEach(q)
      || (index in p.channels && Identity(p.channels[index]) in shown && !Known(q, Identity(p.channels[index])))
  {
    hide Identity, Ready, ShowsChannel, OrdersKept;
    var q := Entered(p, index, channel, localHandle);
    if i :| i in p.channels && p.channels[i] == channel && i != index {
      assert q.channels[i] == channel && q.channels[index] == channel;
    } else {
      var held := p.channels[index];
      forall i | i in q.channels ensures Identity(q.channels[i]) != Identity(held) {
        assert q.channels[i] != held;
        if Identity(q.channels[i]) == Identity(held) { LiveSync.IdentityInjective(q.channels[i], held); }
      }
    }
  }

  /** A join can be followed if and only if it fits. */
  lemma ChannelJoinedFollowsIff(p: Projector, shown: set<string>, t: Tables, n: nat, index: nat, channel: ChatChannel,
                                localHandle: nat, events: seq<Event>, m: nat, receivedAt: nat)
    requires Following(p, shown, t, n)
    requires Carries(events, Emitted(p, Chat(ChannelJoined(index, channel, localHandle))), n, m)
    ensures Follows(p, shown, t, Chat(ChannelJoined(index, channel, localHandle)), events, m, receivedAt)
            <==> JoinFits(p, shown, index, channel)
  {
    hide Identity, Reference, Depicted, ReconciliationEvents, Ready, Apply, Known, ShowsChannel, Sound, OneIndexEach,
      OrdersKept, Projection.Forget, MembersOf, Open, Carries, JoinFits;
    FollowingParts(p, shown, t, n);
    var q := Entered(p, index, channel, localHandle);
    var kind := Joined(Reference(q, channel));
    var e := CarriesOne(t, events, kind, n, m, receivedAt);
    FollowingLater(p, shown, t, n, e.number);
    FollowingParts(p, shown, t, e.number);
    ReferenceKey(q, channel);
    OneEvent(t, e, receivedAt);
    ReadyAfter(t, e, receivedAt);
    var r := Apply(t, e, receivedAt);
    forall i | i in p.rosterSent && i != index
      ensures i in p.channels && Open(r, Identity(p.channels[i]))
      ensures MembersOf(r, Identity(p.channels[i])) == MembersOf(t, Identity(p.channels[i]))
    {
      SentShows(p, shown, t, n, i);
    }
    if JoinFits(p, shown, index, channel) {
      EnteredKeeps(p, shown, t, r, n, index, channel, localHandle);
      FollowingLater(q, ShownBy(shown, kind), r, e.number + 1, m);
    } else {
      EnteredLoses(p, shown, t, n, index, channel, localHandle);
    }
  }

  /** A channel other than the one given up is known, and shown, as before. */
  lemma ForgottenKeeps(p: Projector, shown: set<string>, t: Tables, r: Tables, n: nat, index: nat, fewer: set<string>)
    requires Following(p, shown, t, n)
    requires fewer == if index in p.channels then shown - {Identity(p.channels[index])} else shown
    requires forall i :: i in p.rosterSent && i != index ==>
               && i in p.channels && Open(r, Identity(p.channels[i]))
               && MembersOf(r, Identity(p.channels[i])) == MembersOf(t, Identity(p.channels[i]))
    ensures
      var q := Projection.Forget(p, index);
      && Sound(q) && OneIndexEach(q) && OrdersKept(q)
      && (forall k :: k in fewer ==> Known(q, k))
      && (forall i :: i in q.rosterSent ==> ShowsChannel(r, q, i))
  {
    hide Identity, Depicted, Ready, MembersOf, Open;
    var q := Projection.Forget(p, index);
    forall k | k in fewer ensures Known(q, k) {
      assert Known(p, k);
      var i :| i in p.channels && Identity(p.channels[i]) == k;
      assert i in q.channels;
    }
    forall i | i in q.rosterSent ensures ShowsChannel(r, q, i) { assert ShowsChannel(t, p, i); }
  }

  lemma GoneIs(p: Projector, index: nat, c: Cause)
    requires c == LeaveCommand(index) || c == Chat(Removed(index))
    ensures
      var kind := if index in p.channels then Some(Left(Reference(p, p.channels[index]))) else None;
      Caused(p, c) == (Projection.Forget(p, index), kind)
  {
    hide Reference;
  }

  lemma GoneFollows(p: Projector, shown: set<string>, t: Tables, n: nat, index: nat, c: Cause, events: seq<Event>,
                    m: nat, receivedAt: nat)
    requires Following(p, shown, t, n) && (c == LeaveCommand(index) || c == Chat(Removed(index)))
    requires Carries(events, Emitted(p, c), n, m)
    ensures Follows(p, shown, t, c, events, m, receivedAt)
  {
    hide Identity, Reference, Depicted, ReconciliationEvents, Ready, Apply, Known, ShowsChannel, Sound, OneIndexEach,
      OrdersKept, Projection.Forget, MembersOf, Open, Carries, Caused;
    FollowingParts(p, shown, t, n);
    GoneIs(p, index, c);
    var q := Projection.Forget(p, index);
    if index in p.channels {
      var kind := Left(Reference(p, p.channels[index]));
      var e := CarriesOne(t, events, kind, n, m, receivedAt);
      ReferenceKey(p, p.channels[index]);
      FollowingLater(p, shown, t, n, e.number);
      LeftFollows(p, shown, t, e, receivedAt, index);
      FollowingLater(q, ShownBy(shown, kind), Apply(t, e, receivedAt), e.number + 1, m);
    } else {
      CarriesNone(t, events, n, m, receivedAt);
      CarriesUpTo(events, [], n, m);
      forall i | i in p.rosterSent ensures i in p.channels && Open(t, Identity(p.channels[i])) {
        SentShows(p, shown, t, n, i);
      }
      ForgottenKeeps(p, shown, t, t, n, index, shown);
      FollowingLater(q, shown, t, n, m);
    }
  }

  lemma LeftFollows(p: Projector, shown: set<string>, t: Tables, e: Event, receivedAt: nat, index: nat)
    requires Following(p, shown, t, e.number) && t.session.Some? && index in p.channels
    requires e.kind.Left? && e.kind.channel.key == Identity(p.channels[index])
    ensures Following(Projection.Forget(p, index), ShownBy(shown, e.kind), Apply(t, e, receivedAt), e.number + 1)
  {
    hide Identity, Depicted, Ready, Apply, Known, ShowsChannel, Sound, OneIndexEach, OrdersKept, Projection.Forget,
      MembersOf, Open;
    FollowingParts(p, shown, t, e.number);
    OneEvent(t, e, receivedAt);
    ReadyAfter(t, e, receivedAt);
    forall i | i in p.rosterSent && i != index
      ensures i in p.channels && Open(t, Identity(p.channels[i]))
          && Identity(p.channels[i]) != Identity(p.channels[index])
    {
      SentShows(p, shown, t, e.number, i);
      KeysDiffer(p, i, index);
    }
    ForgottenKeeps(p, shown, t, Apply(t, e, receivedAt), e.number, index, ShownBy(shown, e.kind));
  }

  // ---- everything else ----

  /** Causes that leave every mirror alone. */
  predicate Passing(c: Cause) {
    || c.Beat?
    || (c.Chat? && (c.event.GroupSummary? || c.event.PublicChannelCatalog? || c.event.Said? || c.event.Unprojected?
                    || (c.event.RosterSnapshot? && !c.event.initialComplete)))
  }

  /** They send at most a heartbeat, or a join or a message on a channel the client is in. */
  lemma PassingIsHarmless(p: Projector, c: Cause)
    requires Passing(c)
    ensures
      var r := Caused(p, c);
      && r.0.channels == p.channels && r.0.rosterSent == p.rosterSent && r.0.rosterState == p.rosterState
      && r.0.rosterOrder == p.rosterOrder
      && (r.1.Some? && !r.1.value.Heartbeat? ==>
            && (r.1.value.Joined? || r.1.value.Message?)
            && Known(p, ChannelOf(r.1.value).value.key))
  {
    hide Known, Reference, Speaker, Truncated, ClubChannel;
    if c.Chat? {
      match c.event
      case GroupSummary(clubId, Some(name)) =>
        var q := p.(clubNames := p.clubNames[clubId := name]);
        if ClubChannel(q, clubId).Some? { NamedIsKnown(p, q, clubId); }
      case Said(index, _, _) =>
        if index in p.channels { EnteredIsKnown(p, index); }
      case _ =>
    }
  }

  lemma EnteredIsKnown(p: Projector, index: nat)
    requires index in p.channels
    ensures Known(p, Reference(p, p.channels[index]).key)
  {
    hide Identity;
    ReferenceKey(p, p.channels[index]);
  }

  lemma NamedIsKnown(p: Projector, q: Projector, clubId: nat)
    requires q.channels == p.channels && ClubChannel(q, clubId).Some?
    ensures Known(p, Reference(q, ClubChannel(q, clubId).value).key)
  {
    hide Identity;
    ReferenceKey(q, Club(clubId));
  }

  lemma PassingKeeps(p: Projector, c: Cause)
    requires Passing(c) && Sound(p) && OrdersKept(p)
    ensures
      var q := Caused(p, c).0;
      Sound(q) && OrdersKept(q) && ChangedAt(p, q, 0)
  {
    hide Caused, CarriesOrders, Known;
    PassingIsHarmless(p, c);
  }

  lemma PassingFollows(p: Projector, shown: set<string>, t: Tables, n: nat, c: Cause, events: seq<Event>, m: nat,
                       receivedAt: nat)
    requires Following(p, shown, t, n) && Passing(c) && Carries(events, Emitted(p, c), n, m)
    ensures Follows(p, shown, t, c, events, m, receivedAt)
  {
    hide Identity, Following, Sound, OrdersKept, ReconciliationEvents, Apply, Caused, Carries, ChangedAt;
    FollowingParts(p, shown, t, n);
    PassingIsHarmless(p, c);
    PassingKeeps(p, c);
    var q := Caused(p, c).0;
    NothingSent(p, q, shown, t, n, 0);
    if Caused(p, c).1.None? {
      CarriesNone(t, events, n, m, receivedAt);
      CarriesUpTo(events, [], n, m);
      FollowingLater(q, shown, t, n, m);
    } else {
      var kind := Caused(p, c).1.value;
      var e := CarriesOne(t, events, kind, n, m, receivedAt);
      if kind.Heartbeat? {
        BeatChangesNothing(t, e, receivedAt);
        FollowingLater(q, shown, t, n, m);
      } else {
        var i :| i in p.channels && Identity(p.channels[i]) == ChannelOf(kind).value.key;
        FollowingLater(q, shown, t, n, e.number);
        MentionFollows(q, shown, t, e, receivedAt, i);
        FollowingLater(q, ShownBy(shown, kind), Apply(t, e, receivedAt), e.number + 1, m);
      }
    }
  }

  lemma MentionFollows(q: Projector, shown: set<string>, t: Tables, e: Event, receivedAt: nat, i: nat)
    requires Following(q, shown, t, e.number) && t.session.Some? && (e.kind.Joined? || e.kind.Message?)
    requires i in q.channels && e.kind.channel.key == Identity(q.channels[i])
    ensures Following(q, ShownBy(shown, e.kind), Apply(t, e, receivedAt), e.number + 1)
  {
    hide Identity, Depicted, Apply, ShowsChannel, Ready, Sound, OrdersKept, OneIndexEach;
    FollowingParts(q, shown, t, e.number);
    if i in q.rosterSent { SentShows(q, shown, t, e.number, i); }
    OwnChannel(q, q, shown, t, e, receivedAt, i);
  }

  lemma BeatChangesNothing(t: Tables, e: Event, receivedAt: nat)
    requires t.session.Some? && e.kind.Heartbeat?
    ensures Apply(t, e, receivedAt) == t
  {
  }

  /** One cause, its events stored without loss, leaves the feed following the client if and only if it is
      harmless. */
  lemma CauseFollowsIff(p: Projector, shown: set<string>, t: Tables, n: nat, c: Cause, events: seq<Event>, m: nat,
                        receivedAt: nat)
    requires Following(p, shown, t, n) && Carries(events, Emitted(p, c), n, m)
    ensures t.session.Some? && (Follows(p, shown, t, c, events, m, receivedAt) <==> Harmless(p, shown, c))
  {
    hide Following, Caused, Emitted, Follows, Carries, JoinFits, Handles;
    FollowingParts(p, shown, t, n);
    match c
    case LeaveCommand(index) => GoneFollows(p, shown, t, n, index, c, events, m, receivedAt);
    case Resync(rosters) => ResyncFollows(p, shown, t, n, rosters, events, m, receivedAt);
    case Beat => PassingFollows(p, shown, t, n, c, events, m, receivedAt);
    case Chat(ChannelJoined(index, channel, localHandle)) =>
      ChannelJoinedFollowsIff(p, shown, t, n, index, channel, localHandle, events, m, receivedAt);
    case Chat(UserJoined(index, user)) => UserJoinedFollows(p, shown, t, n, index, user, events, m, receivedAt);
    case Chat(UserLeft(index, user)) => UserLeftFollows(p, shown, t, n, index, user, events, m, receivedAt);
    case Chat(Removed(index)) => GoneFollows(p, shown, t, n, index, c, events, m, receivedAt);
    case Chat(RosterSnapshot(index, complete, users)) =>
      if !complete {
        PassingFollows(p, shown, t, n, c, events, m, receivedAt);
      } else if index in p.rosterSent {
        SnapshotFollowsIff(p, shown, t, n, index, users, events, m, receivedAt);
      } else {
        FirstSnapshotFollows(p, shown, t, n, index, users, events, m, receivedAt);
      }
    case Chat(_) => PassingFollows(p, shown, t, n, c, events, m, receivedAt);
  }
}
