/** The client's picture of a StarCraft II session: which chat events become wire events, and the roster
    mirror they leave behind (app/src/uplink/model.rs, `Projector`). */
module Projection {
  import opened Common
  import opened Chat
  import opened Names
  import opened Wire

  datatype ChatEvent =
    | ChannelJoined(index: nat, channel: ChatChannel, localHandle: nat)
    | GroupSummary(clubId: nat, name: Option<string>)
    | PublicChannelCatalog(names: map<nat, string>)
    | RosterSnapshot(index: nat, initialComplete: bool, users: seq<ChatUser>)
    | UserJoined(index: nat, user: ChatUser)
    | UserLeft(index: nat, user: ChatUser)
    | Removed(index: nat)
    | Said(index: nat, sender: ChatUser, body: string)
    | Unprojected

  datatype Gates = Gates(enabled: bool, shared: Option<set<string>>)

  type Mirror = map<nat, UserRef>

  datatype Projector = Projector(
    channels: map<nat, ChatChannel>, localHandles: map<nat, nat>, rosterSent: set<nat>,
    rosterState: map<nat, Mirror>, rosterOrder: map<nat, map<nat, nat>>, nextOrder: map<nat, nat>,
    clubNames: map<nat, string>, publicNames: map<nat, string>)

  const NEW := Projector(map[], map[], {}, map[], map[], map[], map[], map[])

  function Digits(n: nat): string {
    if n < 10 then [('0' as int + n) as char] else Digits(n / 10) + [('0' as int + n % 10) as char]
  }

  /** `channel_identity`: the key the server stores a channel under. */
  function Identity(channel: ChatChannel): string {
    match channel
    case Public(id) => "public:" + Digits(id)
    case Private(name) => "private:" + name
    case Club(id) => "club:" + Digits(id)
    case Party => "party"
  }

  function Title(channel: ChatChannel): string {
    match channel
    case Public(id) => if id == 1033 then "General" else "Public " + Digits(id)
    case Private(name) => name
    case Club(id) => "Group " + Digits(id)
    case Party => "Party"
  }

  function Lookup<K, V>(m: map<K, V>, k: K): Option<V> { if k in m then Some(m[k]) else None }

  function Reference(p: Projector, channel: ChatChannel): ChannelRef {
    ChannelRef(Identity(channel),
      match channel
      case Club(id) => Lookup(p.clubNames, id)
      case Public(id) => if id in p.publicNames then Some(p.publicNames[id]) else Some(Title(channel))
      case _ => Some(Title(channel)))
  }

  function SharedReference(p: Projector, channel: ChatChannel, shared: Option<set<string>>): Option<ChannelRef> {
    if shared.None? || Identity(channel) in shared.value then Some(Reference(p, channel)) else None
  }

  function SharedIndex(p: Projector, index: nat, shared: Option<set<string>>): Option<ChannelRef> {
    if index in p.channels then SharedReference(p, p.channels[index], shared) else None
  }

  function At<V>(m: map<nat, map<nat, V>>, index: nat): map<nat, V> { if index in m then m[index] else map[] }

  const U64_MAX := 0xFFFF_FFFF_FFFF_FFFF

  /** `roster_user_ref`: a member keeps the order it was first seen in. */
  function WithOrder(p: Projector, index: nat, handle: nat): (r: (Projector, nat))
    ensures r.0.channels == p.channels && r.0.rosterSent == p.rosterSent && r.0.rosterState == p.rosterState
    ensures r.0.localHandles == p.localHandles && r.0.clubNames == p.clubNames && r.0.publicNames == p.publicNames
  {
    if handle in At(p.rosterOrder, index) then (p, p.rosterOrder[index][handle])
    else
      var order := if index in p.nextOrder then p.nextOrder[index] else 0;
      (p.(nextOrder := p.nextOrder[index := if order < U64_MAX then order + 1 else order],
          rosterOrder := p.rosterOrder[index := At(p.rosterOrder, index)[handle := order]]),
       order)
  }

  function VisibleName(user: ChatUser): Option<string> {
    if user.name.Some? then Some(StripCode(user.name.value)) else None
  }

  /** The author of a message: neither presence nor place in the roster goes with it. */
  function Speaker(user: ChatUser): UserRef {
    UserRef(user.handle, VisibleName(user), user.clanTag, None, user.avatar, None, None, None, None)
  }

  function UserReference(p: Projector, index: nat, user: ChatUser, order: nat): (u: UserRef)
    ensures u.handle == user.handle
  {
    UserRef(user.handle, VisibleName(user), user.clanTag, Some(user.presence), user.avatar,
            Some(index in p.localHandles && p.localHandles[index] == user.handle), Some(order), None, None)
  }

  function MirrorOf(p: Projector, index: nat, users: seq<ChatUser>): (r: (Projector, Mirror))
    ensures r.0.channels == p.channels && r.0.rosterSent == p.rosterSent && r.0.rosterState == p.rosterState
    ensures forall h :: h in r.1 ==> r.1[h].handle == h
    decreases |users|
  {
    if users == [] then (p, map[])
    else
      var before := MirrorOf(p, index, users[..|users| - 1]);
      var user := users[|users| - 1];
      var ordered := WithOrder(before.0, index, user.handle);
      (ordered.0, before.1[user.handle := UserReference(p, index, user, ordered.1)])
  }

  /** A map's values in the order of its keys. */
  function Values<V>(m: map<nat, V>): (r: seq<V>)
    ensures |r| == |m|
  {
    var keys := Ascending(m.Keys);
    seq(|keys|, i requires 0 <= i < |keys| => var k: nat := keys[i]; m[k])
  }

  function Forget(p: Projector, index: nat): Projector {
    p.(channels := p.channels - {index}, localHandles := p.localHandles - {index}, rosterSent := p.rosterSent - {index},
       rosterState := p.rosterState - {index}, rosterOrder := p.rosterOrder - {index},
           nextOrder := p.nextOrder - {index})
  }

  /** `leave`: forgets the index, and names the channel to announce as closed. */
  function Leave(p: Projector, index: nat, gates: Gates): (Projector, Option<ChannelRef>) {
    (Forget(p, index), if gates.enabled then SharedIndex(p, index, gates.shared) else None)
  }

  /** Bookkeeping that runs even while sharing is off. */
  function Learn(p: Projector, e: ChatEvent): Projector {
    match e
    case ChannelJoined(index, channel, localHandle) =>
      Forget(p, index).(channels := p.channels[index := channel], localHandles := p.localHandles[index := localHandle])
    case GroupSummary(clubId, Some(name)) => p.(clubNames := p.clubNames[clubId := name])
    case PublicChannelCatalog(names) => p.(publicNames := names)
    case _ => p
  }

  function Mapped(channel: Option<ChannelRef>, kind: ChannelRef -> EventKind): Option<EventKind> {
    if channel.Some? then Some(kind(channel.value)) else None
  }

  /** The members a snapshot changes, in the order of their handles. */
  function Changed(mirror: Mirror, known: Mirror): seq<UserRef> {
    Values(map h | h in mirror && !(h in known && known[h] == mirror[h]) :: mirror[h])
  }

  function ProjectRoster(p: Projector, index: nat, users: seq<ChatUser>, shared: Option<set<string>>): (Projector,
      Option<EventKind>) {
    var channel := SharedIndex(p, index, shared);
    if channel.None? then (p, None)
    else
      var mirrored := MirrorOf(p, index, users);
      var stored := mirrored.0.(rosterSent := p.rosterSent + {index},
                                rosterState := p.rosterState[index := mirrored.1]);
      if index in p.rosterSent then
        var changed := Changed(mirrored.1, At(p.rosterState, index));
        (stored, if changed == [] then None else Some(RosterDelta(channel.value, changed)))
      else
        (stored, Some(Roster(channel.value, true, Values(mirrored.1))))
  }

  /** The club channel, if open, that a group summary names. */
  function ClubChannel(p: Projector, clubId: nat): Option<ChatChannel> {
    if exists i :: i in p.channels && p.channels[i] == Club(clubId) then Some(Club(clubId)) else None
  }

  /** `project`: what the event does to the projector and what it sends. */
  function Project(p: Projector, e: ChatEvent, gates: Gates): (Projector, Option<EventKind>) {
    var q := Learn(p, e);
    if !gates.enabled then (q, None)
    else
      match e
      case ChannelJoined(_, channel, _) => (q, Mapped(SharedReference(q, channel, gates.shared), c => Joined(c)))
      case RosterSnapshot(index, initialComplete, users) =>
        if initialComplete then ProjectRoster(q, index, users, gates.shared) else (q, None)
      case UserJoined(index, user) =>
        var ordered := WithOrder(q, index, user.handle);
        var projected := UserReference(q, index, user, ordered.1);
        (ordered.0.(rosterState := q.rosterState[index := At(q.rosterState, index)[user.handle := projected]]),
         Mapped(SharedIndex(q, index, gates.shared), c => MemberJoined(c, projected)))
      case UserLeft(index, user) =>
        var known := At(q.rosterState, index);
        var ordered := if user.handle in known then (q, 0) else WithOrder(q, index, user.handle);
        var projected := if user.handle in known then known[user.handle] else UserReference(q, index, user, ordered.1);
        (ordered.0.(rosterState := q.rosterState[index := known - {user.handle}],
                    rosterOrder := ordered.0.rosterOrder[index := At(ordered.0.rosterOrder, index) - {user.handle}]),
         Mapped(SharedIndex(q, index, gates.shared), c => MemberLeft(c, projected)))
      case Removed(index) =>
        var left := Leave(q, index, gates);
        (left.0, Mapped(left.1, c => Left(c)))
      case GroupSummary(clubId, Some(_)) =>
        var named := ClubChannel(q, clubId);
        (q, if named.Some? then Mapped(SharedReference(q, named.value, gates.shared), c => Joined(c)) else None)
      case Said(index, sender, body) =>
        (q, Mapped(SharedIndex(q, index, gates.shared), c =>
                   Message(c, "talk", Some(Speaker(sender)), Truncated(body))))
      case _ => (q, None)
  }

  /** Channels whose roster has been sent, in the order of their indices. */
  function Sent(p: Projector): seq<int> {
    Ascending(p.rosterSent * p.channels.Keys * p.rosterState.Keys)
  }

  /** `reconciliation_events` without an allow-list: one complete roster for each channel already sent. */
  function ReconciliationEvents(p: Projector): (r: seq<EventKind>)
    ensures |r| == |Sent(p)|
  {
    var indices := Sent(p);
    seq(|indices|, i requires 0 <= i < |indices| =>
      var k: nat := indices[i]; Roster(Reference(p, p.channels[k]), true, Values(p.rosterState[k])))
  }

  /** The object of the source: maps updated in place, event by event. */
  class LiveProjector {
    var channels: map<nat, ChatChannel>
    var localHandles: map<nat, nat>
    var rosterSent: set<nat>
    var rosterState: map<nat, Mirror>
    var rosterOrder: map<nat, map<nat, nat>>
    var nextOrder: map<nat, nat>
    var clubNames: map<nat, string>
    var publicNames: map<nat, string>

    constructor (knownClubs: map<nat, string>)
      ensures Value() == NEW.(clubNames := knownClubs)
    {
      channels, localHandles, rosterSent, rosterState := map[], map[], {}, map[];
      rosterOrder, nextOrder, clubNames, publicNames := map[], map[], knownClubs, map[];
    }

    function Value(): Projector
      reads this
    {
      Projector(channels, localHandles, rosterSent, rosterState, rosterOrder, nextOrder, clubNames, publicNames)
    }

    method RosterUserRef(index: nat, user: ChatUser) returns (u: UserRef)
      modifies this`rosterOrder, this`nextOrder
      ensures
        var ordered := WithOrder(old(Value()), index, user.handle);
        Value() == ordered.0 && u == UserReference(old(Value()), index, user, ordered.1)
    {
      var order: nat := 0;
      if user.handle in At(rosterOrder, index) {
        order := rosterOrder[index][user.handle];
      } else {
        if index in nextOrder {
          order := nextOrder[index];
        }
        nextOrder := nextOrder[index := if order < U64_MAX then order + 1 else order];
        rosterOrder := rosterOrder[index := At(rosterOrder, index)[user.handle := order]];
      }
      u := UserReference(Value(), index, user, order);
    }

    method MirrorRoster(index: nat, users: seq<ChatUser>) returns (mirror: Mirror)
      modifies this`rosterOrder, this`nextOrder
      ensures (Value(), mirror) == MirrorOf(old(Value()), index, users)
    {
      hide WithOrder;
      mirror := map[];
      for i := 0 to |users|
        invariant (Value(), mirror) == MirrorOf(old(Value()), index, users[..i])
      {
        assert users[..i + 1][..i] == users[..i];
        var u := RosterUserRef(index, users[i]);
        mirror := mirror[users[i].handle := u];
      }
      assert users[..|users|] == users;
    }

    method LeaveChannel(index: nat, gates: Gates) returns (announced: Option<ChannelRef>)
      modifies this
      ensures (Value(), announced) == Leave(old(Value()), index, gates)
    {
      announced := if gates.enabled then SharedIndex(Value(), index, gates.shared) else None;
      channels := channels - {index};
      localHandles := localHandles - {index};
      rosterSent := rosterSent - {index};
      rosterState := rosterState - {index};
      rosterOrder := rosterOrder - {index};
      nextOrder := nextOrder - {index};
    }

    method LearnStructure(e: ChatEvent)
      modifies this
      ensures Value() == Learn(old(Value()), e)
    {
      match e {
        case ChannelJoined(index, channel, localHandle) =>
          channels := channels[index := channel];
          localHandles := localHandles[index := localHandle];
          rosterSent := rosterSent - {index};
          rosterState := rosterState - {index};
          rosterOrder := rosterOrder - {index};
          nextOrder := nextOrder - {index};
        case GroupSummary(clubId, Some(name)) => clubNames := clubNames[clubId := name];
        case PublicChannelCatalog(names) => publicNames := names;
        case _ =>
      }
    }

    method ObserveRoster(index: nat, users: seq<ChatUser>, shared: Option<set<string>>) returns (out: Option<EventKind>)
      modifies this
      ensures (Value(), out) == ProjectRoster(old(Value()), index, users, shared)
    {
      hide MirrorOf, SharedReference, Values;
      var channel := SharedIndex(Value(), index, shared);
      if channel.None? {
        return None;
      }
      var mirror := MirrorRoster(index, users);
      if index in rosterSent {
        var changed := Changed(mirror, At(rosterState, index));
        rosterState := rosterState[index := mirror];
        assert rosterSent + {index} == rosterSent;
        return if changed == [] then None else Some(RosterDelta(channel.value, changed));
      }
      rosterSent := rosterSent + {index};
      rosterState := rosterState[index := mirror];
      return Some(Roster(channel.value, true, Values(mirror)));
    }

    method Observe(e: ChatEvent, gates: Gates) returns (out: Option<EventKind>)
      modifies this
      ensures (Value(), out) == Project(old(Value()), e, gates)
    {
      hide Learn, ProjectRoster, UserReference, Title, Identity;
      LearnStructure(e);
      if !gates.enabled {
        return None;
      }
      match e {
        case ChannelJoined(_, channel, _) =>
          out := Mapped(SharedReference(Value(), channel, gates.shared), c => Joined(c));
        case RosterSnapshot(index, initialComplete, users) =>
          if !initialComplete {
            return None;
          }
          out := ObserveRoster(index, users, gates.shared);
        case UserJoined(index, user) =>
          var projected := RosterUserRef(index, user);
          rosterState := rosterState[index := At(rosterState, index)[user.handle := projected]];
          out := Mapped(SharedIndex(Value(), index, gates.shared), c => MemberJoined(c, projected));
        case UserLeft(index, user) =>
          var known: Mirror := At(rosterState, index);
          var projected: UserRef;
          if user.handle in known {
            projected := known[user.handle];
          } else {
            projected := RosterUserRef(index, user);
          }
          rosterState := rosterState[index := known - {user.handle}];
          rosterOrder := rosterOrder[index := At(rosterOrder, index) - {user.handle}];
          out := Mapped(SharedIndex(Value(), index, gates.shared), c => MemberLeft(c, projected));
        case Removed(index) =>
          var left := LeaveChannel(index, gates);
          out := Mapped(left, c => Left(c));
        case GroupSummary(clubId, Some(_)) =>
          var named := ClubChannel(Value(), clubId);
          out := if named.Some? then Mapped(SharedReference(Value(), named.value, gates.shared), c => Joined(c))
              else None;
        case Said(index, sender, body) =>
          out := Mapped(SharedIndex(Value(), index, gates.shared), c =>
                        Message(c, "talk", Some(Speaker(sender)), Truncated(body)));
        case _ => out := None;
      }
    }
  }

  // ---- invariant ----

  /** Mirrors are keyed by handle, and a channel counted as sent is open and has a mirror. */
  ghost predicate Sound(p: Projector) {
    && (forall i :: i in p.rosterSent ==> i in p.channels && i in p.rosterState)
    && (forall i, h :: i in p.rosterState && h in p.rosterState[i] ==> p.rosterState[i][h].handle == h)
  }

  lemma ProjectKeepsSound(p: Projector, e: ChatEvent, gates: Gates)
    requires Sound(p)
    ensures Sound(Project(p, e, gates).0)
  {
    hide Values, Reference, UserReference;
  }

  lemma LeaveKeepsSound(p: Projector, index: nat, gates: Gates)
    requires Sound(p)
    ensures Sound(Leave(p, index, gates).0)
  {
  }
}
