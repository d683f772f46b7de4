/** Which channel a gateway session shows its legacy client (gateway/src/sc2.rs). Every command goes to the
    network worker, and whether the worker is still there is a parameter of each call that sends one. */
module Channels {
  import opened Common
  import opened Chat
  import opened Names

  type Users = map<nat, ChatUser>

  datatype ChannelState = ChannelState(channel: Option<ChatChannel>, localHandle: Option<nat>, users: Users)

  datatype Command = JoinChannel(channel: ChatChannel) | LeaveChannel(index: nat)

  /** A user without a name is shown under its handle. */
  datatype User = User(handle: nat, shown: Option<string>)

  datatype Event =
    | Joined(index: nat)
    | RosterChanged(index: nat)
    | MemberJoined(index: nat, user: User)
    | MemberLeft(index: nat, user: User)
    | Message(index: nat, sender: User, body: string, outgoing: bool)
    | Error

  datatype Session = Session(
    channels: map<nat, ChannelState>, active: Option<nat>, pendingChannel: Option<ChatChannel>,
    pendingAnnouncement: Option<nat>, toonName: string)

  /** `Refused` leaves the session as it was; after `Broken` the worker is gone. */
  datatype Result = Done(event: Option<Event>, sent: seq<Command>) | Refused | Broken

  const SILENT := Done(None, [])

  // ---- names ----

  function LegacyName(u: ChatUser): Option<string> {
    if u.name.Some? then Some(StripCode(u.name.value)) else None
  }

  function Shown(u: ChatUser): User { User(u.handle, LegacyName(u)) }

  function ByHandle(users: seq<ChatUser>): Users {
    if users == [] then map[] else ByHandle(users[..|users| - 1])[users[|users| - 1].handle := users[|users| - 1]]
  }

  predicate SameLegacyRoster(left: Users, right: Users) {
    |left| == |right| && forall h :: h in left ==> h in right && LegacyName(left[h]) == LegacyName(right[h])
  }

  /** Comparing sizes and one direction is comparing what a legacy client can see. */
  lemma SameLegacyRosterIff(left: Users, right: Users)
    ensures SameLegacyRoster(left, right)
            <==> left.Keys == right.Keys && forall h :: h in left ==> LegacyName(left[h]) == LegacyName(right[h])
  {
    assert left.Keys <= right.Keys && |left.Keys| == |right.Keys| ==> left.Keys == right.Keys by {
      if left.Keys <= right.Keys && |left.Keys| == |right.Keys| { SubsetOfSameSize(left.Keys, right.Keys); }
    }
    assert |left| == |left.Keys| && |right| == |right.Keys|;
  }

  lemma SubsetOfSameSize(a: set<nat>, b: set<nat>)
    requires a <= b && |a| == |b|
    ensures a == b
  {
    assert b == a + (b - a);
    assert |b| == |a| + |b - a|;
  }

  // ---- operations ----

  const BLANK := ChannelState(None, None, map[])

  function StateOf(s: Session, index: nat): ChannelState {
    if index in s.channels then s.channels[index] else BLANK
  }

  /** The first name seen for the local member of any channel is kept. */
  function Identified(s: Session, index: nat): Session {
    var c := StateOf(s, index);
    if s.toonName != "" || c.localHandle.None? || c.localHandle.value !in c.users
        || c.users[c.localHandle.value].name.None? then s
    else s.(toonName := StripCode(c.users[c.localHandle.value].name.value))
  }

  function JoinStep(s: Session, channel: ChatChannel, worker: bool): (Session, Result) {
    if s.pendingChannel.Some? then (s, Refused)
    else if !worker then (s, Broken)
    else (s.(pendingChannel := Some(channel)), Done(None, [JoinChannel(channel)]))
  }

  function LeaveStep(s: Session, worker: bool): (Session, Result) {
    if s.active.None? then (s, SILENT)
    else if !worker then (s, Broken)
    else
      var index := s.active.value;
      (s.(active := None,
          pendingAnnouncement := if s.pendingAnnouncement == Some(index) then None else s.pendingAnnouncement,
          channels := s.channels - {index}),
       Done(None, [LeaveChannel(index)]))
  }

  predicate Activates(s: Session, channel: ChatChannel) { s.active.None? || s.pendingChannel == Some(channel) }

  function JoinedStep(s: Session, index: nat, channel: ChatChannel, handle: nat, worker: bool): (Session, Result) {
    var state := StateOf(s, index).(channel := Some(channel), localHandle := Some(handle));
    var t := Identified(s.(channels := s.channels[index := state]), index);
    if !Activates(s, channel) then (t, SILENT)
    else
      var moved := t.(active := Some(index), pendingChannel := None);
      var leaving := if s.active.Some? && s.active.value != index then [LeaveChannel(s.active.value)] else [];
      if leaving != [] && !worker then (moved, Broken)
      else (moved.(pendingAnnouncement := Some(index)), Done(None, leaving))
  }

  function RosterStep(s: Session, index: nat, users: seq<ChatUser>, complete: bool): (Session, Result) {
    var prior := StateOf(s, index);
    var now := ByHandle(users);
    var t := Identified(s.(channels := s.channels[index := prior.(users := now)]), index);
    if s.active != Some(index) then (t, SILENT)
    else if s.pendingAnnouncement == Some(index) then
      if complete then (t.(pendingAnnouncement := None), Done(Some(Joined(index)), [])) else (t, SILENT)
    else (t, Done(if SameLegacyRoster(prior.users, now) then None else Some(RosterChanged(index)), []))
  }

  function MemberJoinedStep(s: Session, index: nat, user: ChatUser): (Session, Result) {
    var prior := StateOf(s, index);
    var t := Identified(s.(channels := s.channels[index := prior.(users := prior.users[user.handle := user])]), index);
    var news := user.handle !in prior.users || LegacyName(prior.users[user.handle]) != LegacyName(user);
    (t, Done(if s.active == Some(index) && news then Some(MemberJoined(index, Shown(user))) else None, []))
  }

  function MemberLeftStep(s: Session, index: nat, user: ChatUser): (Session, Result) {
    if index !in s.channels || user.handle !in s.channels[index].users then (s, SILENT)
    else
      var prior := s.channels[index];
      (s.(channels := s.channels[index := prior.(users := prior.users - {user.handle})]),
       Done(if s.active == Some(index) then Some(MemberLeft(index, Shown(prior.users[user.handle]))) else None, []))
  }

  function RemovedStep(s: Session, index: nat): (Session, Result) {
    var t := s.(channels := s.channels - {index},
                pendingAnnouncement := if s.pendingAnnouncement == Some(index) then None else s.pendingAnnouncement);
    if s.active != Some(index) then (t, SILENT) else (t.(active := None), Done(Some(Error), []))
  }

  function MessageStep(s: Session, index: nat, sender: ChatUser, body: string): (Session, Result) {
    var outgoing := index in s.channels && s.channels[index].localHandle == Some(sender.handle);
    (s, Done(if s.active == Some(index) then Some(Message(index, Shown(sender), body, outgoing)) else None, []))
  }

  class GatewaySession {
    var channels: map<nat, ChannelState>
    var activeIndex: Option<nat>
    var pendingChannel: Option<ChatChannel>
    var pendingAnnouncement: Option<nat>
    var toonName: string

    constructor ()
      ensures State() == Session(map[], None, None, None, "")
    {
      channels, activeIndex, pendingChannel, pendingAnnouncement, toonName := map[], None, None, None, "";
    }

    function State(): Session
      reads this
    {
      Session(channels, activeIndex, pendingChannel, pendingAnnouncement, toonName)
    }

    method Join(channel: ChatChannel, worker: bool) returns (r: Result)
      modifies this
      ensures (State(), r) == JoinStep(old(State()), channel, worker)
    {
      if pendingChannel.Some? {
        return Refused;
      }
      if !worker {
        return Broken;
      }
      pendingChannel := Some(channel);
      return Done(None, [JoinChannel(channel)]);
    }

    method LeaveActiveChannel(worker: bool) returns (r: Result)
      modifies this
      ensures (State(), r) == LeaveStep(old(State()), worker)
    {
      if activeIndex.None? {
        return SILENT;
      }
      if !worker {
        return Broken;
      }
      var index := activeIndex.value;
      activeIndex := None;
      if pendingAnnouncement == Some(index) {
        pendingAnnouncement := None;
      }
      channels := channels - {index};
      return Done(None, [LeaveChannel(index)]);
    }

    method IdentifyToon(index: nat)
      modifies this
      ensures State() == Identified(old(State()), index)
    {
      if toonName != "" || index !in channels {
        return;
      }
      var c := channels[index];
      if c.localHandle.None? || c.localHandle.value !in c.users || c.users[c.localHandle.value].name.None? {
        return;
      }
      toonName := StripCode(c.users[c.localHandle.value].name.value);
    }

    method ApplyJoined(index: nat, channel: ChatChannel, handle: nat, worker: bool) returns (r: Result)
      modifies this
      ensures (State(), r) == JoinedStep(old(State()), index, channel, handle, worker)
    {
      hide StripCode;
      var shouldActivate := activeIndex.None? || pendingChannel == Some(channel);
      channels := channels[index := StateOf(State(), index).(channel := Some(channel), localHandle := Some(handle))];
      IdentifyToon(index);
      if !shouldActivate {
        return SILENT;
      }
      var previous := activeIndex;
      activeIndex := Some(index);
      pendingChannel := None;
      var sent := [];
      if previous.Some? && previous.value != index {
        if !worker {
          return Broken;
        }
        sent := [LeaveChannel(previous.value)];
      }
      pendingAnnouncement := Some(index);
      return Done(None, sent);
    }

    method ApplyRoster(index: nat, users: seq<ChatUser>, initialComplete: bool) returns (r: Result)
      modifies this
      ensures (State(), r) == RosterStep(old(State()), index, users, initialComplete)
    {
      hide StripCode, SameLegacyRoster;
      var prior := StateOf(State(), index);
      var now := ByHandle(users);
      var legacyChanged := !SameLegacyRoster(prior.users, now);
      channels := channels[index := prior.(users := now)];
      IdentifyToon(index);
      if activeIndex != Some(index) {
        return SILENT;
      }
      if pendingAnnouncement == Some(index) {
        if initialComplete {
          pendingAnnouncement := None;
          return Done(Some(Joined(index)), []);
        }
        return SILENT;
      }
      return Done(if legacyChanged then Some(RosterChanged(index)) else None, []);
    }

    method ApplyMemberJoined(index: nat, user: ChatUser) returns (r: Result)
      modifies this
      ensures (State(), r) == MemberJoinedStep(old(State()), index, user)
    {
      hide StripCode;
      var prior := StateOf(State(), index);
      channels := channels[index := prior.(users := prior.users[user.handle := user])];
      IdentifyToon(index);
      var news := user.handle !in prior.users || LegacyName(prior.users[user.handle]) != LegacyName(user);
      return Done(if activeIndex == Some(index) && news then Some(MemberJoined(index, Shown(user))) else None, []);
    }

    method ApplyMemberLeft(index: nat, user: ChatUser) returns (r: Result)
      modifies this
      ensures (State(), r) == MemberLeftStep(old(State()), index, user)
    {
      if index !in channels || user.handle !in channels[index].users {
        return SILENT;
      }
      var prior := channels[index];
      channels := channels[index := prior.(users := prior.users - {user.handle})];
      return Done(if activeIndex == Some(index) then Some(MemberLeft(index, Shown(prior.users[user.handle])))
                  else None, []);
    }

    method ApplyRemoved(index: nat) returns (r: Result)
      modifies this
      ensures (State(), r) == RemovedStep(old(State()), index)
    {
      channels := channels - {index};
      if pendingAnnouncement == Some(index) {
        pendingAnnouncement := None;
      }
      if activeIndex != Some(index) {
        return SILENT;
      }
      activeIndex := None;
      return Done(Some(Error), []);
    }
  }
}
