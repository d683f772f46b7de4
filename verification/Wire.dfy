/** The events the client sends to a Live feed (app/src/uplink/model.rs, live/worker/events.ts). */
module Wire {
  import opened Common

  datatype Portrait = Portrait(table: nat, offset: nat)

  datatype UserRef = UserRef(
    handle: nat, name: Option<string>, clanTag: Option<string>, presence: Option<string>,
    portrait: Option<Portrait>, isLocal: Option<bool>, joinedOrder: Option<nat>,
    avatar: Option<string>, isOperator: Option<bool>)

  datatype ChannelRef = ChannelRef(key: string, name: Option<string>)

  datatype EventKind =
    | SessionStarted
    | SyncStarted
    | SessionSynced
    | Joined(channel: ChannelRef)
    | Left(channel: ChannelRef)
    | Roster(channel: ChannelRef, complete: bool, users: seq<UserRef>)
    | MemberJoined(channel: ChannelRef, user: UserRef)
    | MemberLeft(channel: ChannelRef, user: UserRef)
    | RosterDelta(channel: ChannelRef, users: seq<UserRef>)
    | Message(channel: ChannelRef, subkind: string, sender: Option<UserRef>, body: string)
    | Notice(channel: ChannelRef, subkind: string, body: string)
    | Dropped(count: nat)
    | Heartbeat
    | SessionEnded

  /** `number` is the event's `seq`. */
  datatype Event = Event(number: nat, ts: nat, kind: EventKind)

  ghost predicate Increasing(events: seq<Event>) {
    forall i, j :: 0 <= i < j < |events| ==> events[i].number < events[j].number
  }

  const MAX_EVENTS_PER_POST := 64

  /** What the server demands of an envelope's events before it stores them. */
  ghost predicate Acceptable(events: seq<Event>) {
    1 <= |events| <= MAX_EVENTS_PER_POST && Increasing(events)
  }

  /** The count and order checks of `validateEnvelope`. */
  method ValidateEvents(events: seq<Event>) returns (ok: bool)
    ensures ok <==> Acceptable(events)
  {
    if |events| < 1 || |events| > MAX_EVENTS_PER_POST {
      return false;
    }
    var previous: int := -1;
    for i := 0 to |events|
      invariant previous == if i == 0 then -1 else events[i - 1].number
      invariant Increasing(events[..i])
    {
      if events[i].number <= previous {
        assert i > 0 && events[i - 1].number >= events[i].number;
        return false;
      }
      assert events[..i + 1] == events[..i] + [events[i]];
      previous := events[i].number;
    }
    assert events[..|events|] == events;
    return true;
  }
}
