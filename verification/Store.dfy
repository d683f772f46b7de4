/** The ingest worker's tables for one session of one feed, and what an envelope does to them
    (live/worker/store.ts). Upserts and deletes are map updates; a call is one atomic step. */
module Store {
  import opened Common
  import opened Wire

  datatype Session = Session(product: string, clientVersion: string, startedAt: nat)

  datatype SessionRow = SessionRow(
    meta: Session, lastSeenAt: nat, lastSeq: nat, endedAt: Option<nat>, syncedAt: Option<nat>, syncSeq: nat)

  datatype ChannelRow = ChannelRow(name: string, firstSeenAt: nat, lastEventAt: nat, closedAt: Option<nat>,
                                   lastSeq: nat)

  datatype RosterRow = RosterRow(
    name: Option<string>, clanTag: Option<string>, presence: string, lastSeq: nat, updatedAt: nat,
    portraitTable: Option<nat>, portraitOffset: Option<nat>, isLocal: bool, joinedOrder: Option<nat>,
    avatar: Option<string>, isOperator: bool)

  datatype MessageRow = MessageRow(
    channelKey: string, ts: nat, kind: string, senderHandle: nat, senderName: Option<string>,
    senderClan: Option<string>, body: string)

  type Members = map<nat, RosterRow>

  /** Rosters are grouped by channel, messages are keyed by sequence number. */
  datatype Tables = Tables(
    session: Option<SessionRow>, channels: map<string, ChannelRow>, roster: map<string, Members>,
    messages: map<nat, MessageRow>, feedSeenAt: nat)

  const EMPTY := Tables(None, map[], map[], map[], 0)

  function Max(a: nat, b: nat): nat { if a >= b then a else b }

  function Coalesce<T>(a: Option<T>, b: Option<T>): Option<T> { if a.Some? then a else b }

  predicate Open(t: Tables, key: string) { key in t.channels && t.channels[key].closedAt.None? }

  function MembersOf(t: Tables, key: string): Members {
    if key in t.roster then t.roster[key] else map[]
  }

  function LastSeq(t: Tables): int {
    if t.session.Some? then t.session.value.lastSeq else -1
  }

  // ---- statements ----

  function SessionUpkeep(t: Tables, meta: Session, newest: Event, receivedAt: nat): Tables {
    match t.session
    case None => t.(session := Some(SessionRow(meta, receivedAt, newest.number, None, None, 0)))
    case Some(row) =>
      t.(session := Some(row.(
        meta := row.meta.(product := meta.product),
        lastSeenAt := Max(row.lastSeenAt, receivedAt),
        lastSeq := Max(row.lastSeq, newest.number),
        endedAt := if newest.number > row.lastSeq && newest.kind.SessionEnded? then Some(receivedAt) else row.endedAt)))
  }

  function FeedUpkeep(t: Tables, receivedAt: nat): Tables {
    t.(feedSeenAt := Max(t.feedSeenAt, receivedAt))
  }

  function ChannelOf(kind: EventKind): Option<ChannelRef> {
    match kind
    case Joined(c) => Some(c)
    case Left(c) => Some(c)
    case Roster(c, _, _) => Some(c)
    case MemberJoined(c, _) => Some(c)
    case MemberLeft(c, _) => Some(c)
    case RosterDelta(c, _) => Some(c)
    case Message(c, _, _, _) => Some(c)
    case Notice(c, _, _) => Some(c)
    case _ => None
  }

  /** Any event on a channel opens it. */
  function ChannelTouch(t: Tables, channel: ChannelRef, e: Event): Tables {
    var name := if channel.name.Some? then channel.name.value else "";
    var row :=
      if channel.key in t.channels then
        var prior := t.channels[channel.key];
        ChannelRow(if name != "" then name else prior.name, prior.firstSeenAt, Max(prior.lastEventAt, e.ts), None,
                   Max(prior.lastSeq, e.number))
      else ChannelRow(name, e.ts, e.ts, None, e.number);
    t.(channels := t.channels[channel.key := row])
  }

  function RowOf(user: UserRef, number: nat, ts: nat): RosterRow {
    RosterRow(
      user.name, user.clanTag, if user.presence.Some? then user.presence.value else "", number, ts,
      if user.portrait.Some? then Some(user.portrait.value.table) else None,
      if user.portrait.Some? then Some(user.portrait.value.offset) else None,
      user.isLocal == Some(true), user.joinedOrder, user.avatar, user.isOperator == Some(true))
  }

  /** The conflict clause: only a newer event overwrites, and what it leaves out is remembered. */
  function Merge(prior: RosterRow, excluded: RosterRow): RosterRow {
    if excluded.lastSeq > prior.lastSeq then
      excluded.(portraitTable := Coalesce(excluded.portraitTable, prior.portraitTable),
             portraitOffset := Coalesce(excluded.portraitOffset, prior.portraitOffset),
             joinedOrder := Coalesce(prior.joinedOrder, excluded.joinedOrder),
             avatar := Coalesce(excluded.avatar, prior.avatar))
    else prior
  }

  function Upsert(members: Members, user: UserRef, number: nat, ts: nat): Members {
    var excluded := RowOf(user, number, ts);
    members[user.handle := if user.handle in members then Merge(members[user.handle], excluded) else excluded]
  }

  function UpsertAll(members: Members, users: seq<UserRef>, number: nat, ts: nat): Members
    decreases |users|
  {
    if users == [] then members
    else UpsertAll(Upsert(members, users[0], number, ts), users[1..], number, ts)
  }

  /** Roster rows are written only while their channel is open. */
  function RosterUpsert(t: Tables, key: string, users: seq<UserRef>, number: nat, ts: nat): (r: Tables)
    ensures r.session == t.session && r.channels == t.channels
  {
    if Open(t, key) && users != []
    then t.(roster := t.roster[key := UpsertAll(MembersOf(t, key), users, number, ts)])
    else t
  }

  function TranscriptRow(t: Tables, e: Event, key: string, kind: string, sender: Option<UserRef>,
                         body: string): (r: Tables)
    ensures r.session == t.session && r.channels == t.channels && r.roster == t.roster
  {
    if e.number in t.messages then t
    else t.(messages := t.messages[e.number := MessageRow(
      key, e.ts, kind,
      if sender.Some? then sender.value.handle else 0,
      if sender.Some? then sender.value.name else None,
      if sender.Some? then sender.value.clanTag else None,
      body)])
  }

  function CloseStale(t: Tables, receivedAt: nat): (r: Tables)
    requires t.session.Some?
    ensures r.session == t.session && r.roster == t.roster && r.channels.Keys == t.channels.Keys
  {
    t.(channels := map k | k in t.channels ::
      if t.channels[k].closedAt.None? && t.channels[k].lastSeq < t.session.value.syncSeq
      then t.channels[k].(closedAt := Some(receivedAt)) else t.channels[k])
  }

  function Leave(t: Tables, key: string, e: Event): Tables
    requires key in t.channels
  {
    var row := t.channels[key];
    t.(roster := t.roster - {key},
       channels := t.channels[key := row.(closedAt := Some(e.ts), lastEventAt := Max(row.lastEventAt, e.ts),
                                          lastSeq := e.number)])
  }

  function Forget(t: Tables, key: string, handle: nat): Tables {
    t.(roster := t.roster[key := MembersOf(t, key) - {handle}])
  }

  /** The statements of one event, after its channel has been touched. */
  function Effect(t: Tables, e: Event, receivedAt: nat): Tables
    requires t.session.Some?
    requires ChannelOf(e.kind).Some? ==> ChannelOf(e.kind).value.key in t.channels
  {
    var row := t.session.value;
    match e.kind
    case SessionStarted => t.(session := Some(row.(endedAt := None, syncedAt := None, syncSeq := 0)))
    case SyncStarted => if row.endedAt.None? then t.(session := Some(row.(syncSeq := e.number))) else t
    case SessionSynced =>
      var closed := CloseStale(t, receivedAt);
      if row.endedAt.None? then closed.(session := Some(row.(syncedAt := Some(e.ts)))) else closed
    case Left(channel) => Leave(t, channel.key, e)
    case Message(channel, subkind, sender, body) =>
      TranscriptRow(t, e, channel.key, if subkind == "emote" then "emote" else "talk", sender, body)
    case Notice(channel, subkind, body) =>
      if subkind == "broadcast" || subkind == "information" then TranscriptRow(t, e, channel.key, subkind, None, body)
          else t
    case MemberJoined(channel, user) =>
      RosterUpsert(TranscriptRow(t, e, channel.key, "member_joined", Some(user), ""), channel.key, [user], e.number,
                   e.ts)
    case MemberLeft(channel, user) =>
      Forget(TranscriptRow(t, e, channel.key, "member_left", Some(user), ""), channel.key, user.handle)
    case Roster(channel, complete, users) =>
      if complete then RosterUpsert(t.(roster := t.roster - {channel.key}), channel.key, users, e.number, e.ts) else t
    case RosterDelta(channel, users) => RosterUpsert(t, channel.key, users, e.number, e.ts)
    case _ => t
  }

  function Apply(t: Tables, e: Event, receivedAt: nat): (r: Tables)
    requires t.session.Some?
    ensures r.session.Some? && r.session.value.lastSeq == t.session.value.lastSeq
  {
    var channel := ChannelOf(e.kind);
    Effect(if channel.Some? then ChannelTouch(t, channel.value, e) else t, e, receivedAt)
  }

  function ApplyAll(t: Tables, events: seq<Event>, receivedAt: nat): (r: Tables)
    requires t.session.Some?
    ensures r.session.Some? && r.session.value.lastSeq == t.session.value.lastSeq
    decreases |events|
  {
    if events == [] then t else ApplyAll(Apply(t, events[0], receivedAt), events[1..], receivedAt)
  }

  /** The events of an envelope the session has not stored yet. */
  function Fresh(events: seq<Event>, lastSeq: int): seq<Event> {
    if events == [] then []
    else (if events[0].number > lastSeq then [events[0]] else []) + Fresh(events[1..], lastSeq)
  }

  /** `storeEnvelope` as a function of the tables. */
  function Stored(t: Tables, meta: Session, events: seq<Event>, receivedAt: nat): Tables {
    var recent := Fresh(events, LastSeq(t));
    if recent == [] then t
    else ApplyAll(FeedUpkeep(SessionUpkeep(t, meta, recent[|recent| - 1], receivedAt), receivedAt), recent, receivedAt)
  }

  lemma {:induction false} FreshAppend(a: seq<Event>, b: seq<Event>, lastSeq: int)
    ensures Fresh(a + b, lastSeq) == Fresh(a, lastSeq) + Fresh(b, lastSeq)
    decreases |a|
  {
    if a == [] {
      assert a + b == b;
    } else {
      FreshAppend(a[1..], b, lastSeq);
      var first := if a[0].number > lastSeq then [a[0]] else [];
      assert (a + b)[0] == a[0] && (a + b)[1..] == a[1..] + b;
      assert first + (Fresh(a[1..], lastSeq) + Fresh(b, lastSeq)) == first + Fresh(a[1..], lastSeq) + Fresh(b, lastSeq);
    }
  }

  lemma {:induction false} ApplyAllAppend(t: Tables, a: seq<Event>, b: seq<Event>, receivedAt: nat)
    requires t.session.Some?
    ensures ApplyAll(t, a + b, receivedAt) == ApplyAll(ApplyAll(t, a, receivedAt), b, receivedAt)
    decreases |a|
  {
    if a == [] {
      assert a + b == b;
    } else {
      ApplyAllAppend(Apply(t, a[0], receivedAt), a[1..], b, receivedAt);
      assert (a + b)[0] == a[0] && (a + b)[1..] == a[1..] + b;
    }
  }

  /** The worker's side: rows updated in place, statement by statement. */
  class SessionStore {
    var session: Option<SessionRow>
    var channels: map<string, ChannelRow>
    var roster: map<string, Members>
    var messages: map<nat, MessageRow>
    var feedSeenAt: nat

    constructor ()
      ensures Value() == EMPTY
    {
      session, channels, roster, messages, feedSeenAt := None, map[], map[], map[], 0;
    }

    function Value(): Tables
      reads this
    {
      Tables(session, channels, roster, messages, feedSeenAt)
    }

    method Upkeep(meta: Session, newest: Event, receivedAt: nat)
      modifies this
      ensures Value() == FeedUpkeep(SessionUpkeep(old(Value()), meta, newest, receivedAt), receivedAt)
      ensures session.Some?
    {
      if session.None? {
        session := Some(SessionRow(meta, receivedAt, newest.number, None, None, 0));
      } else {
        var row := session.value;
        if newest.number > row.lastSeq && newest.kind.SessionEnded? {
          row := row.(endedAt := Some(receivedAt));
        }
        session := Some(row.(meta := row.meta.(product := meta.product), lastSeenAt := Max(row.lastSeenAt, receivedAt),
                             lastSeq := Max(row.lastSeq, newest.number)));
      }
      feedSeenAt := Max(feedSeenAt, receivedAt);
    }

    method UpsertMembers(key: string, users: seq<UserRef>, number: nat, ts: nat)
      modifies this
      ensures Value() == RosterUpsert(old(Value()), key, users, number, ts) && session == old(session)
    {
      if !Open(Value(), key) {
        return;
      }
      for i := 0 to |users|
        invariant session == old(session) && channels == old(channels) && messages == old(messages)
        invariant feedSeenAt == old(feedSeenAt)
        invariant i == 0 ==> roster == old(roster)
        invariant i > 0 ==> roster == old(roster)[key := MembersOf(Value(), key)]
        invariant UpsertAll(MembersOf(Value(), key), users[i..], number, ts)
            == UpsertAll(MembersOf(old(Value()), key), users, number, ts)
      {
        roster := roster[key := Upsert(MembersOf(Value(), key), users[i], number, ts)];
      }
    }

    method Transcribe(e: Event, key: string, kind: string, sender: Option<UserRef>, body: string)
      modifies this
      ensures Value() == TranscriptRow(old(Value()), e, key, kind, sender, body) && session == old(session)
    {
      if e.number !in messages {
        var handle, name, clan := 0, None, None;
        if sender.Some? {
          handle, name, clan := sender.value.handle, sender.value.name, sender.value.clanTag;
        }
        messages := messages[e.number := MessageRow(key, e.ts, kind, handle, name, clan, body)];
      }
    }

    /** The statements of one event, in the order the source pushes them. */
    method Execute(e: Event, receivedAt: nat)
      requires session.Some?
      modifies this
      ensures session.Some? && Value() == Apply(old(Value()), e, receivedAt)
    {
      hide UpsertAll, RosterUpsert, TranscriptRow, RowOf;
      if ChannelOf(e.kind).Some? {
        channels := ChannelTouch(Value(), ChannelOf(e.kind).value, e).channels;
      }
      var row := session.value;
      match e.kind {
        case SessionStarted =>
          session := Some(row.(endedAt := None, syncedAt := None, syncSeq := 0));
        case SyncStarted =>
          if row.endedAt.None? {
            session := Some(row.(syncSeq := e.number));
          }
        case SessionSynced =>
          channels := CloseStale(Value(), receivedAt).channels;
          if row.endedAt.None? {
            session := Some(row.(syncedAt := Some(e.ts)));
          }
        case Left(channel) =>
          roster := roster - {channel.key};
          var left := channels[channel.key];
          channels := channels[channel.key := left.(closedAt := Some(e.ts), lastEventAt := Max(left.lastEventAt, e.ts),
                                                    lastSeq := e.number)];
        case Message(channel, subkind, sender, body) =>
          Transcribe(e, channel.key, if subkind == "emote" then "emote" else "talk", sender, body);
        case Notice(channel, subkind, body) =>
          if subkind == "broadcast" || subkind == "information" {
            Transcribe(e, channel.key, subkind, None, body);
          }
        case MemberJoined(channel, user) =>
          Transcribe(e, channel.key, "member_joined", Some(user), "");
          UpsertMembers(channel.key, [user], e.number, e.ts);
        case MemberLeft(channel, user) =>
          Transcribe(e, channel.key, "member_left", Some(user), "");
          roster := roster[channel.key := MembersOf(Value(), channel.key) - {user.handle}];
        case Roster(channel, complete, users) =>
          if complete {
            roster := roster - {channel.key};
            UpsertMembers(channel.key, users, e.number, e.ts);
          }
        case RosterDelta(channel, users) =>
          UpsertMembers(channel.key, users, e.number, e.ts);
        case _ =>
      }
    }

    method StoreEnvelope(meta: Session, events: seq<Event>, receivedAt: nat)
      modifies this
      ensures Value() == Stored(old(Value()), meta, events, receivedAt)
    {
      hide Apply, SessionUpkeep, FeedUpkeep;
      var lastSeq := LastSeq(Value());
      var recent: seq<Event> := [];
      for i := 0 to |events|
        invariant recent == Fresh(events[..i], lastSeq)
        invariant Value() == old(Value())
      {
        FreshAppend(events[..i], [events[i]], lastSeq);
        assert events[..i] + [events[i]] == events[..i + 1];
        if events[i].number > lastSeq {
          recent := recent + [events[i]];
        }
      }
      assert events[..|events|] == events;
      if recent == [] {
        return;
      }
      Upkeep(meta, recent[|recent| - 1], receivedAt);
      ghost var start := Value();
      for i := 0 to |recent|
        invariant session.Some? && Value() == ApplyAll(start, recent[..i], receivedAt)
      {
        ApplyAllAppend(start, recent[..i], [recent[i]], receivedAt);
        assert recent[..i] + [recent[i]] == recent[..i + 1];
        Execute(recent[i], receivedAt);
      }
      assert recent[..|recent|] == recent;
    }
  }
}
