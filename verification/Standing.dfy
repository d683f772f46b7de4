/** From the tap to the roster: the tables a run leaves behind, whatever was lost, repeated or re-cut into envelopes
    on the way, stand as if the events a feed applied had been applied one after another (live/worker/store.ts). */
module Standing {
  import opened Common
  import opened Wire
  import opened Store
  import opened StoreProperties
  import opened Pipeline
  import opened ExactlyOnce
  import LiveSync
  import PipelineSafety

  // ---- tables that stand alike ----

  /** Two channel rows that differ at most in the time they were closed. */
  predicate SameChannel(a: ChannelRow, b: ChannelRow) {
    a == b.(closedAt := a.closedAt) && (a.closedAt.None? <==> b.closedAt.None?)
  }

  ghost predicate SameRows(a: Tables, b: Tables) {
    && a.roster == b.roster && a.channels.Keys == b.channels.Keys
    && forall k :: k in a.channels ==> k in b.channels && SameChannel(a.channels[k], b.channels[k])
  }

  predicate SameSync(a: SessionRow, b: SessionRow) {
    (a.endedAt.None? <==> b.endedAt.None?) && a.syncedAt == b.syncedAt && a.syncSeq == b.syncSeq
  }

  /** The same rosters and the same channels; with `synced`, the session is as much live and synced too. */
  ghost predicate Alike(a: Tables, b: Tables, synced: bool) {
    && a.session.Some? && b.session.Some? && SameRows(a, b)
    && (synced ==> SameSync(a.session.value, b.session.value))
  }

  /** What the rows depend on besides the events: a sync closes channels by the session's marker, and an envelope
      that ends with the session marks it ended before its own events are applied. */
  predicate Plain(e: Event, synced: bool) { if synced then !e.kind.SessionEnded? else !e.kind.SessionSynced? }

  lemma TouchAlike(a: Tables, b: Tables, channel: ChannelRef, e: Event, synced: bool)
    requires Alike(a, b, synced)
    ensures Alike(ChannelTouch(a, channel, e), ChannelTouch(b, channel, e), synced)
  {
  }

  lemma CloseAlike(a: Tables, b: Tables, x: nat, y: nat)
    requires Alike(a, b, true)
    ensures SameRows(CloseStale(a, x), CloseStale(b, y))
  {
  }

  lemma UpsertAlike(a: Tables, b: Tables, key: string, users: seq<UserRef>, number: nat, ts: nat, synced: bool)
    requires Alike(a, b, synced)
    ensures Alike(RosterUpsert(a, key, users, number, ts), RosterUpsert(b, key, users, number, ts), synced)
  {
    hide UpsertAll;
    assert Open(a, key) <==> Open(b, key);
  }

  lemma TranscriptAlike(a: Tables, b: Tables, e: Event, key: string, kind: string, sender: Option<UserRef>,
                        body: string, synced: bool)
    requires Alike(a, b, synced)
    ensures Alike(TranscriptRow(a, e, key, kind, sender, body), TranscriptRow(b, e, key, kind, sender, body), synced)
  {
  }

  lemma EffectAlike(a: Tables, b: Tables, e: Event, x: nat, y: nat, synced: bool)
    requires Alike(a, b, synced) && (synced || !e.kind.SessionSynced?)
    requires ChannelOf(e.kind).Some? ==> ChannelOf(e.kind).value.key in a.channels
    ensures ChannelOf(e.kind).Some? ==> ChannelOf(e.kind).value.key in b.channels
    ensures Alike(Effect(a, e, x), Effect(b, e, y), synced)
  {
    hide RosterUpsert, TranscriptRow, CloseStale;
    match e.kind
    case SessionSynced => CloseAlike(a, b, x, y);
    case Message(channel, subkind, sender, body) =>
      TranscriptAlike(a, b, e, channel.key, if subkind == "emote" then "emote" else "talk", sender, body, synced);
    case Notice(channel, subkind, body) => TranscriptAlike(a, b, e, channel.key, subkind, None, body, synced);
    case MemberJoined(channel, user) =>
      var u := TranscriptRow(a, e, channel.key, "member_joined", Some(user), "");
      var v := TranscriptRow(b, e, channel.key, "member_joined", Some(user), "");
      TranscriptAlike(a, b, e, channel.key, "member_joined", Some(user), "", synced);
      UpsertAlike(u, v, channel.key, [user], e.number, e.ts, synced);
    case MemberLeft(channel, user) => TranscriptAlike(a, b, e, channel.key, "member_left", Some(user), "", synced);
    case Roster(channel, complete, users) =>
      UpsertAlike(a.(roster := a.roster - {channel.key}), b.(roster := b.roster - {channel.key}), channel.key, users,
                  e.number, e.ts, synced);
    case RosterDelta(channel, users) => UpsertAlike(a, b, channel.key, users, e.number, e.ts, synced);
    case _ =>
  }

  lemma ApplyAlike(a: Tables, b: Tables, e: Event, x: nat, y: nat, synced: bool)
    requires Alike(a, b, synced) && (synced || !e.kind.SessionSynced?)
    ensures Alike(Apply(a, e, x), Apply(b, e, y), synced)
  {
    hide Effect, Alike;
    var channel := ChannelOf(e.kind);
    assert a.session.Some? && b.session.Some? by { AlikeSessions(a, b, synced); }
    if channel.Some? {
      TouchAlike(a, b, channel.value, e, synced);
      EffectAlike(ChannelTouch(a, channel.value, e), ChannelTouch(b, channel.value, e), e, x, y, synced);
    } else {
      EffectAlike(a, b, e, x, y, synced);
    }
  }

  lemma AlikeSessions(a: Tables, b: Tables, synced: bool)
    requires Alike(a, b, synced)
    ensures a.session.Some? && b.session.Some?
  {
  }

  /** Applying the same events at different times keeps tables alike. */
  lemma {:induction false} ApplyAllAlike(a: Tables, b: Tables, events: seq<Event>, x: nat, y: nat, synced: bool)
    requires Alike(a, b, synced) && (synced || forall e :: e in events ==> !e.kind.SessionSynced?)
    ensures a.session.Some? && b.session.Some?
    ensures Alike(ApplyAll(a, events, x), ApplyAll(b, events, y), synced)
    decreases |events|
  {
    hide Apply, Alike;
    AlikeSessions(a, b, synced);
    if events != [] {
      ApplyAlike(a, b, events[0], x, y, synced);
      ApplyAllAlike(Apply(a, events[0], x), Apply(b, events[0], y), events[1..], x, y, synced);
    }
  }

  lemma BegunAlike(t: Tables, u: Tables, meta: Session, newest: Event, receivedAt: nat, synced: bool)
    requires Alike(t, u, synced) && (synced ==> !newest.kind.SessionEnded?)
    ensures Alike(LiveSync.Begun(t, meta, newest, receivedAt), u, synced)
  {
  }

  lemma AlikeItself(t: Tables, synced: bool)
    requires t.session.Some?
    ensures Alike(t, t, synced)
  {
  }

  // ---- one request ----

  /** `base` is what the feed held before the `k`th event it applied: nothing newer, and nothing at all if there
      was none before. */
  ghost predicate Base(base: Tables, whole: seq<Event>, k: nat)
    requires k < |whole|
  {
    base.session.Some? && Older(base, whole[k].number) && (k == 0 ==> base.channels == map[] && base.roster == map[])
  }

  /** The tables are alike to `base` with the events from the `k`th on applied. */
  ghost predicate StandsOn(t: Tables, base: Tables, log: seq<Event>, whole: seq<Event>, k: nat, synced: bool)
    requires k < |log| <= |whole|
  {
    Base(base, whole, k) && Alike(t, ApplyAll(base, log[k..], 0), synced)
  }

  /** The tables of a feed that has applied `log`, on the way to `whole`. */
  ghost predicate Stands(t: Tables, log: FeedLog, whole: seq<Event>, k: nat, synced: bool) {
    && Coherent(t) && LastSeq(t) == log.lastSeq && log.applied <= whole
    && (log.applied == [] ==> t == EMPTY)
    && (k < |log.applied| ==> exists base :: StandsOn(t, base, log.applied, whole, k, synced))
  }

  /** Every event from the `k`th on is plain. */
  ghost predicate PlainFrom(whole: seq<Event>, k: nat, synced: bool) {
    forall i :: k <= i < |whole| ==> Plain(whole[i], synced)
  }

  lemma PlainSlice(whole: seq<Event>, k: nat, lo: nat, hi: nat, synced: bool)
    requires PlainFrom(whole, k, synced) && k <= lo <= hi <= |whole|
    ensures forall e :: e in whole[lo..hi] ==> Plain(e, synced)
  {
  }

  /** The envelope reaches past the `k`th event: what it applied before that is in the base. */
  lemma CrossingStands(t: Tables, log: FeedLog, meta: Session, recent: seq<Event>, receivedAt: nat, whole: seq<Event>,
                       k: nat, synced: bool) returns (base: Tables)
    requires Coherent(t) && LastSeq(t) == log.lastSeq && (log.applied == [] ==> t == EMPTY)
    requires Increasing(whole) && PlainFrom(whole, k, synced)
    requires recent != [] && log.applied + recent <= whole && |log.applied| <= k < |log.applied| + |recent|
    requires recent[0].number > log.lastSeq
    ensures
      var r := ApplyAll(LiveSync.Begun(t, meta, recent[|recent| - 1], receivedAt), recent, receivedAt);
      StandsOn(r, base, log.applied + recent, whole, k, synced)
  {
    hide ApplyAll, Alike, Older, LiveSync.Begun, StandsOn, PlainFrom, Coherent;
    var a := k - |log.applied|;
    var start := LiveSync.Begun(t, meta, recent[|recent| - 1], receivedAt);
    CutAt(log.applied, recent, whole, k);
    PlainSlice(whole, k, k, |log.applied + recent|, synced);
    BaseIsOlder(t, start, log, recent, receivedAt, whole, k);
    base := PlayedStands(start, recent[..a], recent[a..], receivedAt, log.applied + recent, whole, k, synced);
  }

  lemma PlayedStands(start: Tables, before: seq<Event>, rest: seq<Event>, receivedAt: nat, log: seq<Event>,
                     whole: seq<Event>, k: nat, synced: bool) returns (base: Tables)
    requires start.session.Some? && k < |log| <= |whole| && log[k..] == rest
        && forall e :: e in rest ==> Plain(e, synced)
    requires Older(ApplyAll(start, before, receivedAt), whole[k].number)
    requires k == 0 ==> before == [] && start.channels == map[] && start.roster == map[]
    ensures StandsOn(ApplyAll(start, before + rest, receivedAt), base, log, whole, k, synced)
  {
    hide ApplyAll, Alike, Older;
    base := ApplyAll(start, before, receivedAt);
    ApplyAllAppend(start, before, rest, receivedAt);
    AlikeItself(base, synced);
    ApplyAllAlike(base, base, rest, receivedAt, 0, synced);
    ApplyNone(start, receivedAt);
  }

  lemma CutAt(log: seq<Event>, recent: seq<Event>, whole: seq<Event>, k: nat)
    requires log + recent <= whole && |log| <= k < |log| + |recent|
    ensures
      var a := k - |log|;
      && recent[..a] + recent[a..] == recent && (log + recent)[k..] == recent[a..] == whole[k..|log + recent|]
      && (k == 0 ==> recent[..a] == [] && log == [])
  {
  }

  lemma ApplyNone(t: Tables, receivedAt: nat)
    requires t.session.Some?
    ensures ApplyAll(t, [], receivedAt) == t
  {
  }

  lemma BaseIsOlder(t: Tables, start: Tables, log: FeedLog, recent: seq<Event>, receivedAt: nat, whole: seq<Event>,
                    k: nat)
    requires Coherent(t) && LastSeq(t) == log.lastSeq && Increasing(whole)
    requires start.session.Some? && start.channels == t.channels && start.roster == t.roster
    requires log.applied + recent <= whole && |log.applied| <= k < |log.applied| + |recent|
    requires recent != [] && recent[0].number > log.lastSeq
    ensures Older(ApplyAll(start, recent[..k - |log.applied|], receivedAt), whole[k].number)
  {
    hide Older, ApplyAll;
    var a := k - |log.applied|;
    RecentNumbers(log.applied, recent, whole, k);
    OlderSame(t, start, log.lastSeq + 1);
    OlderStill(start, log.lastSeq + 1, whole[k].number);
    ApplyAllOlder(start, recent[..a], receivedAt, whole[k].number);
  }

  lemma RecentNumbers(log: seq<Event>, recent: seq<Event>, whole: seq<Event>, k: nat)
    requires Increasing(whole) && log + recent <= whole && |log| <= k < |log| + |recent|
    ensures recent[0].number <= whole[k].number
    ensures forall e :: e in recent[..k - |log|] ==> e.number < whole[k].number
  {
    RecentAt(log, recent, whole, 0);
    forall e | e in recent[..k - |log|] ensures e.number < whole[k].number {
      var i :| 0 <= i < k - |log| && recent[i] == e;
      RecentAt(log, recent, whole, i);
    }
  }

  lemma RecentAt(log: seq<Event>, recent: seq<Event>, whole: seq<Event>, i: nat)
    requires log + recent <= whole && i < |recent|
    ensures whole[|log| + i] == recent[i]
  {
    assert (log + recent)[|log| + i] == recent[i];
  }

  /** The envelope goes on from where the tables stood. */
  lemma FurtherStands(t: Tables, base: Tables, log: seq<Event>, meta: Session, recent: seq<Event>, receivedAt: nat,
                      whole: seq<Event>, k: nat, synced: bool)
    requires k < |log| && log + recent <= whole && recent != [] && PlainFrom(whole, k, synced)
    requires StandsOn(t, base, log, whole, k, synced)
    ensures
      var r := ApplyAll(LiveSync.Begun(t, meta, recent[|recent| - 1], receivedAt), recent, receivedAt);
      StandsOn(r, base, log + recent, whole, k, synced)
  {
    hide ApplyAll, Alike, Older, LiveSync.Begun;
    var newest := recent[|recent| - 1];
    var start := LiveSync.Begun(t, meta, newest, receivedAt);
    var longer := log + recent;
    assert longer[k..] == log[k..] + recent && recent == whole[|log|..|longer|];
    PlainSlice(whole, k, |log|, |longer|, synced);
    assert newest in recent;
    BegunAlike(t, ApplyAll(base, log[k..], 0), meta, newest, receivedAt, synced);
    ApplyAllAlike(start, ApplyAll(base, log[k..], 0), recent, receivedAt, 0, synced);
    ApplyAllAppend(base, log[k..], recent, 0);
  }

  /** `storeEnvelope` keeps the tables standing, however the events were cut and whatever is sent again. */
  lemma StoringStands(t: Tables, log: FeedLog, meta: Session, events: seq<Event>, receivedAt: nat, whole: seq<Event>,
                      k: nat, synced: bool)
    requires Stands(t, log, whole, k, synced) && Increasing(events) && Increasing(whole) && PlainFrom(whole, k, synced)
    requires StoreInLog(log, events).applied <= whole
    ensures Stands(Stored(t, meta, events, receivedAt), StoreInLog(log, events), whole, k, synced)
  {
    hide ApplyAll, Older, Fresh, StandsOn, Coherent, PlainFrom;
    var recent := Fresh(events, log.lastSeq);
    if recent != [] {
      FreshIsNew(events, log.lastSeq);
      assert recent[0] in recent;
      StoredCoherent(t, meta, events, receivedAt);
      StoredLast(t, meta, events, receivedAt);
      var r := Stored(t, meta, events, receivedAt);
      assert r == ApplyAll(LiveSync.Begun(t, meta, recent[|recent| - 1], receivedAt), recent, receivedAt);
      if |log.applied| <= k < |log.applied| + |recent| {
        var base := CrossingStands(t, log, meta, recent, receivedAt, whole, k, synced);
      } else if k < |log.applied| {
        var base :| StandsOn(t, base, log.applied, whole, k, synced);
        FurtherStands(t, base, log.applied, meta, recent, receivedAt, whole, k, synced);
      }
    }
  }

  lemma StoredLast(t: Tables, meta: Session, events: seq<Event>, receivedAt: nat)
    requires Increasing(events)
    ensures
      var recent := Fresh(events, LastSeq(t));
      recent != [] ==> LastSeq(Stored(t, meta, events, receivedAt)) == recent[|recent| - 1].number
  {
    hide Fresh, ApplyAll;
    FreshIsNew(events, LastSeq(t));
    var recent := Fresh(events, LastSeq(t));
    if recent != [] { assert recent[|recent| - 1] in recent; }
  }

  // ---- a run ----

  /** What a feed has applied it never takes back. */
  lemma {:induction false} LogsGrow(s: System, actions: seq<Action>, t: System, feed: nat)
    requires Runs(s, actions, t)
    ensures LogOf(s, feed).applied <= LogOf(t, feed).applied
    decreases |actions|
  {
    hide Next, Enabled, StoreInLog, DeliveredBy;
    if actions != [] {
      var now := DeliveredBy(s, actions[0], feed);
      StepLog(s, actions[0], feed);
      if now != [] { StoringGrows(LogOf(s, feed), now[0]); }
      LogsGrow(Next(s, actions[0]), actions[1..], t, feed);
    }
  }

  lemma StoringGrows(log: FeedLog, events: seq<Event>)
    ensures log.applied <= StoreInLog(log, events).applied
  {
    hide Fresh;
  }

  lemma {:induction false} RunStands(s: System, actions: seq<Action>, t: System, feed: nat, arrivals: seq<Arrival>,
                                     tables: Tables, k: nat, synced: bool)
    requires Inv(s) && Runs(s, actions, t) && ArrivesIn(s, actions, feed, arrivals)
    requires Increasing(LogOf(t, feed).applied) && PlainFrom(LogOf(t, feed).applied, k, synced)
    requires Stands(tables, LogOf(s, feed), LogOf(t, feed).applied, k, synced)
    ensures Stands(Received(tables, arrivals), LogOf(t, feed), LogOf(t, feed).applied, k, synced)
    decreases |actions|
  {
    hide Inv, Next, Stands, DeliveredBy, Enabled, Stored, StoreInLog, PlainFrom;
    if actions != [] {
      var a, whole := actions[0], LogOf(t, feed).applied;
      var now := DeliveredBy(s, a, feed);
      StepLog(s, a, feed);
      PipelineSafety.StepKeeps(s, a);
      DeliveredIncreasing(s, a, feed);
      LogsGrow(Next(s, a), actions[1..], t, feed);
      if now == [] {
        assert arrivals[0..] == arrivals;
        RunStands(Next(s, a), actions[1..], t, feed, arrivals, tables, k, synced);
      } else {
        var first := arrivals[0];
        assert arrivals[..1][0] == first && first.events == now[0];
        StoringStands(tables, LogOf(s, feed), first.meta, first.events, first.receivedAt, whole, k, synced);
        RunStands(Next(s, a), actions[1..], t, feed, arrivals[1..],
                  Stored(tables, first.meta, first.events, first.receivedAt), k, synced);
      }
    }
  }

  /** In every run, redeliveries and re-cut batches included: the rosters and channels a feed ends with are those of
      some tables, holding nothing newer than the `k`th event it applied, with the events from there on applied one
      after another. It takes that none of those ends the session, for the sync state to agree too, or that none of
      them closes a sync, for rosters and channels alone. */
  lemma RowsAreOfTheLog(s: System, actions: seq<Action>, t: System, feed: nat, arrivals: seq<Arrival>, k: nat,
                        synced: bool)
    returns (base: Tables)
    requires Initial(s) && Runs(s, actions, t) && ArrivesIn(s, actions, feed, arrivals)
    requires k < |LogOf(t, feed).applied| && PlainFrom(LogOf(t, feed).applied, k, synced)
    ensures Base(base, LogOf(t, feed).applied, k)
    ensures Coherent(Received(EMPTY, arrivals)) && LastSeq(Received(EMPTY, arrivals)) == LogOf(t, feed).lastSeq
    ensures Alike(Received(EMPTY, arrivals), ApplyAll(base, LogOf(t, feed).applied[k..], 0), synced)
  {
    hide Runs, ArrivesIn, Received, Inv, PlainFrom, Alike, Coherent;
    PipelineSafety.StartsInvariant(s);
    PipelineSafety.AppliedAtMostOnce(s, actions, t);
    LogsGrow(s, actions, t, feed);
    EmptyStands(s, feed, LogOf(t, feed).applied, k, synced);
    RunStands(s, actions, t, feed, arrivals, EMPTY, k, synced);
    base :| StandsOn(Received(EMPTY, arrivals), base, LogOf(t, feed).applied, LogOf(t, feed).applied, k, synced);
  }

  lemma EmptyStands(s: System, feed: nat, whole: seq<Event>, k: nat, synced: bool)
    requires Initial(s)
    ensures Stands(EMPTY, LogOf(s, feed), whole, k, synced)
  {
  }
}
