/** From the tap to the transcript: what the messages table of a feed holds after a run of the whole system
    (app/src/uplink/mod.rs, live/worker/store.ts). */
module ExactlyOnce {
  import opened Common
  import opened Wire
  import opened Store
  import opened StoreProperties
  import opened Pipeline
  import PipelineSafety

  // ---- the transcript an event log stands for ----

  function SenderLine(e: Event, key: string, kind: string, sender: Option<UserRef>, body: string): MessageRow {
    match sender
    case Some(u) => MessageRow(key, e.ts, kind, u.handle, u.name, u.clanTag, body)
    case None => MessageRow(key, e.ts, kind, 0, None, None, body)
  }

  /** The line an event leaves in the transcript, if any. */
  function Line(e: Event): Option<MessageRow> {
    match e.kind
    case Message(c, subkind, sender, body) =>
        Some(SenderLine(e, c.key, if subkind == "emote" then subkind else "talk", sender, body))
    case Notice(c, subkind, body) =>
      if subkind in {"broadcast", "information"} then Some(SenderLine(e, c.key, subkind, None, body)) else None
    case MemberJoined(c, user) => Some(SenderLine(e, c.key, "member_joined", Some(user), ""))
    case MemberLeft(c, user) => Some(SenderLine(e, c.key, "member_left", Some(user), ""))
    case _ => None
  }

  type Lines = map<nat, MessageRow>

  function Written(lines: Lines, events: seq<Event>): Lines
    decreases |events|
  {
    if events == [] then lines
    else Written(if Line(events[0]).Some? then lines[events[0].number := Line(events[0]).value] else lines, events[1..])
  }

  function Transcript(log: seq<Event>): Lines { Written(map[], log) }

  lemma {:induction false} WrittenAppend(lines: Lines, a: seq<Event>, b: seq<Event>)
    ensures Written(lines, a + b) == Written(Written(lines, a), b)
    decreases |a|
  {
    hide Line;
    if a == [] {
      assert a + b == b;
    } else {
      assert (a + b)[0] == a[0] && (a + b)[1..] == a[1..] + b;
      WrittenAppend(if Line(a[0]).Some? then lines[a[0].number := Line(a[0]).value] else lines, a[1..], b);
    }
  }

  /** A log in order has one line for each of its transcribed events, and no other. */
  lemma {:induction false} TranscriptLines(log: seq<Event>, n: nat)
    requires Increasing(log)
    ensures n in Transcript(log) <==> exists i :: 0 <= i < |log| && log[i].number == n && Line(log[i]).Some?
    ensures forall i :: 0 <= i < |log| && Line(log[i]).Some? && log[i].number == n ==>
              n in Transcript(log) && Transcript(log)[n] == Line(log[i]).value
    decreases |log|
  {
    hide Line;
    if log != [] {
      var k := |log| - 1;
      var init, last := log[..k], log[k];
      TranscriptLines(init, n);
      WrittenAppend(map[], init, [last]);
      assert init + [last] == log;
      assert Transcript(log) == Written(Transcript(init), [last]);
      assert [last][1..] == [];
      assert forall i :: 0 <= i < k ==> log[i] == init[i] && log[i].number < last.number;
    }
  }

  // ---- one request ----

  ghost predicate NumbersBelow(lines: Lines, n: int) { forall k :: k in lines ==> k < n }

  lemma ApplyWritesLine(t: Tables, e: Event, receivedAt: nat)
    requires t.session.Some? && e.number !in t.messages
    ensures Apply(t, e, receivedAt).messages == Written(t.messages, [e])
  {
    assert [e][1..] == [];
    var line := if Line(e).Some? then t.messages[e.number := Line(e).value] else t.messages;
    assert Written(t.messages, [e]) == Written(line, []) == line;
  }

  lemma {:induction false} ApplyAllWrites(t: Tables, events: seq<Event>, receivedAt: nat, n: int)
    requires t.session.Some? && Increasing(events) && NumbersBelow(t.messages, n)
        && forall e :: e in events ==> e.number >= n
    ensures ApplyAll(t, events, receivedAt).messages == Written(t.messages, events)
    decreases |events|
  {
    hide Apply, Line;
    if events != [] {
      var e := events[0];
      ApplyWritesLine(t, e, receivedAt);
      OneLine(t.messages, e);
      ApplyAllWrites(Apply(t, e, receivedAt), events[1..], receivedAt, e.number + 1);
      assert [e] + events[1..] == events;
      WrittenAppend(t.messages, [e], events[1..]);
    }
  }

  lemma OneLine(lines: Lines, e: Event)
    ensures NumbersBelow(lines, e.number) ==> NumbersBelow(Written(lines, [e]), e.number + 1)
    ensures Written(lines, [e]).Keys <= lines.Keys + {e.number}
  {
  }

  lemma {:induction false} WrittenBelow(lines: Lines, events: seq<Event>, n: int)
    requires NumbersBelow(lines, n) && forall e :: e in events ==> e.number < n
    ensures NumbersBelow(Written(lines, events), n)
    decreases |events|
  {
    hide Line;
    if events != [] {
      var next := if Line(events[0]).Some? then lines[events[0].number := Line(events[0]).value] else lines;
      WrittenBelow(next, events[1..], n);
    }
  }

  /** The tables hold what the log says: the same `last_seq`, and the transcript of the events applied. */
  ghost predicate Follows(t: Tables, log: FeedLog) {
    && LastSeq(t) == log.lastSeq
    && NumbersBelow(t.messages, log.lastSeq + 1)
    && t.messages == Transcript(log.applied)
  }

  /** `storeEnvelope` refines the log: it adds to the transcript exactly the events the log appends. */
  lemma StoringFollowsLog(t: Tables, log: FeedLog, meta: Session, events: seq<Event>, receivedAt: nat)
    requires Follows(t, log) && Increasing(events)
    ensures Follows(Stored(t, meta, events, receivedAt), StoreInLog(log, events))
  {
    hide Written, Transcript, Effect, Fresh;
    FreshIsNew(events, log.lastSeq);
    var recent := Fresh(events, log.lastSeq);
    if recent != [] {
      var newest := recent[|recent| - 1];
      var start := FeedUpkeep(SessionUpkeep(t, meta, newest, receivedAt), receivedAt);
      IncreasingLast(recent);
      assert newest.number > log.lastSeq;
      assert start.session.value.lastSeq == newest.number;
      ApplyAllWrites(start, recent, receivedAt, log.lastSeq + 1);
      TranscriptAppend(log.applied, recent);
      WrittenBelow(t.messages, recent, newest.number + 1);
    }
  }

  lemma TranscriptAppend(a: seq<Event>, b: seq<Event>)
    ensures Transcript(a + b) == Written(Transcript(a), b)
  {
    hide Written;
    WrittenAppend(map[], a, b);
  }

  // ---- a run ----

  /** A request as it reaches the server: the session it describes itself with and the time of arrival vary. */
  datatype Arrival = Arrival(meta: Session, events: seq<Event>, receivedAt: nat)

  function Received(t: Tables, arrivals: seq<Arrival>): Tables
    decreases |arrivals|
  {
    if arrivals == [] then t
    else Received(Stored(t, arrivals[0].meta, arrivals[0].events, arrivals[0].receivedAt), arrivals[1..])
  }

  /** What one action delivers to a feed. */
  function DeliveredBy(s: System, a: Action, feed: nat): seq<seq<Event>>
    requires Enabled(s, a)
  {
    if a.Deliver? && a.post.feed == feed then [a.post.events]
    else if a.FlushPost? && a.reply.Accepted? && s.identity == Some(feed) then
      Batching.BatchIsBounded(s.sink.value.pending);
      [s.sink.value.pending[..Batching.ReadyCount(s.sink.value.pending).value]]
    else []
  }

  ghost predicate Matches(arrivals: seq<Arrival>, delivered: seq<seq<Event>>) {
    |arrivals| == |delivered| && forall i :: 0 <= i < |arrivals| ==> arrivals[i].events == delivered[i]
  }

  /** The arrivals at a feed over a run, redeliveries included. */
  ghost predicate ArrivesIn(s: System, actions: seq<Action>, feed: nat, arrivals: seq<Arrival>)
    decreases |actions|
  {
    if actions == [] then arrivals == []
    else
      && Enabled(s, actions[0]) && 0 <= Start(s)
      && var now := DeliveredBy(s, actions[0], feed);
      && |now| <= |arrivals|
      && Matches(arrivals[..|now|], now)
      && ArrivesIn(Next(s, actions[0]), actions[1..], feed, arrivals[|now|..])
  }

  lemma StepLog(s: System, a: Action, feed: nat)
    requires Enabled(s, a) && 0 <= Start(s)
    ensures
      var now := DeliveredBy(s, a, feed);
      && |now| <= 1
      && LogOf(Next(s, a), feed) == if now == [] then LogOf(s, feed) else StoreInLog(LogOf(s, feed), now[0])
  {
    hide StoreInLog, Batching.ReadyCount, Indices, Tapping.Announce, Tapping.Emit;
  }

  lemma DeliveredIncreasing(s: System, a: Action, feed: nat)
    requires PipelineSafety.StepReady(s, a)
    ensures forall i :: 0 <= i < |DeliveredBy(s, a, feed)| ==> Increasing(DeliveredBy(s, a, feed)[i])
  {
    hide Batching.ReadyCount, LosslessWhenAlone, Logs, Conserved;
    if a.FlushPost? {
      PipelineSafety.BatchIsGenuine(s);
    } else if a.Deliver? {
      assert Genuine(a.post, s.pushed, Start(s));
    }
  }

  lemma {:induction false} RunFollows(s: System, actions: seq<Action>, t: System, feed: nat, arrivals: seq<Arrival>,
                                      tables: Tables)
    requires Inv(s) && Runs(s, actions, t) && ArrivesIn(s, actions, feed, arrivals)
    requires Follows(tables, LogOf(s, feed))
    ensures Follows(Received(tables, arrivals), LogOf(t, feed))
    decreases |actions|
  {
    hide Inv, Next, Follows, DeliveredBy, Enabled, Stored, StoreInLog;
    if actions != [] {
      var a := actions[0];
      var now := DeliveredBy(s, a, feed);
      StepLog(s, a, feed);
      PipelineSafety.StepKeeps(s, a);
      DeliveredIncreasing(s, a, feed);
      if now == [] {
        assert arrivals[0..] == arrivals;
        RunFollows(Next(s, a), actions[1..], t, feed, arrivals, tables);
      } else {
        var first := arrivals[0];
        assert arrivals[..1][0] == first && first.events == now[0];
        StoringFollowsLog(tables, LogOf(s, feed), first.meta, first.events, first.receivedAt);
        RunFollows(Next(s, a), actions[1..], t, feed, arrivals[1..],
                   Stored(tables, first.meta, first.events, first.receivedAt));
      }
    }
  }

  /** In every run, whatever is lost, repeated or re-cut on the way, the transcript a feed stores is the
      transcript of the events applied once each; with nothing given up and a single feed it is the transcript
      of everything the session produced, as soon as the buffer is empty. */
  lemma TranscriptIsExact(s: System, actions: seq<Action>, t: System, feed: nat, arrivals: seq<Arrival>)
    requires Initial(s) && Runs(s, actions, t) && ArrivesIn(s, actions, feed, arrivals)
    ensures
      var stored := Received(EMPTY, arrivals).messages;
      && stored == Transcript(LogOf(t, feed).applied)
      && Increasing(LogOf(t, feed).applied)
      && (t.discarded == {} && OnlyFeed(t, feed) && Buffered(t) == [] ==> stored == Transcript(t.pushed))
  {
    hide Runs, ArrivesIn, Received, Inv;
    PipelineSafety.StartsInvariant(s);
    NothingStored(s, feed);
    RunFollows(s, actions, t, feed, arrivals, EMPTY);
    PipelineSafety.AppliedAtMostOnce(s, actions, t);
    if t.discarded == {} && OnlyFeed(t, feed) {
      PipelineSafety.LosslessRunAppliesEverything(s, actions, t, feed);
    }
  }

  lemma NothingStored(s: System, feed: nat)
    requires Initial(s)
    ensures Follows(EMPTY, LogOf(s, feed))
  {
  }
}
