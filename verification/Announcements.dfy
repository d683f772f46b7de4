/** Which events the worker hears: an event whose session it does not know has nowhere to go
    (app/src/uplink/mod.rs, `reconcile`, `announce_session`, `run_worker`). */
module Announcements {
  import opened Common
  import opened Wire
  import opened Pipeline
  import Batching
  import PipelineSafety
  import Tapping

  // ---- runs, state by state ----

  ghost predicate StepAt(states: seq<System>, actions: seq<Action>, i: int) {
    && 0 <= i < |actions| && i + 1 < |states|
    && Enabled(states[i], actions[i]) && 0 <= Start(states[i])
    && states[i + 1] == Next(states[i], actions[i])
  }

  ghost predicate Trace(states: seq<System>, actions: seq<Action>) {
    && |states| == |actions| + 1 && Initial(states[0])
    && forall i :: 0 <= i < |actions| ==> StepAt(states, actions, i)
  }

  /** Every run passes through such states, and such states are a run. */
  lemma {:induction false} RunHasTrace(s: System, actions: seq<Action>, t: System) returns (states: seq<System>)
    requires Runs(s, actions, t)
    ensures |states| == |actions| + 1 && states[0] == s && states[|actions|] == t
    ensures forall i :: 0 <= i < |actions| ==> StepAt(states, actions, i)
    decreases |actions|
  {
    if actions == [] {
      states := [s];
    } else {
      var rest := RunHasTrace(Next(s, actions[0]), actions[1..], t);
      states := [s] + rest;
      forall i | 0 <= i < |actions| ensures StepAt(states, actions, i) {
        if i > 0 { assert StepAt(rest, actions[1..], i - 1); }
      }
    }
  }

  lemma {:induction false} TraceIsRun(states: seq<System>, actions: seq<Action>)
    requires |states| == |actions| + 1 && forall i :: 0 <= i < |actions| ==> StepAt(states, actions, i)
    ensures Runs(states[0], actions, states[|actions|])
    decreases |actions|
  {
    hide Next, Enabled;
    if actions != [] {
      assert StepAt(states, actions, 0);
      forall i | 0 <= i < |actions| - 1 ensures StepAt(states[1..], actions[1..], i) {
        assert StepAt(states, actions, i + 1);
      }
      TraceIsRun(states[1..], actions[1..]);
    }
  }

  // ---- what the worker knows ----

  /** The `i`th action receives the announcement. */
  ghost predicate Hears(states: seq<System>, actions: seq<Action>, i: int) {
    StepAt(states, actions, i) && actions[i].Receive? && states[i].channel[0].Announcement?
  }

  /** The announcement was received before the `n`th action, and the session has not been pruned since. */
  ghost predicate KnownAt(states: seq<System>, actions: seq<Action>, n: int) {
    exists i :: 0 <= i < n && Hears(states, actions, i) && NotPruned(actions, i, n)
  }

  ghost predicate NotPruned(actions: seq<Action>, i: int, n: int) {
    forall j :: i < j < n && 0 <= j < |actions| ==> !actions[j].Prune?
  }

  lemma KnownNext(states: seq<System>, actions: seq<Action>, n: nat)
    requires StepAt(states, actions, n)
    ensures KnownAt(states, actions, n + 1) <==>
        || Hears(states, actions, n)
        || (KnownAt(states, actions, n) && !actions[n].Prune?)
  {
    hide StepAt, Hears;
    assert Hears(states, actions, n) ==> NotPruned(actions, n, n + 1);
    if i :| 0 <= i < n + 1 && Hears(states, actions, i) && NotPruned(actions, i, n + 1) {
      assert NotPruned(actions, i, n);
      assert 0 <= n < |actions| by { StepBounds(states, actions, n); }
    }
    if i :| 0 <= i < n && Hears(states, actions, i) && NotPruned(actions, i, n) {
      assert !actions[n].Prune? ==> NotPruned(actions, i, n + 1) by { StepBounds(states, actions, n); }
    }
  }

  lemma StepBounds(states: seq<System>, actions: seq<Action>, n: int)
    requires StepAt(states, actions, n)
    ensures 0 <= n < |actions| && n + 1 < |states|
  {
  }

  lemma SinkNext(s: System, a: Action)
    requires Enabled(s, a) && 0 <= Start(s)
    ensures Next(s, a).sink.Some? <==> (a.Receive? && s.channel[0].Announcement?) || (s.sink.Some? && !a.Prune?)
  {
    hide Tapping.Announce, Tapping.Emit, Batching.ReadyCount, DeliverTo, Indices;
  }

  lemma {:induction false} SinkIffKnown(states: seq<System>, actions: seq<Action>, n: nat)
    requires Trace(states, actions) && n <= |actions|
    ensures states[n].sink.Some? <==> KnownAt(states, actions, n)
  {
    hide Next, Enabled, KnownAt;
    if n == 0 {
      assert !KnownAt(states, actions, 0) by { NothingKnown(states, actions); }
    } else {
      assert StepAt(states, actions, n - 1);
      SinkIffKnown(states, actions, n - 1);
      KnownNext(states, actions, n - 1);
      SinkNext(states[n - 1], actions[n - 1]);
    }
  }

  lemma NothingKnown(states: seq<System>, actions: seq<Action>)
    ensures !KnownAt(states, actions, 0)
  {
  }

  /** In every run an event the worker receives is buffered if and only if the announcement was received before
      it and the session has not been pruned since; otherwise it leaves no trace at all. */
  lemma BufferedIffKnown(states: seq<System>, actions: seq<Action>, n: nat)
    requires Trace(states, actions) && n < |actions| && actions[n].Receive? && StepAt(states, actions, n)
    requires states[n].channel[0].Carried?
    ensures
      var s, t := states[n], states[n + 1];
      if KnownAt(states, actions, n) then t.pushed == s.pushed + [s.channel[0].event]
      else t == s.(channel := s.channel[1..])
  {
    hide KnownAt, Trace;
    SinkIffKnown(states, actions, n);
  }

  // ---- everything handed to the channel ----

  /** What the worker has received before the `n`th action. */
  ghost function Received(states: seq<System>, actions: seq<Action>, n: nat): seq<Message>
    requires n <= |actions| && |states| == |actions| + 1
    requires forall i :: 0 <= i < |actions| ==> StepAt(states, actions, i)
  {
    if n == 0 then []
    else
      Received(states, actions, n - 1)
      + (assert StepAt(states, actions, n - 1); if actions[n - 1].Receive? then [states[n - 1].channel[0]] else [])
  }

  /** Received already, or still waiting. */
  ghost function Handed(states: seq<System>, actions: seq<Action>, n: nat): seq<Message>
    requires n <= |actions| && |states| == |actions| + 1
    requires forall i :: 0 <= i < |actions| ==> StepAt(states, actions, i)
  {
    Received(states, actions, n) + states[n].channel
  }

  /** The events the worker buffered: those received while it knew the session. */
  ghost function Heard(states: seq<System>, actions: seq<Action>, n: nat): seq<Event>
    requires n <= |actions| && |states| == |actions| + 1
    requires forall i :: 0 <= i < |actions| ==> StepAt(states, actions, i)
  {
    if n == 0 then []
    else
      Heard(states, actions, n - 1)
      + (assert StepAt(states, actions, n - 1);
         if actions[n - 1].Receive? && states[n - 1].channel[0].Carried? && KnownAt(states, actions, n - 1)
         then [states[n - 1].channel[0].event] else [])
  }

  function EventsOf(messages: seq<Message>): seq<Event> {
    if messages == [] then []
    else
      var last := messages[|messages| - 1];
      EventsOf(messages[..|messages| - 1]) + (if last.Carried? then [last.event] else [])
  }

  lemma {:induction false} EventsOfJoin(a: seq<Message>, b: seq<Message>)
    ensures EventsOf(a + b) == EventsOf(a) + EventsOf(b)
  {
    if b == [] {
      assert a + b == a;
    } else {
      var n := |b| - 1;
      EventsOfJoin(a, b[..n]);
      assert (a + b)[..|a + b| - 1] == a + b[..n];
    }
  }

  lemma {:induction false} EventsOfCarried(events: seq<Event>)
    ensures EventsOf(Carry(events)) == events
  {
    if events != [] {
      var n := |events| - 1;
      EventsOfCarried(events[..n]);
      assert Carry(events)[..n] == Carry(events[..n]);
    }
  }

  /** What one action puts on the channel. */
  ghost function Queued(s: System, a: Action): seq<Message>
    requires Enabled(s, a) && 0 <= Start(s)
  {
    if (a.Announce? || a.Emit?) && |s.channel| <= |Next(s, a).channel| then Next(s, a).channel[|s.channel|..] else []
  }

  lemma ChannelNext(s: System, a: Action)
    requires Enabled(s, a) && 0 <= Start(s)
    ensures Next(s, a).channel == (if a.Receive? then s.channel[1..] else s.channel) + Queued(s, a)
    ensures a.Receive? ==> Queued(s, a) == []
  {
    hide Tapping.Announce, Tapping.Emit, Batching.ReadyCount, DeliverTo, Indices;
  }

  lemma HandedNext(states: seq<System>, actions: seq<Action>, n: nat)
    requires |states| == |actions| + 1 && n < |actions| && forall i :: 0 <= i < |actions| ==> StepAt(states, actions, i)
    ensures StepAt(states, actions, n)
    ensures Handed(states, actions, n + 1) == Handed(states, actions, n) + Queued(states[n], actions[n])
  {
    hide Next, Enabled, Queued;
    assert StepAt(states, actions, n);
    ChannelNext(states[n], actions[n]);
    if actions[n].Receive? {
      var s := states[n];
      assert s.channel != [] by { ReceiveHas(s, actions[n]); }
      assert [s.channel[0]] + s.channel[1..] == s.channel;
    }
  }

  lemma ReceiveHas(s: System, a: Action)
    requires Enabled(s, a) && a.Receive?
    ensures s.channel != []
  {
  }

  lemma QueuedIsDelivered(s: System, a: Action)
    requires Enabled(s, a) && 0 <= Start(s)
    ensures Next(s, a).tap.delivered == s.tap.delivered + EventsOf(Queued(s, a))
  {
    hide Tapping.Offer, Batching.ReadyCount, DeliverTo, Indices, EventsOf;
    var t := Next(s, a);
    NoEvents();
    if a.Announce? || a.Emit? {
      assert s.tap.delivered <= t.tap.delivered;
      var more := t.tap.delivered[|s.tap.delivered|..];
      EventsOfCarried(more);
      EventsOfJoin([Announcement], Carry(more));
      assert t.tap.delivered == s.tap.delivered + more;
      if t.channel == s.channel + [Announcement] + Carry(more) {
        assert Queued(s, a) == [Announcement] + Carry(more);
      } else {
        assert t == s || Queued(s, a) == Carry(more);
      }
    }
  }

  lemma NoEvents()
    ensures EventsOf([]) == [] && EventsOf([Announcement]) == []
  {
    assert [Announcement][..0] == [];
  }

  lemma {:induction false} DeliveredIsHanded(states: seq<System>, actions: seq<Action>, n: nat)
    requires Trace(states, actions) && n <= |actions|
    ensures states[n].tap.delivered == EventsOf(Handed(states, actions, n))
  {
    hide Next, Enabled, Queued, EventsOf;
    if n == 0 {
      NoEvents();
      assert states[0].channel == [] && Handed(states, actions, 0) == [];
    } else {
      DeliveredIsHanded(states, actions, n - 1);
      HandedNext(states, actions, n - 1);
      QueuedIsDelivered(states[n - 1], actions[n - 1]);
      EventsOfJoin(Handed(states, actions, n - 1), Queued(states[n - 1], actions[n - 1]));
    }
  }

  lemma PushedNext(s: System, a: Action)
    requires Enabled(s, a) && 0 <= Start(s)
    ensures Next(s, a).pushed
            == s.pushed + (if a.Receive? && s.channel[0].Carried? && s.sink.Some? then [s.channel[0].event] else [])
  {
    hide Tapping.Announce, Tapping.Emit, Batching.ReadyCount, DeliverTo, Indices;
  }

  lemma {:induction false} PushedIsHeard(states: seq<System>, actions: seq<Action>, n: nat)
    requires Trace(states, actions) && n <= |actions|
    ensures states[n].pushed == Heard(states, actions, n)
  {
    hide Next, Enabled, KnownAt;
    if n > 0 {
      PushedIsHeard(states, actions, n - 1);
      assert StepAt(states, actions, n - 1);
      SinkIffKnown(states, actions, n - 1);
      PushedNext(states[n - 1], actions[n - 1]);
    }
  }

  /** Where every numbered event is: the channel lost it and confessed (or will), it waits in the channel, or the
      worker received it, and then buffered exactly those it received while it knew the session. */
  lemma EveryEventIsSomewhere(states: seq<System>, actions: seq<Action>, n: nat)
    requires Trace(states, actions) && n <= |actions|
    ensures
      var s := states[n];
      && s.tap.nextSeq == 1 + |EventsOf(Received(states, actions, n))| + |EventsOf(s.channel)| + s.tap.lost
      && s.pushed == Heard(states, actions, n)
  {
    hide Next, Enabled, KnownAt, EventsOf;
    DeliveredIsHanded(states, actions, n);
    EventsOfJoin(Received(states, actions, n), states[n].channel);
    PushedIsHeard(states, actions, n);
    TracePrefix(states, actions, n);
    TraceIsRun(states[..n + 1], actions[..n]);
    PipelineSafety.Reached(states[0], actions[..n], states[n]);
    PipelineSafety.InvTap(states[n]);
  }

  lemma TracePrefix(states: seq<System>, actions: seq<Action>, n: nat)
    requires Trace(states, actions) && n <= |actions|
    ensures Trace(states[..n + 1], actions[..n])
  {
    hide Next, Enabled;
    var some, first := states[..n + 1], actions[..n];
    forall i | 0 <= i < |first| ensures StepAt(some, first, i) { assert StepAt(states, actions, i); }
  }

  // ---- announced ahead of its events ----

  /** The tap handed over an event while the session was unannounced. */
  ghost predicate EarlyAt(states: seq<System>, actions: seq<Action>, i: int) {
    && StepAt(states, actions, i) && actions[i].Emit? && !states[i].tap.announced
    && states[i + 1].tap.delivered != states[i].tap.delivered
  }

  ghost predicate Early(states: seq<System>, actions: seq<Action>, n: int) {
    exists i :: 0 <= i < n && EarlyAt(states, actions, i)
  }

  /** The announcement is the first thing on the channel. */
  predicate Ahead(messages: seq<Message>) { messages == [] || messages[0].Announcement? }

  predicate HasAnnouncement(messages: seq<Message>) { exists i :: 0 <= i < |messages| && messages[i].Announcement? }

  lemma QueuedStart(s: System, a: Action)
    requires Enabled(s, a) && 0 <= Start(s)
    ensures
      var q, t := Queued(s, a), Next(s, a);
      && (HasAnnouncement(q) <==> !s.tap.announced && t.tap.announced)
      && (s.tap.announced ==> t.tap.announced) && (a.Emit? ==> t.tap.announced == s.tap.announced)
      && (HasAnnouncement(q) ==> q[0].Announcement?)
      && (q != [] && !HasAnnouncement(q) ==> a.Emit? && t.tap.delivered != s.tap.delivered)
      && (a.Emit? && t.tap.delivered != s.tap.delivered ==> q != [])
  {
    hide Tapping.Offer, Batching.ReadyCount, DeliverTo, Indices;
    var q := Queued(s, a);
    if a.Announce? && !s.tap.announced && a.session == Tapping.Sent {
      assert q[0] == Announcement;
    }
  }

  lemma {:induction false} AnnouncedIffHanded(states: seq<System>, actions: seq<Action>, n: nat)
    requires Trace(states, actions) && n <= |actions|
    ensures states[n].tap.announced <==> HasAnnouncement(Handed(states, actions, n))
  {
    hide Next, Enabled, Queued;
    if n > 0 {
      AnnouncedIffHanded(states, actions, n - 1);
      HandedNext(states, actions, n - 1);
      QueuedStart(states[n - 1], actions[n - 1]);
      HasEither(Handed(states, actions, n - 1), Queued(states[n - 1], actions[n - 1]));
    }
  }

  lemma HasEither(a: seq<Message>, b: seq<Message>)
    ensures HasAnnouncement(a + b) <==> HasAnnouncement(a) || HasAnnouncement(b)
  {
    if i :| 0 <= i < |a| && a[i].Announcement? { assert (a + b)[i].Announcement?; }
    if i :| 0 <= i < |b| && b[i].Announcement? { assert (a + b)[|a| + i].Announcement?; }
  }

  /** A session is announced ahead of its events exactly when no emission was accepted while it was unannounced. */
  lemma {:induction false} AheadIffNoneEarly(states: seq<System>, actions: seq<Action>, n: nat)
    requires Trace(states, actions) && n <= |actions|
    ensures Ahead(Handed(states, actions, n)) <==> !Early(states, actions, n)
  {
    hide Next, Enabled, Queued, HasAnnouncement, Early, Ahead;
    if n == 0 {
      assert Handed(states, actions, 0) == [];
      NothingEarly(states, actions);
    } else {
      HandedNext(states, actions, n - 1);
      AheadIffNoneEarly(states, actions, n - 1);
      AnnouncedIffHanded(states, actions, n - 1);
      QueuedStart(states[n - 1], actions[n - 1]);
      EarlyNext(states, actions, n - 1);
      var handed, q := Handed(states, actions, n - 1), Queued(states[n - 1], actions[n - 1]);
      AheadJoin(handed, q);
      if handed == [] {
        assert EarlyAt(states, actions, n - 1) <==> q != [] && !HasAnnouncement(q);
      } else if Ahead(handed) {
        assert states[n - 1].tap.announced;
      }
    }
  }

  lemma NothingEarly(states: seq<System>, actions: seq<Action>)
    ensures !Early(states, actions, 0) && Ahead([])
  {
  }

  lemma AheadJoin(handed: seq<Message>, q: seq<Message>)
    ensures Ahead(handed + q) <==> if handed == [] then Ahead(q) else Ahead(handed)
    ensures q == [] ==> Ahead(q)
    ensures HasAnnouncement(q) ==> q != []
    ensures !HasAnnouncement(q) ==> (Ahead(q) <==> q == [])
    ensures q != [] && q[0].Announcement? ==> Ahead(q)
    ensures handed == [] ==> Ahead(handed) && !HasAnnouncement(handed)
    ensures handed != [] && !HasAnnouncement(handed) ==> !Ahead(handed)
  {
  }

  lemma EarlyNext(states: seq<System>, actions: seq<Action>, n: nat)
    ensures Early(states, actions, n + 1) <==> Early(states, actions, n) || EarlyAt(states, actions, n)
  {
  }

  // ---- runs that lose events ----

  const SENT := Tapping.Sent

  function Announcing(session: Tapping.SendResult): Action { Announce(0, session, SENT, SENT) }

  function Emitting(kind: EventKind): Action { Emit(kind, 0, SENT, SENT) }

  function RosterKind(): EventKind { Roster(ChannelRef("public:1", None), true, []) }

  lemma RunsStep(s: System, a: Action, rest: seq<Action>, t: System)
    requires Enabled(s, a) && 0 <= Start(s) && Runs(Next(s, a), rest, t)
    ensures Runs(s, [a] + rest, t)
  {
    assert ([a] + rest)[1..] == rest;
  }

  /** A reconcile that finds the channel full and then, at once, room again: its roster is accepted ahead of any
      announcement, and the worker drops it without a word. */
  lemma RosterIsDroppedUncounted(s: System) returns (t: System)
    requires Initial(s)
    ensures Runs(s, [Announcing(Tapping.Full), Emitting(RosterKind()), Receive], t)
    ensures t.pushed == [] && t.channel == [] && t.sink.None? && t.discarded == {}
    ensures |t.tap.delivered| == 1 && t.tap.delivered[0].kind == RosterKind() && t.tap.lost == 0
        && t.tap.pendingDropped == 0
  {
    var e := Event(1, 0, RosterKind());
    var a := Next(s, Announcing(Tapping.Full));
    assert a == s;
    var tap := Tapping.FRESH.(nextSeq := 2, delivered := [e]);
    var b := s.(tap := tap, channel := [Carried(e)]);
    assert [] + [e] == [e] && [e][0..] == [e] && Carry([e]) == [Carried(e)];
    assert Emitted(s, RosterKind(), 0, SENT, SENT) == b by { assert [] + [] + [Carried(e)] == [Carried(e)]; }
    t := b.(channel := []);
    assert Next(b, Receive) == t by { assert [Carried(e)][1..] == []; }
    assert Runs(t, [], t);
    RunsStep(b, Receive, [], t);
    RunsStep(s, Emitting(RosterKind()), [Receive], t);
    RunsStep(s, Announcing(Tapping.Full), [Emitting(RosterKind()), Receive], t);
    assert [Receive] + [] == [Receive];
    assert [Emitting(RosterKind())] + [Receive] == [Emitting(RosterKind()), Receive];
    assert [Announcing(Tapping.Full)] + [Emitting(RosterKind()), Receive]
        == [Announcing(Tapping.Full), Emitting(RosterKind()), Receive];
  }

  // ---- runs that lose events after a prune ----

  /** The announcement and `session_started`, then `session_ended`, all received; sharing was on, then off. */
  function Over(s: System): System {
    var started, ended := Event(1, 0, SessionStarted), Event(2, 0, SessionEnded);
    s.(tap := Tapping.Tap(true, 3, 0, [started, ended], 0, 0),
       sink := Some(Sink([started, ended], true)), pushed := [started, ended])
  }

  const OPENING := [Announcing(SENT), Emitting(SessionEnded), Receive, Receive, Receive]

  lemma Opening(s: System)
    requires Initial(s)
    ensures Runs(s, OPENING, Over(s))
  {
    hide Next, Enabled;
    var started, ended := Event(1, 0, SessionStarted), Event(2, 0, SessionEnded);
    var a := s.(tap := Tapping.Tap(true, 2, 0, [started], 0, 0), channel := [Announcement, Carried(started)]);
    var b := a.(tap := Tapping.Tap(true, 3, 0, [started, ended], 0, 0),
                channel := [Announcement, Carried(started), Carried(ended)]);
    var c := b.(channel := [Carried(started), Carried(ended)], sink := Some(Sink([], false)));
    var d := c.(channel := [Carried(ended)], sink := Some(Sink([started], false)), pushed := [started]);
    FirstSteps(s, a, b);
    Receives(b, c, d, Over(s));
    assert Runs(Over(s), [], Over(s));
    RunsStep(d, Receive, [], Over(s));
    RunsStep(c, Receive, [Receive], Over(s));
    RunsStep(b, Receive, [Receive, Receive], Over(s));
    RunsStep(a, Emitting(SessionEnded), [Receive, Receive, Receive], Over(s));
    RunsStep(s, Announcing(SENT), [Emitting(SessionEnded), Receive, Receive, Receive], Over(s));
    assert [Receive] + [] == [Receive];
    assert [Receive] + [Receive] == [Receive, Receive];
    assert [Receive] + [Receive, Receive] == [Receive, Receive, Receive];
    assert [Emitting(SessionEnded)] + [Receive, Receive, Receive] == OPENING[1..];
    assert [Announcing(SENT)] + OPENING[1..] == OPENING;
  }

  lemma FirstSteps(s: System, a: System, b: System)
    requires Initial(s)
    requires a == s.(tap := Tapping.Tap(true, 2, 0, [Event(1, 0, SessionStarted)], 0, 0),
                     channel := [Announcement, Carried(Event(1, 0, SessionStarted))])
    requires b == a.(tap := Tapping.Tap(true, 3, 0, [Event(1, 0, SessionStarted), Event(2, 0, SessionEnded)], 0, 0),
                     channel := [Announcement, Carried(Event(1, 0, SessionStarted)),
                                 Carried(Event(2, 0, SessionEnded))])
    ensures Enabled(s, Announcing(SENT)) && 0 <= Start(s) && Next(s, Announcing(SENT)) == a
    ensures Enabled(a, Emitting(SessionEnded)) && 0 <= Start(a) && Next(a, Emitting(SessionEnded)) == b
  {
    var started, ended := Event(1, 0, SessionStarted), Event(2, 0, SessionEnded);
    assert [] + [started] == [started] && [started][0..] == [started] && Carry([started]) == [Carried(started)];
    assert [] + [Announcement] + [Carried(started)] == a.channel;
    OneMoreDelivered(a, SessionEnded);
    assert [started] + [ended] == b.tap.delivered;
  }

  /** An event accepted with nothing lost before it goes to the end of the queue. */
  lemma OneMoreDelivered(s: System, kind: EventKind)
    requires s.tap.announced && s.tap.pendingDropped == 0 && !kind.Dropped? && |s.channel| < CHANNEL_CAPACITY
        && 0 <= Start(s)
    ensures
      var e := Event(s.tap.nextSeq, 0, kind);
      && Enabled(s, Emitting(kind))
      && Next(s, Emitting(kind))
         == s.(tap := s.tap.(nextSeq := s.tap.nextSeq + 1, delivered := s.tap.delivered + [e]),
               channel := s.channel + [Carried(e)])
  {
    var e := Event(s.tap.nextSeq, 0, kind);
    var delivered := s.tap.delivered + [e];
    assert delivered[|s.tap.delivered|..] == [e] && Carry([e]) == [Carried(e)];
    assert s.channel + [] + [Carried(e)] == s.channel + [Carried(e)];
  }

  lemma Receives(b: System, c: System, d: System, e: System)
    requires b.channel == [Announcement, Carried(Event(1, 0, SessionStarted)), Carried(Event(2, 0, SessionEnded))]
    requires b.sink.None? && b.pushed == [] && b.discarded == {}
    requires c == b.(channel := b.channel[1..], sink := Some(Sink([], false)))
    requires d == c.(channel := c.channel[1..], sink := Some(Sink([Event(1, 0, SessionStarted)], false)),
                     pushed := [Event(1, 0, SessionStarted)])
    requires e == d.(channel := [], sink := Some(Sink([Event(1, 0, SessionStarted), Event(2, 0, SessionEnded)], true)),
                     pushed := [Event(1, 0, SessionStarted), Event(2, 0, SessionEnded)])
    ensures Enabled(b, Receive) && 0 <= Start(b) && Next(b, Receive) == c
    ensures Enabled(c, Receive) && 0 <= Start(c) && Next(c, Receive) == d
    ensures Enabled(d, Receive) && 0 <= Start(d) && Next(d, Receive) == e
  {
    var started, ended := Event(1, 0, SessionStarted), Event(2, 0, SessionEnded);
    var none: seq<Event> := [];
    assert Indices(0, 0) == {};
    assert none[0..] + [started] == [started] && [started][0..] + [ended] == [started, ended];
    assert c.pushed + [started] == [started] && d.pushed + [ended] == e.pushed;
  }

  /** Accepting a whole short buffer, pruning, and one more event: it is dropped. */
  lemma AcceptPruneAndLose(s: System, kind: EventKind) returns (t: System)
    requires s.sink.Some? && s.sink.value.ended && s.identity.Some? && s.channel == []
    requires 0 < |s.sink.value.pending| <= 64 && s.pushed == s.sink.value.pending && s.discarded == {}
    requires forall i :: 0 <= i < |s.sink.value.pending| ==> !s.sink.value.pending[i].kind.SyncStarted?
    requires s.tap.announced && s.tap.pendingDropped == 0 && !kind.Dropped?
    ensures Runs(s, [FlushPost(Accepted), Prune, Emitting(kind), Receive], t)
    ensures t.pushed == s.pushed && t.channel == [] && t.discarded == {} && t.tap.lost == s.tap.lost
    ensures t.tap.delivered == s.tap.delivered + [Event(s.tap.nextSeq, 0, kind)]
  {
    hide Tapping.Emit, DeliverTo;
    var pending := s.sink.value.pending;
    WholeBatch(pending);
    assert pending[|pending|..] == [] && pending[..|pending|] == pending;
    var a := Next(s, FlushPost(Accepted));
    assert a.sink == Some(Sink([], true)) && a.channel == [] && a.tap == s.tap;
    var b := Next(a, Prune);
    OneMoreDelivered(b, kind);
    var c := Next(b, Emitting(kind));
    t := Next(c, Receive);
    assert c.channel == [Carried(Event(s.tap.nextSeq, 0, kind))];
    assert Runs(t, [], t);
    RunsStep(c, Receive, [], t);
    RunsStep(b, Emitting(kind), [Receive], t);
    RunsStep(a, Prune, [Emitting(kind), Receive], t);
    RunsStep(s, FlushPost(Accepted), [Prune, Emitting(kind), Receive], t);
    assert [Receive] + [] == [Receive];
    assert [Emitting(kind)] + [Receive] == [Emitting(kind), Receive];
    assert [Prune] + [Emitting(kind), Receive] == [Prune, Emitting(kind), Receive];
    assert [FlushPost(Accepted)] + [Prune, Emitting(kind), Receive]
        == [FlushPost(Accepted), Prune, Emitting(kind), Receive];
  }

  lemma WholeBatch(pending: seq<Event>)
    requires 0 < |pending| <= 64 && forall i :: 0 <= i < |pending| ==> !pending[i].kind.SyncStarted?
    ensures Batching.ReadyCount(pending) == Some(|pending|)
  {
    assert pending[..|pending|] == pending;
  }

  lemma {:induction false} RunsJoin(s: System, a: seq<Action>, m: System, b: seq<Action>, t: System)
    requires Runs(s, a, m) && Runs(m, b, t)
    ensures Runs(s, a + b, t)
    decreases |a|
  {
    hide Next, Enabled;
    if a == [] {
      assert a + b == b;
    } else {
      RunsJoin(Next(s, a[0]), a[1..], m, b, t);
      assert (a + b)[1..] == a[1..] + b;
    }
  }

  /** Sharing is switched off, the session drains and is pruned, sharing is switched on again: the new
      `session_started` is accepted by the channel and dropped by the worker. */
  lemma SwitchedOnAfterPruneIsLost(s: System) returns (t: System)
    requires Initial(s) && s.identity.Some?
    ensures Runs(s, OPENING + [FlushPost(Accepted), Prune, Emitting(SessionStarted), Receive], t)
    ensures t.channel == [] && t.tap.lost == 0 && t.discarded == {}
    ensures |t.pushed| == 2 && |t.tap.delivered| == 3 && t.tap.delivered[2].kind.SessionStarted?
  {
    hide Runs;
    Opening(s);
    t := AcceptPruneAndLose(Over(s), SessionStarted);
    RunsJoin(s, OPENING, Over(s), [FlushPost(Accepted), Prune, Emitting(SessionStarted), Receive], t);
  }

  /** Switching sharing on again before the drain does not help: the session still counts as ended, is pruned as
      soon as the buffer is empty, and the next event is dropped. */
  lemma SwitchedOnBeforeDrainIsLost(s: System) returns (t: System)
    requires Initial(s) && s.identity.Some?
    ensures Runs(s, OPENING + [Emitting(SessionStarted), Receive]
                 + [FlushPost(Accepted), Prune, Emitting(Heartbeat), Receive], t)
    ensures t.channel == [] && t.tap.lost == 0 && t.discarded == {}
    ensures |t.pushed| == 3 && t.pushed[2].kind.SessionStarted? && |t.tap.delivered| == 4
        && t.tap.delivered[3].kind.Heartbeat?
  {
    hide Runs;
    Opening(s);
    var m := Over(s);
    var a := BackOn(m);
    RunsJoin(s, OPENING, m, [Emitting(SessionStarted), Receive], a);
    t := AcceptPruneAndLose(a, Heartbeat);
    RunsJoin(s, OPENING + [Emitting(SessionStarted), Receive], a,
             [FlushPost(Accepted), Prune, Emitting(Heartbeat), Receive], t);
  }

  lemma BackOn(m: System) returns (a: System)
    requires m.sink.Some? && m.channel == [] && m.tap.announced && m.tap.pendingDropped == 0
    requires m.pushed == m.sink.value.pending && |m.pushed| < 64
    ensures Runs(m, [Emitting(SessionStarted), Receive], a)
    ensures
      var e := Event(m.tap.nextSeq, 0, SessionStarted);
      && a.sink == Some(Sink(m.pushed + [e], m.sink.value.ended)) && a.pushed == m.pushed + [e] && a.channel == []
      && a.identity == m.identity && a.discarded == m.discarded
      && a.tap == m.tap.(nextSeq := m.tap.nextSeq + 1, delivered := m.tap.delivered + [e])
  {
    hide Tapping.Emit;
    OneMoreDelivered(m, SessionStarted);
    var b := Next(m, Emitting(SessionStarted));
    a := Next(b, Receive);
    assert m.pushed[0..] == m.pushed && Indices(0, 0) == {};
    assert Runs(a, [], a);
    RunsStep(b, Receive, [], a);
    RunsStep(m, Emitting(SessionStarted), [Receive], a);
    assert [Receive] + [] == [Receive];
    assert [Emitting(SessionStarted)] + [Receive] == [Emitting(SessionStarted), Receive];
  }

  /** Nothing but a prune makes the worker forget that a session ended: not in any run, and not when sharing is
      switched on again. */
  lemma {:induction false} EndedStays(s: System, actions: seq<Action>, t: System)
    requires Runs(s, actions, t) && s.sink.Some? && s.sink.value.ended && Prune !in actions
    ensures t.sink.Some? && t.sink.value.ended
    decreases |actions|
  {
    hide Next, Enabled;
    if actions != [] {
      assert actions[0] in actions && forall a :: a in actions[1..] ==> a in actions;
      EndedNext(s, actions[0]);
      EndedStays(Next(s, actions[0]), actions[1..], t);
    }
  }

  lemma EndedNext(s: System, a: Action)
    requires Enabled(s, a) && 0 <= Start(s) && s.sink.Some? && s.sink.value.ended
    ensures Next(s, a).sink.Some? ==> Next(s, a).sink.value.ended
    ensures Next(s, a).sink.None? <==> a.Prune?
  {
    hide Tapping.Announce, Tapping.Emit, Batching.ReadyCount, DeliverTo, Indices;
  }
}
