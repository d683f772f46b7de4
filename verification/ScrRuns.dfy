/** Whole sessions of a classic product: channels, chat lines, keepalive ticks, and sharing switched off and on
    (app/src/uplink/classic.rs, `ClassicSessionTap`; app/src/uplink/scr.rs). */
module ScrRuns {
  import opened Common
  import opened Names
  import opened Wire
  import opened Projection
  import opened Store
  import opened StoreProperties
  import opened Issued
  import opened SnapshotDiff

  datatype LineKind = Talk | Emote | Broadcast | Information | Whisper | Error

  datatype ScrLine = ScrLine(kind: LineKind, sender: Option<string>, text: Option<string>)

  datatype Cause = Seen(channel: ScrChannel) | Line(line: ScrLine) | Tick | Switch(on: bool) | End

  datatype Tap = Tap(who: Account, projector: Scr, enabled: bool, announced: bool, ended: bool)

  /** `message_event`: whispers and errors stay on the machine. */
  function LineEvent(who: Account, p: Scr, l: ScrLine): Option<EventKind> {
    if p.channel.None? then None
    else
      var channel := ChannelRef(p.channel.value.1, None);
      var body := Truncated(if l.text.Some? then l.text.value else "");
      match l.kind
      case Broadcast => Some(Notice(channel, "broadcast", body))
      case Information => Some(Notice(channel, "information", body))
      case Whisper => None
      case Error => None
      case _ =>
        if l.sender.None? then None
        else
          var name := l.sender.value;
          Some(Message(channel, if l.kind.Emote? then "emote" else "talk",
                       Some(UserRef(who.handleOf(name), Some(name), None, None, None, None, None, None, None)), body))
  }

  /** `resend`: the whole roster, if it has been sent. */
  function Resend(p: Scr): seq<EventKind> {
    if p.channel.None? || !p.rosterSent then []
    else [Roster(ChannelRef(p.channel.value.1, None), true, Values(p.roster))]
  }

  /** The first thing a session sends is its start. */
  function Announced(x: Tap, kinds: seq<EventKind>): seq<EventKind> {
    if x.announced || kinds == [] then kinds else [SessionStarted] + kinds
  }

  function Ended(x: Tap): (Tap, seq<EventKind>) {
    if x.announced && !x.ended then (x.(ended := true), [SessionEnded]) else (x, [])
  }

  /** What a cause does to the tap, and what it sends when nothing is lost. */
  function Moved(x: Tap, c: Cause): (Tap, seq<EventKind>) {
    match c
    case Seen(channel) =>
      if !x.enabled then (x, [])
      else
        var s := SnapshotOf(x.who, channel);
        var kinds := ChannelEvents(x.projector, s);
        (x.(projector := AfterSnapshot(x.projector, s), announced := x.announced || kinds != []), Announced(x, kinds))
    case Line(line) =>
      var kind := if x.enabled then LineEvent(x.who, x.projector, line) else None;
      if kind.None? then (x, []) else (x.(announced := true), Announced(x, [kind.value]))
    case Tick =>
      if !x.enabled then Ended(x)
      else if x.ended then
        var reset := x.projector.(rosterSent := false);
        (x.(projector := reset, ended := false), [SessionStarted] + Resend(reset))
      else (x, if x.announced then [Heartbeat] else [])
    case Switch(on) => (x.(enabled := on), [])
    case End => Ended(x)
  }

  /** A roster is sent again only if it counts as sent, and the tick that finds sharing on again clears that first:
      the member list comes back with the next snapshot, not with the tick. */
  lemma ResentIff(p: Scr, x: Tap)
    ensures Resend(p) != [] <==> p.channel.Some? && p.rosterSent
    ensures x.enabled && x.ended ==> Moved(x, Tick).1 == [SessionStarted]
  {
  }

  /** The object of the source. `out` is what it offers to the channel. */
  class ClassicTap {
    const projector: ScrProjector
    var enabled: bool
    var announced: bool
    var ended: bool
    var out: seq<EventKind>

    constructor (who: Account, enabled: bool)
      ensures fresh(projector) && Value() == Tap(who, FRESH, enabled, false, false) && out == []
    {
      projector := new ScrProjector(who);
      this.enabled, announced, ended, out := enabled, false, false, [];
    }

    function Value(): Tap
      reads this, projector
    {
      Tap(projector.who, projector.Value(), enabled, announced, ended)
    }

    /** `announce_and_emit`, when the channel has room. */
    method Emit(kind: EventKind)
      modifies this`out, this`announced
      ensures out == old(out) + Announced(old(Value()), [kind]) && announced
    {
      if !announced {
        announced := true;
        out := out + [SessionStarted];
      }
      out := out + [kind];
    }

    method EmitAll(kinds: seq<EventKind>)
      modifies this`out, this`announced
      ensures out == old(out) + Announced(old(Value()), kinds) && announced == (old(announced) || kinds != [])
    {
      for i := 0 to |kinds|
        invariant out == old(out) + Announced(old(Value()), kinds[..i]) && announced == (old(announced) || i > 0)
      {
        Emit(kinds[i]);
        assert kinds[..i + 1] == kinds[..i] + [kinds[i]];
      }
      assert kinds[..|kinds|] == kinds;
    }

    method EndSession()
      modifies this`out, this`ended
      ensures Value() == Ended(old(Value())).0 && out == old(out) + Ended(old(Value())).1
    {
      if announced && !ended {
        out := out + [SessionEnded];
        ended := true;
      }
    }

    method Heartbeat()
      modifies this, projector
      ensures Value() == Moved(old(Value()), Tick).0 && out == old(out) + Moved(old(Value()), Tick).1
    {
      if !enabled {
        EndSession();
        return;
      }
      if ended {
        ended := false;
        projector.rosterSent := false;
        out := out + [SessionStarted];
        assert Resend(projector.Value()) == [];
      } else if announced {
        out := out + [EventKind.Heartbeat];
      }
    }

    method ObserveLine(line: ScrLine)
      modifies this
      ensures Value() == Moved(old(Value()), Line(line)).0 && out == old(out) + Moved(old(Value()), Line(line)).1
    {
      if !enabled {
        return;
      }
      var kind := LineEvent(projector.who, projector.Value(), line);
      if kind.Some? {
        Emit(kind.value);
      }
    }

    method ObserveChannel(channel: ScrChannel)
      modifies this, projector
      ensures Value() == Moved(old(Value()), Seen(channel)).0 && out == old(out) + Moved(old(Value()), Seen(channel)).1
    {
      if !enabled {
        return;
      }
      var kinds := projector.Observe(channel);
      EmitAll(kinds);
    }
  }

  // ---- one cause stored ----

  /** A session with what the server can be held to: `shown` once a roster was sent, the avatars remembered since
      the last whole roster, and the last channel seen while sharing was on. */
  datatype Course = Course(tap: Tap, shown: bool, memory: Memory, last: Option<ScrChannel>)

  function Onward(x: Course, c: Cause): Course {
    var tap := Moved(x.tap, c).0;
    if c.Seen? && x.tap.enabled then
      var s := SnapshotOf(x.tap.who, c.channel);
      Course(tap, true, Remember(Enter(x.tap.projector, s), s, x.memory), Some(c.channel))
    else x.(tap := tap)
  }

  ghost predicate Held(x: Course, t: Tables, n: nat) { InStep(x.tap.projector, x.shown, t, x.memory, n) }

  /** The channel kept its key, or there was nothing to send. */
  ghost predicate Kept(x: Tap, c: Cause) {
    c.Seen? && x.enabled ==>
      var s := SnapshotOf(x.who, c.channel);
      KeptKey(x.projector, s) || ChannelEvents(x.projector, s) == []
  }

  /** Events that concern the session alone. */
  predicate Sessional(kind: EventKind) { kind.SessionStarted? || kind.SessionEnded? || kind.Heartbeat? }

  lemma SessionalKeeps(p: Scr, shown: bool, memory: Memory, t: Tables, events: seq<Event>, kind: EventKind, n: nat,
                       m: nat, receivedAt: nat)
    requires InStep(p, shown, t, memory, n) && Sessional(kind) && Carries(events, [kind], n, m)
    ensures InStep(p, shown, ApplyAll(t, events, receivedAt), memory, m)
  {
    hide Shows, Older, Keyed, ApplyAll, Carries;
    var e := CarriesOne(t, events, kind, n, m, receivedAt);
    InStepLater(p, shown, t, memory, n, m);
    SessionalRows(t, e, receivedAt);
    OlderSame(t, Apply(t, e, receivedAt), m);
    var u := Apply(t, e, receivedAt);
    assert u.session.Some?;
    assert Keyed(p.roster) && Older(u, m) && (p.rosterSent ==> shown);
    assert forall k :: Open(u, k) <==> Open(t, k);
    assert forall k :: MembersOf(u, k) == MembersOf(t, k);
  }

  lemma SessionalRows(t: Tables, e: Event, receivedAt: nat)
    requires t.session.Some? && Sessional(e.kind)
    ensures Apply(t, e, receivedAt).channels == t.channels && Apply(t, e, receivedAt).roster == t.roster
  {
  }

  lemma LineKeeps(x: Tap, line: ScrLine, shown: bool, memory: Memory, t: Tables, events: seq<Event>, n: nat, m: nat,
                  receivedAt: nat)
    requires InStep(x.projector, shown, t, memory, n) && LineEvent(x.who, x.projector, line).Some?
    requires Carries(events, [LineEvent(x.who, x.projector, line).value], n, m)
    ensures InStep(x.projector, shown, ApplyAll(t, events, receivedAt), memory, m)
  {
    hide Shows, Older, Keyed, ApplyAll, Carries, LineEvent;
    LineIs(x.who, x.projector, line);
    var kind := LineEvent(x.who, x.projector, line).value;
    var e := CarriesOne(t, events, kind, n, m, receivedAt);
    InStepLater(x.projector, shown, t, memory, n, m);
    ApplyOlder(t, e, receivedAt, m);
    LineTouches(t, e, receivedAt);
  }

  lemma LineIs(who: Account, p: Scr, line: ScrLine)
    requires LineEvent(who, p, line).Some?
    ensures
      var kind := LineEvent(who, p, line).value;
      p.channel.Some? && (kind.Message? || kind.Notice?) && kind.channel == ChannelRef(p.channel.value.1, None)
  {
  }

  lemma LineTouches(t: Tables, e: Event, receivedAt: nat)
    requires t.session.Some? && (e.kind.Message? || e.kind.Notice?)
    ensures
      var r := Apply(t, e, receivedAt);
      && r.session.Some? && r.roster == t.roster && Open(r, e.kind.channel.key)
      && forall k :: k != e.kind.channel.key ==> (Open(r, k) <==> Open(t, k))
  {
    hide ChannelTouch, TranscriptRow;
    TouchOpens(t, e.kind.channel, e);
  }

  /** The start of a session, when it has not been announced, changes nothing for what follows. */
  lemma AnnouncedParts(x: Tap, shown: bool, memory: Memory, t: Tables, kinds: seq<EventKind>, events: seq<Event>,
                       n: nat, m: nat, receivedAt: nat) returns (u: Tables, rest: seq<Event>, k: nat)
    requires InStep(x.projector, shown, t, memory, n) && Carries(events, Announced(x, kinds), n, m)
    ensures t.session.Some? && u.session.Some? && InStep(x.projector, shown, u, memory, k) && Carries(rest, kinds, k, m)
    ensures ApplyAll(t, events, receivedAt) == ApplyAll(u, rest, receivedAt)
  {
    hide InStep, ApplyAll, Carries;
    InStepSession(x.projector, shown, t, memory, n);
    if x.announced || kinds == [] {
      u, rest, k := t, events, n;
    } else {
      CarriesParts(events, [SessionStarted], kinds, n, m);
      var first := events[..1];
      rest, k := events[1..], NumberAfter(events[..1], n);
      u := ApplyAll(t, first, receivedAt);
      assert first + rest == events;
      ApplyAllAppend(t, first, rest, receivedAt);
      SessionalKeeps(x.projector, shown, memory, t, first, SessionStarted, n, k, receivedAt);
    }
  }

  /** One cause, its events stored, leaves the server in step if and only if the channel it brings kept its key, or
      it sends nothing. */
  lemma CauseHeldIff(x: Course, c: Cause, t: Tables, events: seq<Event>, n: nat, m: nat, receivedAt: nat)
    requires Held(x, t, n) && Carries(events, Moved(x.tap, c).1, n, m)
    ensures t.session.Some? && (Held(Onward(x, c), ApplyAll(t, events, receivedAt), m) <==> Kept(x.tap, c))
  {
    hide InStep, ApplyAll, Carries, ChannelEvents, AfterSnapshot, Remember, Enter, KeptKey, LineEvent, SnapshotOf;
    var p, y := x.tap.projector, Onward(x, c);
    InStepSession(p, x.shown, t, x.memory, n);
    var kinds := Moved(x.tap, c).1;
    CarriesUpTo(events, kinds, n, m);
    if kinds == [] && !(c.Seen? && x.tap.enabled) {
      CarriesNone(t, events, n, m, receivedAt);
      InStepLater(p, x.shown, t, x.memory, n, m);
    } else {
      match c
      case Seen(channel) =>
        var s := SnapshotOf(x.tap.who, channel);
        SnapshotKeyed(x.tap.who, channel);
        var u, rest, k := AnnouncedParts(x.tap, x.shown, x.memory, t, ChannelEvents(p, s), events, n, m, receivedAt);
        SnapshotInStepIff(p, x.shown, u, x.memory, s, rest, k, m, receivedAt);
      case Line(line) =>
        var kind := LineEvent(x.tap.who, p, line).value;
        var u, rest, k := AnnouncedParts(x.tap, x.shown, x.memory, t, [kind], events, n, m, receivedAt);
        LineKeeps(x.tap, line, x.shown, x.memory, u, rest, k, m, receivedAt);
      case Tick =>
        var u := SessionalSent(x, c, t, events, n, m, receivedAt);
        ResetInStep(p, x.shown, u, x.memory, m);
      case Switch(_) =>
      case End =>
        var u := SessionalSent(x, c, t, events, n, m, receivedAt);
    }
  }

  lemma SessionalSent(x: Course, c: Cause, t: Tables, events: seq<Event>, n: nat, m: nat, receivedAt: nat)
    returns (u: Tables)
    requires Held(x, t, n) && (c.Tick? || c.End?) && Moved(x.tap, c).1 != [] && Carries(events, Moved(x.tap, c).1, n, m)
    ensures t.session.Some? && u == ApplyAll(t, events, receivedAt)
    ensures InStep(x.tap.projector, x.shown, u, x.memory, m)
  {
    hide InStep, ApplyAll, Carries;
    var kinds := Moved(x.tap, c).1;
    assert kinds == [kinds[0]] && Sessional(kinds[0]);
    SessionalKeeps(x.tap.projector, x.shown, x.memory, t, events, kinds[0], n, m, receivedAt);
    InStepSession(x.tap.projector, x.shown, t, x.memory, n);
    u := ApplyAll(t, events, receivedAt);
  }

  lemma SnapshotKeyed(who: Account, c: ScrChannel)
    ensures Keyed(SnapshotOf(who, c).members)
  {
  }

  lemma ResetInStep(p: Scr, shown: bool, t: Tables, memory: Memory, m: nat)
    requires InStep(p, shown, t, memory, m)
    ensures InStep(p.(rosterSent := false), shown, t, memory, m)
  {
    hide Shows, Older, Keyed;
  }

  // ---- whole sessions ----

  function AllMoved(x: Course, causes: seq<Cause>): Course
    decreases |causes|
  {
    if causes == [] then x else AllMoved(Onward(x, causes[0]), causes[1..])
  }

  function AllSent(x: Course, causes: seq<Cause>): seq<EventKind>
    decreases |causes|
  {
    if causes == [] then [] else Moved(x.tap, causes[0]).1 + AllSent(Onward(x, causes[0]), causes[1..])
  }

  ghost predicate AllKept(x: Course, causes: seq<Cause>)
    decreases |causes|
  {
    causes == [] || (Kept(x.tap, causes[0]) && AllKept(Onward(x, causes[0]), causes[1..]))
  }

  /** The server is in step before the first cause and after each, its events stored as they come. */
  ghost predicate HeldThroughout(x: Course, t: Tables, n: nat, causes: seq<Cause>, events: seq<Event>, receivedAt: nat)
    requires t.session.Some?
    decreases |causes|
  {
    && Held(x, t, n)
    && (causes != [] ==>
          var k := |Moved(x.tap, causes[0]).1|;
          && k <= |events|
          && HeldThroughout(Onward(x, causes[0]), ApplyAll(t, events[..k], receivedAt), NumberAfter(events[..k], n),
                            causes[1..], events[k..], receivedAt))
  }

  /** Whatever a classic session sees, and however sharing is switched, the server is in step at every moment if and
      only if no channel comes back under another key. */
  lemma {:induction false} ServerFollowsIff(x: Course, t: Tables, n: nat, causes: seq<Cause>, events: seq<Event>,
                                            m: nat, receivedAt: nat)
    requires Held(x, t, n) && Carries(events, AllSent(x, causes), n, m)
    ensures t.session.Some?
    ensures HeldThroughout(x, t, n, causes, events, receivedAt) <==> AllKept(x, causes)
    ensures AllKept(x, causes) ==> Held(AllMoved(x, causes), ApplyAll(t, events, receivedAt), m)
    decreases |causes|
  {
    hide InStep, Moved, Onward, Carries, ApplyAll, Kept;
    InStepSession(x.tap.projector, x.shown, t, x.memory, n);
    CarriesUpTo(events, AllSent(x, causes), n, m);
    if causes == [] {
      CarriesNone(t, events, n, m, receivedAt);
      InStepLater(x.tap.projector, x.shown, t, x.memory, n, m);
    } else {
      var c, rest := causes[0], causes[1..];
      var kinds, y := Moved(x.tap, c).1, Onward(x, c);
      CarriesParts(events, kinds, AllSent(y, rest), n, m);
      var first, later := events[..|kinds|], events[|kinds|..];
      var k := NumberAfter(first, n);
      CauseHeldIff(x, c, t, first, n, k, receivedAt);
      ApplyAllAppend(t, first, later, receivedAt);
      assert first + later == events;
      if Kept(x.tap, c) {
        ServerFollowsIff(y, ApplyAll(t, first, receivedAt), k, rest, later, m, receivedAt);
      }
    }
  }

  /** The projector holds the last channel seen while sharing was on. */
  ghost predicate HoldsLast(x: Course) {
    x.last.Some? ==>
      && x.shown && x.tap.projector.channel.Some? && x.tap.projector.channel.value.0 == x.last.value.id
      && x.tap.projector.roster == ByHandle(x.tap.who, x.last.value.users)
  }

  lemma {:induction false} RunHoldsLast(x: Course, causes: seq<Cause>)
    requires HoldsLast(x)
    ensures HoldsLast(AllMoved(x, causes)) && AllMoved(x, causes).tap.who == x.tap.who
    decreases |causes|
  {
    hide Moved, Onward;
    if causes != [] {
      OnwardHoldsLast(x, causes[0]);
      RunHoldsLast(Onward(x, causes[0]), causes[1..]);
    }
  }

  lemma OnwardHoldsLast(x: Course, c: Cause)
    requires HoldsLast(x)
    ensures HoldsLast(Onward(x, c)) && Onward(x, c).tap.who == x.tap.who
  {
    hide ByHandle, ChannelEvents, LineEvent, ChannelKey;
  }

  /** A member of the channel has a row, and shows as the channel describes them, the signed-in account marked. */
  lemma {:induction false} EveryoneIsListed(who: Account, users: seq<ScrUser>)
    ensures forall u :: u in users ==> who.handleOf(u.name) in ByHandle(who, users)
  {
    if users != [] {
      var n := |users| - 1;
      EveryoneIsListed(who, users[..n]);
      assert forall u :: u in users ==> u == users[n] || u in users[..n];
    }
  }

  /** A channel that comes back under another key: the old one stays open beside it. */
  lemma RenamedChannelExample(who: Account)
    ensures
      var c := ScrChannel(9, "den", None, false, []);
      var x := Moved(Tap(who, FRESH, true, false, false), Seen(c)).0;
      var d := c.(name := "lair", users := [ScrUser("Ann", None, "online", None, false)]);
      && !Kept(x, Seen(d))
      && Moved(x, Seen(d)).1[0].Roster? && Moved(x, Seen(d)).1[0].channel.key == "private:lair"
      && x.projector.channel == Some((9, "private:den"))
  {
    var c := ScrChannel(9, "den", None, false, []);
    var first := Tap(who, FRESH, true, false, false);
    var s := SnapshotOf(who, c);
    assert s.key == "private:den" by { assert "private:" + "den" == "private:den"; }
    assert AfterSnapshot(FRESH, s) == Scr(Some((9, "private:den")), map[], true);
    var x := Moved(first, Seen(c)).0;
    assert x.projector == AfterSnapshot(FRESH, s) && x.announced;
    var d := c.(name := "lair", users := [ScrUser("Ann", None, "online", None, false)]);
    var r := SnapshotOf(who, d);
    assert r.key == "private:lair" by { assert "private:" + "lair" == "private:lair"; }
    assert who.handleOf("Ann") in r.members by { EveryoneIsListed(who, d.users); assert d.users[0] in d.users; }
    assert "private:lair"[8] == 'l' && "private:den"[8] == 'd';
  }
}
