/** What holds of a gateway session in every run (gateway/src/sc2.rs). */
module ChannelRuns {
  import opened Common
  import opened Chat
  import opened Channels
  import opened Names

  datatype Call =
    | Ask(channel: ChatChannel, worker: bool)
    | LeaveActive(worker: bool)
    | OnJoined(index: nat, channel: ChatChannel, handle: nat, worker: bool)
    | OnRejected
    | OnRoster(index: nat, users: seq<ChatUser>, complete: bool)
    | OnMemberJoined(index: nat, user: ChatUser)
    | OnMemberLeft(index: nat, user: ChatUser)
    | OnRemoved(index: nat)
    | OnMessage(index: nat, sender: ChatUser, body: string)

  function Step(s: Session, c: Call): (Session, Result) {
    match c
    case Ask(channel, worker) => JoinStep(s, channel, worker)
    case LeaveActive(worker) => LeaveStep(s, worker)
    case OnJoined(index, channel, handle, worker) => JoinedStep(s, index, channel, handle, worker)
    case OnRejected => (s.(pendingChannel := None), Done(Some(Error), []))
    case OnRoster(index, users, complete) => RosterStep(s, index, users, complete)
    case OnMemberJoined(index, user) => MemberJoinedStep(s, index, user)
    case OnMemberLeft(index, user) => MemberLeftStep(s, index, user)
    case OnRemoved(index) => RemovedStep(s, index)
    case OnMessage(index, sender, body) => MessageStep(s, index, sender, body)
  }

  const FRESH := Session(map[], None, None, None, "")

  function After(calls: seq<Call>): Session {
    if calls == [] then FRESH else Step(After(calls[..|calls| - 1]), calls[|calls| - 1]).0
  }

  /** The call has a command to send. */
  predicate Sends(s: Session, c: Call) {
    match c
    case Ask(_, _) => s.pendingChannel.None?
    case LeaveActive(_) => s.active.Some?
    case OnJoined(index, channel, _, _) => Activates(s, channel) && s.active.Some? && s.active.value != index
    case _ => false
  }

  predicate HasWorker(c: Call) { c.Ask? || c.LeaveActive? || c.OnJoined? ==> c.worker }

  lemma BrokenIff(s: Session, c: Call)
    ensures Step(s, c).1.Broken? <==> Sends(s, c) && !HasWorker(c)
  {
    hide SameLegacyRoster, ByHandle, LegacyName, StripCode, Identified;
  }

  /** A channel change that cannot tell the worker to leave the old channel. */
  predicate Unsaid(s: Session, c: Call) { c.OnJoined? && Sends(s, c) && !c.worker }

  /** Every channel change told the worker to leave the old channel. Joins and leave commands may have failed. */
  predicate Told(calls: seq<Call>) {
    calls == [] || (Told(calls[..|calls| - 1]) && !Unsaid(After(calls[..|calls| - 1]), calls[|calls| - 1]))
  }

  /** A command of the client's own that finds no worker changes nothing. */
  lemma FailedCommand(s: Session, c: Call)
    requires Sends(s, c) && !HasWorker(c) && !c.OnJoined?
    ensures Step(s, c).0 == s && Step(s, c).1.Broken? && Marks(s, c) == []
  {
  }

  // ---- the record of a run ----

  /** A channel index became the active one; the client was told; a leave command was sent; the server removed it. */
  datatype Mark = Activated(index: nat) | Announced(index: nat) | Left(index: nat) | Gone(index: nat)

  /** The marks are read off the call and its visible result. */
  function Marks(s: Session, c: Call): seq<Mark> {
    var r := Step(s, c).1;
    if !r.Done? then []
    else
      (if r.sent != [] && r.sent[0].LeaveChannel? then [Left(r.sent[0].index)] else [])
      + (if c.OnJoined? && Activates(s, c.channel) then [Activated(c.index)] else [])
      + (if r.event.Some? && r.event.value.Joined? then [Announced(r.event.value.index)] else [])
      + (if c.OnRemoved? then [Gone(c.index)] else [])
  }

  function Record(calls: seq<Call>): seq<Mark> {
    if calls == [] then []
    else Record(calls[..|calls| - 1]) + Marks(After(calls[..|calls| - 1]), calls[|calls| - 1])
  }

  predicate Ends(m: Mark, index: nat) { m == Left(index) || m == Gone(index) }

  /** The last activation of the record, unless it was ended since. */
  ghost predicate CurrentAt(marks: seq<Mark>, k: int, index: nat) {
    && 0 <= k < |marks| && marks[k] == Activated(index)
    && forall j :: k < j < |marks| ==> !marks[j].Activated? && !Ends(marks[j], index)
  }

  /** ... and not announced since either. */
  ghost predicate AwaitedAt(marks: seq<Mark>, k: int, index: nat) {
    CurrentAt(marks, k, index) && forall j :: k < j < |marks| ==> !marks[j].Announced?
  }

  ghost predicate Current(marks: seq<Mark>, index: nat) { exists k :: CurrentAt(marks, k, index) }

  ghost predicate Awaited(marks: seq<Mark>, index: nat) { exists k :: AwaitedAt(marks, k, index) }

  /** Each activation is the current one or was ended by a leave command or a removal. */
  ghost predicate EveryActivationEnds(marks: seq<Mark>, active: Option<nat>) {
    forall k :: 0 <= k < |marks| && marks[k].Activated? && active != Some(marks[k].index)
        ==> EndedAfter(marks, k, marks[k].index)
  }

  ghost predicate EndedAfter(marks: seq<Mark>, k: int, index: nat) {
    exists j :: 0 <= k < j < |marks| && Ends(marks[j], index)
  }

  /** Each announcement is of an activation that was then current and had not been announced. */
  ghost predicate AnnouncementsFollow(marks: seq<Mark>) {
    forall k :: 0 <= k < |marks| && marks[k].Announced? ==> Awaited(marks[..k], marks[k].index)
  }

  ghost predicate Sound(s: Session) {
    && (s.pendingAnnouncement.None? || s.pendingAnnouncement == s.active)
    && (s.active.Some? ==>
          s.active.value in s.channels && s.channels[s.active.value].channel.Some?
              && s.channels[s.active.value].localHandle.Some?)
  }

  // ---- one mark at a time ----

  lemma CurrentExtends(marks: seq<Mark>, m: Mark, i: nat)
    ensures Current(marks + [m], i) <==> m == Activated(i) || (Current(marks, i) && !m.Activated? && !Ends(m, i))
  {
    var longer := marks + [m];
    if m == Activated(i) { assert CurrentAt(longer, |marks|, i); }
    assert longer[|marks|] == m && forall j :: 0 <= j < |marks| ==> longer[j] == marks[j];
    if k :| CurrentAt(longer, k, i) {
      if k < |marks| { assert CurrentAt(marks, k, i); }
    }
    if k :| CurrentAt(marks, k, i) {
      assert !m.Activated? && !Ends(m, i) ==> CurrentAt(longer, k, i);
    }
  }

  lemma AwaitedExtends(marks: seq<Mark>, m: Mark, i: nat)
    ensures Awaited(marks + [m], i)
            <==> m == Activated(i) || (Awaited(marks, i) && !m.Activated? && !m.Announced? && !Ends(m, i))
  {
    var longer := marks + [m];
    if m == Activated(i) { assert AwaitedAt(longer, |marks|, i); }
    assert longer[|marks|] == m && forall j :: 0 <= j < |marks| ==> longer[j] == marks[j];
    if k :| AwaitedAt(longer, k, i) {
      if k < |marks| { assert AwaitedAt(marks, k, i); }
    }
    if k :| AwaitedAt(marks, k, i) {
      assert !m.Activated? && !m.Announced? && !Ends(m, i) ==> AwaitedAt(longer, k, i);
    }
  }

  lemma EndsExtend(marks: seq<Mark>, m: Mark, was: Option<nat>, now: Option<nat>)
    requires EveryActivationEnds(marks, was)
    requires m.Activated? ==> now == Some(m.index)
    requires was.Some? && was != now ==> Ends(m, was.value)
    ensures EveryActivationEnds(marks + [m], now)
  {
    var longer := marks + [m];
    forall k | 0 <= k < |longer| && longer[k].Activated? && now != Some(longer[k].index)
      ensures EndedAfter(longer, k, longer[k].index)
    {
      assert longer[|marks|] == m;
      var index := marks[k].index;
      if was == Some(index) {
        assert Ends(longer[|marks|], index);
      } else {
        assert EndedAfter(marks, k, index);
        var j :| k < j < |marks| && Ends(marks[j], index);
        assert Ends(longer[j], index);
      }
    }
  }

  lemma AnnouncementsExtend(marks: seq<Mark>, m: Mark)
    requires AnnouncementsFollow(marks) && (m.Announced? ==> Awaited(marks, m.index))
    ensures AnnouncementsFollow(marks + [m])
  {
    var longer := marks + [m];
    assert longer[..|marks|] == marks;
    forall k | 0 <= k < |marks| ensures longer[..k] == marks[..k] && longer[k] == marks[k] {}
  }

  /** What one mark says about the active index and the announcement it waits for. */
  function ActiveAfter(m: Mark, active: Option<nat>): Option<nat> {
    if m.Activated? then Some(m.index) else if active.Some? && Ends(m, active.value) then None else active
  }

  function AwaitedAfter(m: Mark, pending: Option<nat>): Option<nat> {
    if m.Activated? then Some(m.index)
    else if m.Announced? || (pending.Some? && Ends(m, pending.value)) then None
    else pending
  }

  ghost predicate Agrees(active: Option<nat>, pending: Option<nat>, marks: seq<Mark>) {
    && (forall i: nat :: active == Some(i) <==> Current(marks, i))
    && (forall i: nat :: pending == Some(i) <==> Awaited(marks, i))
    && EveryActivationEnds(marks, active)
    && AnnouncementsFollow(marks)
  }

  /** A channel may become active only once the one before it was left; only what is awaited is announced. */
  predicate Allowed(m: Mark, active: Option<nat>, pending: Option<nat>) {
    && (m.Activated? ==> active.None? || active == Some(m.index))
    && (m.Announced? ==> pending == Some(m.index))
  }

  lemma MarkAgrees(active: Option<nat>, pending: Option<nat>, marks: seq<Mark>, m: Mark)
    requires Agrees(active, pending, marks) && Allowed(m, active, pending)
    ensures Agrees(ActiveAfter(m, active), AwaitedAfter(m, pending), marks + [m])
  {
    hide Current, Awaited, EveryActivationEnds, AnnouncementsFollow;
    EndsExtend(marks, m, active, ActiveAfter(m, active));
    AnnouncementsExtend(marks, m);
    forall i: nat ensures ActiveAfter(m, active) == Some(i) <==> Current(marks + [m], i) {
      CurrentExtends(marks, m, i);
    }
    forall i: nat ensures AwaitedAfter(m, pending) == Some(i) <==> Awaited(marks + [m], i) {
      AwaitedExtends(marks, m, i);
    }
  }

  ghost predicate Explains(active: Option<nat>, pending: Option<nat>, news: seq<Mark>, active': Option<nat>,
                           pending': Option<nat>)
    decreases |news|
  {
    if news == [] then active == active' && pending == pending'
    else
      && Allowed(news[0], active, pending)
      && Explains(ActiveAfter(news[0], active), AwaitedAfter(news[0], pending), news[1..], active', pending')
  }

  lemma {:induction false} MarksAgree(active: Option<nat>, pending: Option<nat>, marks: seq<Mark>, news: seq<Mark>,
                                      active': Option<nat>, pending': Option<nat>)
    requires Agrees(active, pending, marks) && Explains(active, pending, news, active', pending')
    ensures Agrees(active', pending', marks + news)
    decreases |news|
  {
    hide Agrees, Allowed, ActiveAfter, AwaitedAfter;
    if news == [] {
      assert marks + news == marks;
    } else {
      MarkAgrees(active, pending, marks, news[0]);
      MarksAgree(ActiveAfter(news[0], active), AwaitedAfter(news[0], pending), marks + [news[0]], news[1..], active',
                 pending');
      assert marks + [news[0]] + news[1..] == marks + news;
    }
  }

  // ---- one call at a time ----

  lemma IdentifyingOnlyNames()
    ensures forall t: Session, i: nat :: Identified(t, i) == t.(toonName := Identified(t, i).toonName)
  {
  }

  /** A channel change that cannot tell the worker to leave the old channel, whose announcement is still awaited. */
  predicate Strands(s: Session, c: Call) {
    && c.OnJoined? && !c.worker && Activates(s, c.channel)
    && s.active.Some? && s.active.value != c.index && s.pendingAnnouncement.Some?
  }

  /** Exactly when a call breaks the invariant. */
  lemma SoundUnlessStrands(s: Session, c: Call)
    requires Sound(s)
    ensures Sound(Step(s, c).0) <==> !Strands(s, c)
  {
    IdentifyingOnlyNames();
    hide SameLegacyRoster, ByHandle, LegacyName, Identified;
  }

  predicate NeverStrands(calls: seq<Call>) {
    calls == [] || (NeverStrands(calls[..|calls| - 1]) && !Strands(After(calls[..|calls| - 1]), calls[|calls| - 1]))
  }

  ghost predicate SoundAt(calls: seq<Call>, n: nat) { n <= |calls| ==> Sound(After(calls[..n])) }

  ghost predicate SoundThroughout(calls: seq<Call>) { forall n: nat :: n <= |calls| ==> SoundAt(calls, n) }

  lemma ThroughoutNext(calls: seq<Call>)
    requires calls != []
    ensures SoundThroughout(calls) <==> SoundThroughout(calls[..|calls| - 1]) && Sound(After(calls))
  {
    hide SoundAt, Sound, After;
    var before := calls[..|calls| - 1];
    forall n: nat | n <= |before| ensures SoundAt(before, n) <==> SoundAt(calls, n) { SameMoment(calls, n); }
    AtTheEnd(calls);
    assert SoundThroughout(calls) ==> SoundAt(calls, |calls|);
  }

  lemma SameMoment(calls: seq<Call>, n: nat)
    requires n < |calls|
    ensures SoundAt(calls[..|calls| - 1], n) <==> SoundAt(calls, n)
  {
    hide Sound, After;
    assert calls[..|calls| - 1][..n] == calls[..n];
  }

  lemma AtTheEnd(calls: seq<Call>)
    ensures SoundAt(calls, |calls|) <==> Sound(After(calls))
  {
    hide Sound, After;
    assert calls[..|calls|] == calls;
  }

  /** With or without the worker: the invariant holds at every moment of a run if and only if no call strands an
      announcement. */
  lemma {:induction false} SoundThroughoutIff(calls: seq<Call>)
    ensures SoundThroughout(calls) <==> NeverStrands(calls)
    decreases |calls|
  {
    hide Step, Strands, Sound, SoundThroughout;
    if calls == [] {
      FreshIsSound();
    } else {
      var before := calls[..|calls| - 1];
      SoundThroughoutIff(before);
      ThroughoutNext(calls);
      if SoundThroughout(before) {
        LastIsSound(before);
        SoundUnlessStrands(After(before), calls[|calls| - 1]);
      }
    }
  }

  lemma FreshIsSound()
    ensures SoundThroughout([]) && Sound(FRESH)
  {
  }

  lemma LastIsSound(calls: seq<Call>)
    requires SoundThroughout(calls)
    ensures Sound(After(calls))
  {
    hide SoundAt, Sound, After;
    assert SoundAt(calls, |calls|);
    AtTheEnd(calls);
  }

  lemma JoinExplained(s: Session, c: Call)
    requires Sound(s) && c.OnJoined? && (Sends(s, c) ==> c.worker)
    ensures
      var t := Step(s, c).0;
      Explains(s.active, s.pendingAnnouncement, Marks(s, c), t.active, t.pendingAnnouncement)
  {
    IdentifyingOnlyNames();
    hide Identified, Explains;
    if Activates(s, c.channel) {
      if s.active.Some? && s.active.value != c.index {
        TwoMarks(s.active, s.pendingAnnouncement, Left(s.active.value), Activated(c.index));
        assert Marks(s, c) == [Left(s.active.value), Activated(c.index)];
      } else {
        OneMark(s.active, s.pendingAnnouncement, Activated(c.index));
        assert Marks(s, c) == [Activated(c.index)];
      }
    } else {
      NoMark(s.active, s.pendingAnnouncement);
      assert Marks(s, c) == [];
    }
  }

  lemma NoMark(active: Option<nat>, pending: Option<nat>)
    ensures Explains(active, pending, [], active, pending)
  {
  }

  lemma StepExplained(s: Session, c: Call)
    requires Sound(s) && !Unsaid(s, c)
    ensures
      var t := Step(s, c).0;
      Explains(s.active, s.pendingAnnouncement, Marks(s, c), t.active, t.pendingAnnouncement)
  {
    IdentifyingOnlyNames();
    hide SameLegacyRoster, ByHandle, LegacyName, Identified, Explains;
    if c.OnJoined? {
      JoinExplained(s, c);
    } else if Sends(s, c) && !HasWorker(c) {
      FailedCommand(s, c);
      NoMark(s.active, s.pendingAnnouncement);
    } else {
      var marks := Marks(s, c);
      NoMark(s.active, s.pendingAnnouncement);
      assert |marks| <= 1;
      if |marks| == 1 {
        OneMark(s.active, s.pendingAnnouncement, marks[0]);
        assert marks == [marks[0]];
      }
    }
  }

  lemma OneMark(active: Option<nat>, pending: Option<nat>, m: Mark)
    requires Allowed(m, active, pending)
    ensures Explains(active, pending, [m], ActiveAfter(m, active), AwaitedAfter(m, pending))
  {
  }

  lemma TwoMarks(active: Option<nat>, pending: Option<nat>, m: Mark, n: Mark)
    requires Allowed(m, active, pending) && Allowed(n, ActiveAfter(m, active), AwaitedAfter(m, pending))
    ensures Explains(active, pending, [m, n], ActiveAfter(n, ActiveAfter(m, active)),
                     AwaitedAfter(n, AwaitedAfter(m, pending)))
  {
  }

  lemma NothingRecorded()
    ensures Agrees(None, None, [])
  {
  }

  /** In every run, failed commands included: what is pending is active, the active channel is known, and both are
      what the record says. */
  lemma {:induction false} RunsAreSound(calls: seq<Call>)
    requires Told(calls)
    ensures Sound(After(calls))
    ensures Agrees(After(calls).active, After(calls).pendingAnnouncement, Record(calls))
    decreases |calls|
  {
    hide Step, Marks, Agrees, Explains, Sound;
    if calls == [] {
      FreshIsSound();
      NothingRecorded();
    } else {
      var before, c := calls[..|calls| - 1], calls[|calls| - 1];
      RunsAreSound(before);
      SoundUnlessStrands(After(before), c);
      assert !Strands(After(before), c);
      StepExplained(After(before), c);
      MarksAgree(After(before).active, After(before).pendingAnnouncement, Record(before), Marks(After(before), c),
                 After(calls).active, After(calls).pendingAnnouncement);
    }
  }

  // ---- exactly when the record agrees ----

  /** After the first `n` calls every activation on record is the active one or was ended. */
  ghost predicate EndsAt(calls: seq<Call>, n: nat) {
    n <= |calls| ==> EveryActivationEnds(Record(calls[..n]), After(calls[..n]).active)
  }

  ghost predicate EndsThroughout(calls: seq<Call>) { forall n: nat :: n <= |calls| ==> EndsAt(calls, n) }

  /** A channel change that leaves the old channel unsaid drops it without a trace, whether or not it had been
      announced: it is neither active nor on record as left or removed. */
  lemma UnsaidIsForgotten(calls: seq<Call>, c: Call)
    requires Told(calls) && Unsaid(After(calls), c)
    ensures !EveryActivationEnds(Record(calls + [c]), After(calls + [c]).active)
  {
    hide Step, Sound, Awaited, AnnouncementsFollow;
    RunsAreSound(calls);
    var s, longer := After(calls), calls + [c];
    assert longer[..|longer| - 1] == calls && longer[|calls|] == c;
    UnsaidStep(s, c);
    assert Record(longer) == Record(calls) + [] == Record(calls);
    assert Current(Record(calls), s.active.value);
    var k :| CurrentAt(Record(calls), k, s.active.value);
    assert !EndedAfter(Record(calls), k, s.active.value);
    assert Record(calls)[k].Activated?;
  }

  lemma UnsaidStep(s: Session, c: Call)
    requires Unsaid(s, c)
    ensures Marks(s, c) == [] && Step(s, c).0.active == Some(c.index) && s.active.Some? && s.active != Some(c.index)
  {
    hide Identified;
  }

  /** Every channel that was ever active still is, or was left by command or removed, at every moment of a run if
      and only if every channel change told the worker to leave the old channel. */
  lemma {:induction false} EndsThroughoutIff(calls: seq<Call>)
    ensures EndsThroughout(calls) <==> Told(calls)
    decreases |calls|
  {
    hide Step, Record, Sound, EveryActivationEnds, EndsThroughout, Unsaid;
    if calls == [] {
      NothingEnds();
    } else {
      var before, c := calls[..|calls| - 1], calls[|calls| - 1];
      EndsThroughoutIff(before);
      EndsNext(calls);
      assert before + [c] == calls;
      if Told(calls) {
        RunsAreSound(calls);
      } else if Told(before) {
        UnsaidIsForgotten(before, c);
      }
    }
  }

  lemma NothingEnds()
    ensures EndsThroughout([])
  {
    assert forall n: nat :: n <= 0 ==> EndsAt([], n);
  }

  lemma EndsNext(calls: seq<Call>)
    requires calls != []
    ensures EndsThroughout(calls)
            <==> EndsThroughout(calls[..|calls| - 1]) && EveryActivationEnds(Record(calls), After(calls).active)
  {
    hide EndsAt, EveryActivationEnds, Record, After;
    var before := calls[..|calls| - 1];
    forall n: nat | n < |calls| ensures EndsAt(before, n) <==> EndsAt(calls, n) { SameEnds(calls, n); }
    EndsLast(calls);
  }

  lemma SameEnds(calls: seq<Call>, n: nat)
    requires n < |calls|
    ensures EndsAt(calls[..|calls| - 1], n) <==> EndsAt(calls, n)
  {
    hide EveryActivationEnds, Record, After;
    assert calls[..|calls| - 1][..n] == calls[..n];
  }

  lemma EndsLast(calls: seq<Call>)
    ensures EndsAt(calls, |calls|) <==> EveryActivationEnds(Record(calls), After(calls).active)
  {
    hide EveryActivationEnds, Record, After;
    assert calls[..|calls|] == calls;
  }

  /** A channel that was ever active still is, or was left by command or removed by the server since. */
  lemma ActiveUntilLeftOrRemoved(calls: seq<Call>, k: nat)
    requires Told(calls) && k < |Record(calls)| && Record(calls)[k].Activated?
    ensures
      var marks := Record(calls);
      After(calls).active == Some(marks[k].index) || exists j :: k < j < |marks| && Ends(marks[j], marks[k].index)
  {
    hide Record, Sound;
    RunsAreSound(calls);
    assert After(calls).active != Some(Record(calls)[k].index) ==> EndedAfter(Record(calls), k, Record(calls)[k].index);
  }

  /** Between two announcements of the same run there is a new activation: no activation is announced twice. */
  lemma AnnouncedOncePerActivation(calls: seq<Call>, a: int, b: int)
    requires Told(calls)
    requires 0 <= a < b < |Record(calls)| && Record(calls)[a].Announced? && Record(calls)[b].Announced?
    ensures exists k :: a < k < b && Record(calls)[k] == Activated(Record(calls)[b].index)
  {
    hide Record, Sound;
    RunsAreSound(calls);
    var marks := Record(calls);
    var earlier := marks[..b];
    assert Awaited(earlier, marks[b].index);
    var k :| AwaitedAt(earlier, k, marks[b].index);
    assert earlier[a] == marks[a] && earlier[k] == marks[k];
    assert a < k;
  }

  // ---- what is reported ----

  /** A channel is announced only in answer to a complete roster, while it awaits its announcement. */
  lemma AnnouncedOnCompleteRoster(s: Session, c: Call)
    ensures
      var r := Step(s, c).1;
      r.Done? && r.event.Some? && r.event.value.Joined? ==>
        c.OnRoster? && c.complete && c.index == r.event.value.index && s.active == Some(c.index)
            && s.pendingAnnouncement == Some(c.index)
  {
    hide SameLegacyRoster, ByHandle, LegacyName, StripCode, Identified;
  }

  /** Nothing is ever reported about a channel that is not the active one. */
  lemma OnlyTheActiveChannelIsReported(s: Session, c: Call)
    ensures
      var r := Step(s, c).1;
      r.Done? && r.event.Some? && !r.event.value.Error? ==> s.active == Some(r.event.value.index)
  {
  }

  /** In every run whatever is reported belongs to the channel the record says is current; and a channel is
      announced only by a complete roster, while the record says it is awaited. */
  lemma ReportsAreOfTheCurrentChannel(calls: seq<Call>, c: Call)
    requires Told(calls)
    ensures
      var r := Step(After(calls), c).1;
      r.Done? && r.event.Some? && !r.event.value.Error? ==>
        && Current(Record(calls), r.event.value.index)
        && (r.event.value.Joined? ==> Awaited(Record(calls), r.event.value.index) && c.OnRoster? && c.complete)
  {
    hide Step, Record, Current, Awaited, Told, EveryActivationEnds, AnnouncementsFollow;
    RunsAreSound(calls);
    OnlyTheActiveChannelIsReported(After(calls), c);
    AnnouncedOnCompleteRoster(After(calls), c);
  }

  /** The name shown for the account never changes once it is known. */
  lemma {:induction false} ToonNameStays(calls: seq<Call>, more: seq<Call>)
    requires After(calls).toonName != ""
    ensures After(calls + more).toonName == After(calls).toonName
    decreases |more|
  {
    hide Step;
    if more == [] {
      assert calls + more == calls;
    } else {
      var n := |more| - 1;
      ToonNameStays(calls, more[..n]);
      assert (calls + more)[..|calls + more| - 1] == calls + more[..n];
      StepKeepsName(After(calls + more[..n]), more[n]);
    }
  }

  lemma StepKeepsName(s: Session, c: Call)
    requires s.toonName != ""
    ensures Step(s, c).0.toonName == s.toonName
  {
  }

  /** Without the worker the guarantee ends: a failed leave command strands the old announcement. */
  lemma FailedLeaveStrandsAnnouncement()
    ensures
      var calls := [OnJoined(1, Party, 7, true), Ask(Public(5), true), OnJoined(2, Public(5), 7, false)];
      Step(After(calls[..2]), calls[2]).1.Broken? && After(calls).active == Some(2)
          && After(calls).pendingAnnouncement == Some(1)
  {
    hide JoinStep, JoinedStep, Step;
    var a, b, c := OnJoined(1, Party, 7, true), Ask(Public(5), true), OnJoined(2, Public(5), 7, false);
    var calls := [a, b, c];
    assert [] + [a] == [a] && [a] + [b] == [a, b] && [a, b] + [c] == calls && calls[..2] == [a, b];
    AfterNext([], a);
    AfterNext([a], b);
    AfterNext([a, b], c);
    JoinedChanges(After([]), a);
    AskChanges(After([a]), b);
    JoinedChanges(After([a, b]), c);
  }

  /** What a join answered by the server does to the fields it can change besides the table. */
  lemma JoinedChanges(s: Session, c: Call)
    requires c.OnJoined?
    ensures
      var (t, r) := Step(s, c);
      var broken := s.active.Some? && s.active.value != c.index && !c.worker;
      if !Activates(s, c.channel) then t.active == s.active && t.pendingAnnouncement == s.pendingAnnouncement
          && t.pendingChannel == s.pendingChannel && r.Done?
      else
        && t.active == Some(c.index) && t.pendingChannel == None && (r.Broken? <==> broken)
        && t.pendingAnnouncement == if broken then s.pendingAnnouncement else Some(c.index)
  {
  }

  lemma AskChanges(s: Session, c: Call)
    requires c.Ask?
    ensures
      var t := Step(s, c).0;
      && t.active == s.active && t.pendingAnnouncement == s.pendingAnnouncement
      && t.pendingChannel == if s.pendingChannel.None? && c.worker then Some(c.channel) else s.pendingChannel
  {
  }

  lemma AfterNext(calls: seq<Call>, c: Call)
    ensures After(calls + [c]) == Step(After(calls), c).0
  {
  }
}
