/** The logon and ping state of one legacy client (gateway/src/bncs.rs). The clock and the random ping
    token are parameters of each call; of the replies only the logon verdicts are kept. */
module Logon {
  import opened Common
  import opened Bncs

  datatype Style = Legacy | Old | New

  datatype Ping = Ping(token: Dword, sentAt: nat)

  datatype Peer = Peer(
    account: Option<Bytes>, style: Option<Style>, accepted: bool, loggedOn: bool,
    keepalives: bool, nextNull: nat, nextPing: nat, pendingPing: Option<Ping>)

  datatype Action =
    | EnterChat(name: Bytes)
    | RequestChannelList
    | JoinChannel(flags: Dword, channel: Bytes)
    | LeaveChat
    | ChatCommand(text: Bytes)
    | RequestFriendsList
    | Pong(roundTrip: Option<int>)
    | UdpCapability(supported: bool)

  /** The packet a logon verdict is sent in, and its status field. */
  datatype Verdict = Verdict(id: Byte, status: Dword)

  /** Logon packets are answered with a verdict, some packets start a ping; a malformed one is an error. */
  datatype Outcome = Outcome(action: Option<Action>, verdict: Option<Verdict>, pinged: Option<Ping>) | Invalid

  const QUIET := Outcome(None, None, None)

  function Does(a: Action): Outcome { Outcome(Some(a), None, None) }

  const SID_NULL: Byte := 0x00
  const SID_START_VERSIONING: Byte := 0x06
  const SID_ENTER_CHAT: Byte := 0x0A
  const SID_GET_CHANNEL_LIST: Byte := 0x0B
  const SID_JOIN_CHANNEL: Byte := 0x0C
  const SID_CHAT_COMMAND: Byte := 0x0E
  const SID_LEAVE_CHAT: Byte := 0x10
  const SID_LOCALE_INFO: Byte := 0x12
  const SID_UDP_PING_RESPONSE: Byte := 0x14
  const SID_PING: Byte := 0x25
  const SID_READ_USER_DATA: Byte := 0x26
  const SID_LOGON_RESPONSE: Byte := 0x29
  const SID_LOGON_RESPONSE2: Byte := 0x3A
  const SID_AUTH_INFO: Byte := 0x50
  const SID_AUTH_ACCOUNT_LOGON: Byte := 0x53
  const SID_AUTH_ACCOUNT_LOGON_PROOF: Byte := 0x54

  const NULL_INTERVAL := 60
  const PING_INTERVAL := 180

  /** "bnet" as a big-endian number. */
  const UDP_TOKEN: Dword := 0x626E_6574

  // ---- fields ----

  function LowerByte(b: Byte): Byte { if 0x41 <= b <= 0x5A then b + 0x20 else b }

  predicate EqualIgnoringCase(a: Bytes, b: Bytes) {
    |a| == |b| && forall i :: 0 <= i < |a| ==> LowerByte(a[i]) == LowerByte(b[i])
  }

  predicate Names(expected: Bytes, account: Option<Bytes>) {
    account.Some? && EqualIgnoringCase(account.value, expected)
  }

  function CStringAt(data: Bytes, offset: nat): Option<Bytes> {
    var t := TakeCString(data, offset);
    if t.Taken? then Some(t.value) else None
  }

  function EnterChatOutcome(expected: Bytes, payload: Bytes): Outcome {
    var name := TakeCString(payload, 0);
    if name.Missing? then Invalid
    else
      var stats := TakeCString(payload, name.offset);
      if stats.Missing? || |stats.value| > 128 || stats.offset < |payload| then Invalid
      else Does(EnterChat(expected))
  }

  function JoinChannelOutcome(payload: Bytes): Outcome {
    var flags := TakeDword(payload, 0);
    if flags.Missing? then Invalid
    else
      var channel := TakeCString(payload, flags.offset);
      if channel.Missing? || channel.offset < |payload| then Invalid
      else Does(JoinChannel(flags.value, channel.value))
  }

  function ChatCommandOutcome(payload: Bytes): Outcome {
    if !(2 <= |payload| <= 224) || payload[|payload| - 1] != 0 then Invalid
    else
      var body := payload[..|payload| - 1];
      if exists b :: b in body && b < 32 then QUIET else Does(ChatCommand(body))
  }

  predicate HasStrings(data: Bytes, offset: nat, count: nat)
    decreases count
  {
    if count == 0 then offset >= |data|
    else
      var t := TakeCString(data, offset);
      t.Taken? && HasStrings(data, t.offset, count - 1)
  }

  function ReadUserDataOutcome(payload: Bytes): Outcome {
    var accounts, keys, request := TakeDword(payload, 0), TakeDword(payload, 4), TakeDword(payload, 8);
    if accounts.Missing? || keys.Missing? || request.Missing? || keys.value > 31 then Invalid
    else
      var count := accounts.value as int + keys.value as int;
      if count >= 0x1_0000_0000 || count > |payload| - 12 || !HasStrings(payload, 12, count) then Invalid else QUIET
  }

  predicate IsOldLogon(id: Byte) { id == SID_LOGON_RESPONSE || id == SID_LOGON_RESPONSE2 }

  predicate IsLogon(id: Byte) { id == SID_AUTH_ACCOUNT_LOGON || IsOldLogon(id) }

  function AccountIn(packet: Packet): Option<Bytes> {
    CStringAt(packet.payload, if IsOldLogon(packet.id) then 28 else 32)
  }

  // ---- one call ----

  function BeginKeepalives(p: Peer, now: nat, token: Dword): (Peer, Outcome) {
    if p.keepalives then (p, QUIET)
    else
      var ping := Ping(token, now);
      (p.(keepalives := true, nextNull := now + NULL_INTERVAL, pendingPing := Some(ping),
          nextPing := now + PING_INTERVAL),
       Outcome(None, None, Some(ping)))
  }

  /** Old-style requests are decided at once. */
  function OldLogon(expected: Bytes, p: Peer, packet: Packet, style: Style): (Peer, Outcome) {
    var account := AccountIn(packet);
    var ok := Names(expected, account);
    var status := if ok == (style == Legacy) then 1 else 0;
    (p.(style := Some(style), account := account, accepted := ok, loggedOn := ok),
     Outcome(None, Some(Verdict(packet.id, status)), None))
  }

  function NewLogon(expected: Bytes, p: Peer, packet: Packet): (Peer, Outcome) {
    var account := AccountIn(packet);
    var ok := Names(expected, account);
    (p.(style := Some(New), account := account, accepted := ok, loggedOn := false),
     Outcome(None, Some(Verdict(packet.id, if ok then 0 else 1)), None))
  }

  function Proof(p: Peer, packet: Packet): (Peer, Outcome) {
    (p.(style := Some(New), loggedOn := p.loggedOn || p.accepted),
     Outcome(None, Some(Verdict(packet.id, if p.accepted then 0 else 2)), None))
  }

  function PingReply(p: Peer, packet: Packet, now: nat): (Peer, Outcome) {
    if |packet.payload| != 4 then (p, Invalid)
    else
      var token := TakeDword(packet.payload, 0).value;
      var roundTrip := if p.pendingPing.Some?
          && p.pendingPing.value.token == token then Some(now - p.pendingPing.value.sentAt) else None;
      (p.(pendingPing := None), Does(Pong(roundTrip)))
  }

  function Answered(packet: Packet, length: nat, outcome: Outcome): Outcome {
    if |packet.payload| == length then outcome else Invalid
  }

  function Handled(expected: Bytes, p: Peer, packet: Packet, now: nat, token: Dword): (Peer, Outcome) {
    var id := packet.id;
    if id == SID_NULL then (p, Answered(packet, 0, QUIET))
    else if id == SID_AUTH_INFO || id == SID_START_VERSIONING then BeginKeepalives(p, now, token)
    else if id == SID_AUTH_ACCOUNT_LOGON then NewLogon(expected, p, packet)
    else if id == SID_AUTH_ACCOUNT_LOGON_PROOF then Proof(p, packet)
    else if id == SID_LOGON_RESPONSE2 then OldLogon(expected, p, packet, Old)
    else if id == SID_LOGON_RESPONSE then OldLogon(expected, p, packet, Legacy)
    else if id == SID_ENTER_CHAT && p.loggedOn then (p, EnterChatOutcome(expected, packet.payload))
    else if id == SID_GET_CHANNEL_LIST then (p, Answered(packet, 4, Does(RequestChannelList)))
    else if id == SID_JOIN_CHANNEL && p.loggedOn then (p, JoinChannelOutcome(packet.payload))
    else if id == SID_LEAVE_CHAT && p.loggedOn then (p, Answered(packet, 0, Does(LeaveChat)))
    else if id == SID_CHAT_COMMAND then (p, ChatCommandOutcome(packet.payload))
    else if id == SID_FRIENDS_LIST && p.loggedOn then (p, Answered(packet, 0, Does(RequestFriendsList)))
    else if id == SID_PING then PingReply(p, packet, now)
    else if id == SID_UDP_PING_RESPONSE then
      (p, if |packet.payload| == 4 then Does(UdpCapability(TakeDword(packet.payload, 0).value == UDP_TOKEN))
       else Invalid)
    else if id == SID_LOCALE_INFO then (p, if |packet.payload| < 36 then Invalid else QUIET)
    else if id == SID_READ_USER_DATA && p.loggedOn then (p, ReadUserDataOutcome(packet.payload))
    else (p, QUIET)
  }

  function Serviced(p: Peer, now: nat, token: Dword): (Peer, Outcome) {
    if !p.keepalives then (p, QUIET)
    else
      var q := if now >= p.nextNull then p.(nextNull := now + NULL_INTERVAL) else p;
      if now >= q.nextPing then
        (q.(pendingPing := Some(Ping(token, now)), nextPing := now + PING_INTERVAL),
         Outcome(None, None, Some(Ping(token, now))))
      else (q, QUIET)
  }

  function Started(now: nat): Peer {
    Peer(None, None, false, false, false, now + NULL_INTERVAL, now + PING_INTERVAL, None)
  }

  class LegacyPeer {
    const expectedAccount: Bytes
    var accountName: Option<Bytes>
    var logonStyle: Option<Style>
    var accountAccepted: bool
    var loggedOn: bool
    var keepalivesActive: bool
    var nextNull: nat
    var nextPing: nat
    var pendingPing: Option<Ping>

    constructor (expectedAccount: Bytes, now: nat)
      ensures this.expectedAccount == expectedAccount && State() == Started(now)
    {
      this.expectedAccount := expectedAccount;
      accountName, logonStyle, accountAccepted, loggedOn, keepalivesActive := None, None, false, false, false;
      nextNull, nextPing, pendingPing := now + NULL_INTERVAL, now + PING_INTERVAL, None;
    }

    function State(): Peer
      reads this
    {
      Peer(accountName, logonStyle, accountAccepted, loggedOn, keepalivesActive, nextNull, nextPing, pendingPing)
    }

    method SendPing(now: nat, token: Dword) returns (ping: Ping)
      modifies this
      ensures ping == Ping(token, now)
      ensures State() == old(State()).(pendingPing := Some(ping), nextPing := now + PING_INTERVAL)
    {
      ping := Ping(token, now);
      pendingPing := Some(ping);
      nextPing := now + PING_INTERVAL;
    }

    method StartKeepalives(now: nat, token: Dword) returns (outcome: Outcome)
      modifies this
      ensures (State(), outcome) == BeginKeepalives(old(State()), now, token)
    {
      if keepalivesActive {
        return QUIET;
      }
      keepalivesActive := true;
      nextNull := now + NULL_INTERVAL;
      var ping := SendPing(now, token);
      return Outcome(None, None, Some(ping));
    }

    /** Refuses an account that was not accepted, whatever the caller believed. */
    method SendLogonSuccess() returns (outcome: Outcome)
      modifies this
      ensures !old(accountAccepted) ==> State() == old(State()) && outcome == Invalid
      ensures old(accountAccepted) ==> State() == old(State()).(loggedOn := true)
      ensures old(accountAccepted) ==> outcome == Outcome(None, Some(SuccessOf(old(logonStyle))), None)
    {
      if !accountAccepted {
        return Invalid;
      }
      loggedOn := true;
      return Outcome(None, Some(SuccessOf(logonStyle)), None);
    }

    method HandleNewLogon(packet: Packet) returns (outcome: Outcome)
      requires packet.id == SID_AUTH_ACCOUNT_LOGON
      modifies this
      ensures (State(), outcome) == NewLogon(expectedAccount, old(State()), packet)
    {
      logonStyle := Some(New);
      accountName := CStringAt(packet.payload, 32);
      accountAccepted := Names(expectedAccount, accountName);
      loggedOn := false;
      return Outcome(None, Some(Verdict(SID_AUTH_ACCOUNT_LOGON, if accountAccepted then 0 else 1)), None);
    }

    method HandleOldLogon(packet: Packet, style: Style) returns (outcome: Outcome)
      requires packet.id == (if style == Legacy then SID_LOGON_RESPONSE else SID_LOGON_RESPONSE2) && style != New
      modifies this
      ensures (State(), outcome) == OldLogon(expectedAccount, old(State()), packet, style)
    {
      logonStyle := Some(style);
      accountName := CStringAt(packet.payload, 28);
      accountAccepted := Names(expectedAccount, accountName);
      loggedOn := false;
      if accountAccepted {
        outcome := SendLogonSuccess();
      } else {
        outcome := Outcome(None, Some(Verdict(packet.id, if style == Legacy then 0 else 1)), None);
      }
    }

    method HandleProof(packet: Packet) returns (outcome: Outcome)
      requires packet.id == SID_AUTH_ACCOUNT_LOGON_PROOF
      modifies this
      ensures (State(), outcome) == Proof(old(State()), packet)
    {
      logonStyle := Some(New);
      if accountAccepted {
        outcome := SendLogonSuccess();
      } else {
        outcome := Outcome(None, Some(Verdict(packet.id, 2)), None);
      }
    }

    method HandlePingReply(packet: Packet, now: nat) returns (outcome: Outcome)
      modifies this
      ensures (State(), outcome) == PingReply(old(State()), packet, now)
    {
      if |packet.payload| != 4 {
        return Invalid;
      }
      var token := TakeDword(packet.payload, 0).value;
      var taken := pendingPing;
      pendingPing := None;
      return Does(Pong(if taken.Some? && taken.value.token == token then Some(now - taken.value.sentAt) else None));
    }

    method Handle(packet: Packet, now: nat, token: Dword) returns (outcome: Outcome)
      modifies this
      ensures (State(), outcome) == Handled(expectedAccount, old(State()), packet, now, token)
    {
      hide BeginKeepalives, NewLogon, OldLogon, Proof, PingReply, EnterChatOutcome, JoinChannelOutcome,
          ChatCommandOutcome,
        ReadUserDataOutcome, TakeDword;
      if packet.id == SID_AUTH_INFO || packet.id == SID_START_VERSIONING {
        outcome := StartKeepalives(now, token);
      } else if packet.id == SID_AUTH_ACCOUNT_LOGON {
        outcome := HandleNewLogon(packet);
      } else if packet.id == SID_AUTH_ACCOUNT_LOGON_PROOF {
        outcome := HandleProof(packet);
      } else if packet.id == SID_LOGON_RESPONSE2 {
        outcome := HandleOldLogon(packet, Old);
      } else if packet.id == SID_LOGON_RESPONSE {
        outcome := HandleOldLogon(packet, Legacy);
      } else if packet.id == SID_PING {
        outcome := HandlePingReply(packet, now);
      } else {
        outcome := Handled(expectedAccount, State(), packet, now, token).1;
      }
    }

    method ServiceKeepalive(now: nat, token: Dword) returns (outcome: Outcome)
      modifies this
      ensures (State(), outcome) == Serviced(old(State()), now, token)
    {
      outcome := QUIET;
      if keepalivesActive {
        if now >= nextNull {
          nextNull := now + NULL_INTERVAL;
        }
        if now >= nextPing {
          var ping := SendPing(now, token);
          outcome := Outcome(None, None, Some(ping));
        }
      }
    }
  }

  function SuccessOf(style: Option<Style>): Verdict {
    match style
    case Some(Legacy) => Verdict(SID_LOGON_RESPONSE, 1)
    case Some(New) => Verdict(SID_AUTH_ACCOUNT_LOGON_PROOF, 0)
    case _ => Verdict(SID_LOGON_RESPONSE2, 0)
  }

  // ---- runs ----

  datatype Call = Receive(packet: Packet, now: nat, token: Dword) | Service(now: nat, token: Dword)

  function Step(expected: Bytes, p: Peer, c: Call): (Peer, Outcome) {
    match c
    case Receive(packet, now, token) => Handled(expected, p, packet, now, token)
    case Service(now, token) => Serviced(p, now, token)
  }

  function After(expected: Bytes, start: nat, calls: seq<Call>): Peer {
    if calls == [] then Started(start)
    else Step(expected, After(expected, start, calls[..|calls| - 1]), calls[|calls| - 1]).0
  }

  predicate IsLogonCall(c: Call) { c.Receive? && IsLogon(c.packet.id) }

  predicate IsProofCall(c: Call) { c.Receive? && c.packet.id == SID_AUTH_ACCOUNT_LOGON_PROOF }

  /** The most recent logon request of the history. */
  ghost predicate LastLogon(calls: seq<Call>, i: int) {
    0 <= i < |calls| && IsLogonCall(calls[i]) && forall j :: i < j < |calls| ==> !IsLogonCall(calls[j])
  }

  ghost predicate ProofSince(calls: seq<Call>, i: int) { exists j :: 0 <= i < j < |calls| && IsProofCall(calls[j]) }

  /** The most recent request named the expected account and, if it was of the new style, a proof followed. */
  ghost predicate Authorised(expected: Bytes, calls: seq<Call>) {
    exists i ::
      && LastLogon(calls, i)
      && Names(expected, AccountIn(calls[i].packet))
      && (IsOldLogon(calls[i].packet.id) || ProofSince(calls, i))
  }

  ghost predicate NamedExpected(expected: Bytes, calls: seq<Call>) {
    exists i :: LastLogon(calls, i) && Names(expected, AccountIn(calls[i].packet))
  }

  lemma LastLogonExtends(calls: seq<Call>, c: Call, i: int)
    ensures LastLogon(calls + [c], i) <==> if IsLogonCall(c) then i == |calls| else LastLogon(calls, i)
  {
    var longer := calls + [c];
    assert longer[|calls|] == c;
    assert forall j :: 0 <= j < |calls| ==> longer[j] == calls[j];
  }

  lemma ProofExtends(calls: seq<Call>, c: Call, i: int)
    requires 0 <= i < |calls|
    ensures ProofSince(calls + [c], i) <==> ProofSince(calls, i) || IsProofCall(c)
  {
    var longer := calls + [c];
    assert longer[|calls|] == c;
    assert forall j :: 0 <= j < |calls| ==> longer[j] == calls[j];
  }

  lemma NamedExtends(expected: Bytes, calls: seq<Call>, c: Call)
    ensures NamedExpected(expected, calls + [c])
            <==> if IsLogonCall(c) then Names(expected, AccountIn(c.packet)) else NamedExpected(expected, calls)
  {
    hide LastLogon, Names, AccountIn;
    forall i ensures LastLogon(calls + [c], i) <==> if IsLogonCall(c) then i == |calls| else LastLogon(calls, i) {
      LastLogonExtends(calls, c, i);
    }
    forall i | LastLogon(calls, i) ensures 0 <= i < |calls| && (calls + [c])[i] == calls[i] {
      LastLogonWithin(calls, i);
    }
    if IsLogonCall(c) { assert LastLogon(calls + [c], |calls|); }
  }

  lemma LastLogonWithin(calls: seq<Call>, i: int)
    requires LastLogon(calls, i)
    ensures 0 <= i < |calls| && IsLogonCall(calls[i])
  {
  }

  ghost predicate Witness(expected: Bytes, calls: seq<Call>, i: int) {
    LastLogon(calls, i) && Names(expected, AccountIn(calls[i].packet))
        && (IsOldLogon(calls[i].packet.id) || ProofSince(calls, i))
  }

  lemma WitnessExtends(expected: Bytes, calls: seq<Call>, c: Call, i: int)
    requires !IsLogonCall(c)
    ensures Witness(expected, calls + [c], i)
            <==> LastLogon(calls, i) && Names(expected, AccountIn(calls[i].packet))
                 && (IsOldLogon(calls[i].packet.id) || ProofSince(calls, i) || IsProofCall(c))
  {
    LastLogonExtends(calls, c, i);
    if LastLogon(calls, i) {
      ProofExtends(calls, c, i);
      assert (calls + [c])[i] == calls[i];
    }
  }

  lemma AuthorisedIsWitnessed(expected: Bytes, calls: seq<Call>)
    ensures Authorised(expected, calls) <==> exists i :: Witness(expected, calls, i)
  {
    if Authorised(expected, calls) {
      var i :|
        && LastLogon(calls, i)
        && Names(expected, AccountIn(calls[i].packet))
        && (IsOldLogon(calls[i].packet.id) || ProofSince(calls, i));
      assert Witness(expected, calls, i);
    }
    if i :| Witness(expected, calls, i) {
      assert LastLogon(calls, i);
    }
  }

  lemma AuthorisedExtends(expected: Bytes, calls: seq<Call>, c: Call)
    ensures Authorised(expected, calls + [c])
            <==> if IsLogonCall(c) then IsOldLogon(c.packet.id) && Names(expected, AccountIn(c.packet))
                 else if IsProofCall(c) then NamedExpected(expected, calls)
                 else Authorised(expected, calls)
  {
    hide Names, AccountIn, Authorised;
    AuthorisedIsWitnessed(expected, calls);
    AuthorisedIsWitnessed(expected, calls + [c]);
    if IsLogonCall(c) {
      forall i ensures LastLogon(calls + [c], i) <==> i == |calls| { LastLogonExtends(calls, c, i); }
      assert (calls + [c])[|calls|] == c;
      assert !ProofSince(calls + [c], |calls|);
      assert Witness(expected, calls + [c], |calls|)
          <==> IsOldLogon(c.packet.id) && Names(expected, AccountIn(c.packet));
    } else {
      OtherCallsExtend(expected, calls, c);
    }
  }

  lemma OtherCallsExtend(expected: Bytes, calls: seq<Call>, c: Call)
    requires !IsLogonCall(c)
    ensures (exists i :: Witness(expected, calls + [c], i))
            <==> if IsProofCall(c) then NamedExpected(expected, calls) else exists i :: Witness(expected, calls, i)
  {
    hide Names, AccountIn, LastLogon, ProofSince;
    forall i | LastLogon(calls, i) ensures 0 <= i < |calls| && calls[i].Receive? { LastLogonWithin(calls, i); }
    if i :| Witness(expected, calls + [c], i) {
      WitnessExtends(expected, calls, c, i);
      assert !IsProofCall(c) ==> Witness(expected, calls, i);
    }
    if i :| Witness(expected, calls, i) {
      WitnessExtends(expected, calls, c, i);
      assert Witness(expected, calls + [c], i);
    }
    if IsProofCall(c) && NamedExpected(expected, calls) {
      var i :| LastLogon(calls, i) && Names(expected, AccountIn(calls[i].packet));
      WitnessExtends(expected, calls, c, i);
      assert Witness(expected, calls + [c], i);
    }
  }

  /** How one call changes the two facts the history decides. */
  lemma StepAccepts(expected: Bytes, p: Peer, c: Call)
    ensures
      var q := Step(expected, p, c).0;
      if IsLogonCall(c) then
        var ok := Names(expected, AccountIn(c.packet));
        q.accepted == ok && q.loggedOn == (ok && IsOldLogon(c.packet.id))
      else
        q.accepted == p.accepted && q.loggedOn == (p.loggedOn || (IsProofCall(c) && p.accepted))
  {
  }

  /** In every run a client counts as logged on exactly when its history authorises it. */
  lemma {:induction false} LoggedOnIffAuthorised(expected: Bytes, start: nat, calls: seq<Call>)
    ensures After(expected, start, calls).accepted <==> NamedExpected(expected, calls)
    ensures After(expected, start, calls).loggedOn <==> Authorised(expected, calls)
    decreases |calls|
  {
    hide Step, Authorised, NamedExpected;
    if calls == [] {
      NothingYet(expected);
    } else {
      var before, c := calls[..|calls| - 1], calls[|calls| - 1];
      LoggedOnIffAuthorised(expected, start, before);
      assert before + [c] == calls;
      StepAccepts(expected, After(expected, start, before), c);
      NamedExtends(expected, before, c);
      AuthorisedExtends(expected, before, c);
      AuthorisedWasNamed(expected, before);
    }
  }

  lemma NothingYet(expected: Bytes)
    ensures !NamedExpected(expected, []) && !Authorised(expected, [])
  {
  }

  lemma AuthorisedWasNamed(expected: Bytes, calls: seq<Call>)
    ensures Authorised(expected, calls) ==> NamedExpected(expected, calls)
  {
  }

  predicate NeedsLogon(a: Action) { a.EnterChat? || a.JoinChannel? || a.LeaveChat? || a.RequestFriendsList? }

  lemma GatedByLogon(expected: Bytes, p: Peer, c: Call)
    ensures
      var o := Step(expected, p, c).1;
      o.Outcome? && o.action.Some? && NeedsLogon(o.action.value) ==>
        p.loggedOn && (o.action.value.EnterChat? ==> o.action.value.name == expected)
  {
  }

  /** Chat is entered, joined, left, or its friends asked for, only on behalf of the expected account. */
  lemma OnlyTheAccountActs(expected: Bytes, start: nat, calls: seq<Call>, c: Call)
    ensures
      var o := Step(expected, After(expected, start, calls), c).1;
      o.Outcome? && o.action.Some? && NeedsLogon(o.action.value) ==>
        Authorised(expected, calls) && (o.action.value.EnterChat? ==> o.action.value.name == expected)
  {
    hide Step, Authorised, NamedExpected;
    GatedByLogon(expected, After(expected, start, calls), c);
    LoggedOnIffAuthorised(expected, start, calls);
  }

  /** The oldest logon packet reports success as one, the others as zero. */
  predicate Succeeds(v: Verdict) { v.status == if v.id == SID_LOGON_RESPONSE then 1 else 0 }

  lemma VerdictOf(expected: Bytes, p: Peer, c: Call)
    requires IsLogonCall(c) || IsProofCall(c)
    ensures
      var q, o := Step(expected, p, c).0, Step(expected, p, c).1;
      o.Outcome? && o.verdict.Some? && o.verdict.value.id == c.packet.id && (Succeeds(o.verdict.value) <==> q.accepted)
  {
    hide Names, AccountIn;
  }

  /** What the client is told is true: an old-style request or a proof is answered with success if and only if
      the client is logged on from then on. */
  lemma SuccessIsToldIffLoggedOn(expected: Bytes, start: nat, calls: seq<Call>, c: Call)
    requires c.Receive? && (IsOldLogon(c.packet.id) || IsProofCall(c))
    ensures
      var o := Step(expected, After(expected, start, calls), c).1;
      o.Outcome? && o.verdict.Some? && (Succeeds(o.verdict.value) <==> After(expected, start, calls + [c]).loggedOn)
  {
    hide Step, Authorised, NamedExpected;
    var p := After(expected, start, calls);
    VerdictOf(expected, p, c);
    StepAccepts(expected, p, c);
    LoggedOnIffAuthorised(expected, start, calls);
    AuthorisedWasNamed(expected, calls);
    assert (calls + [c])[..|calls|] == calls;
  }

  // ---- pings ----

  datatype PingEvent = Sent(ping: Ping) | Replied

  function PingEvents(expected: Bytes, p: Peer, c: Call): seq<PingEvent> {
    var o := Step(expected, p, c).1;
    if o.Outcome? && o.pinged.Some? then [Sent(o.pinged.value)]
    else if o.Outcome? && o.action.Some? && o.action.value.Pong? then [Replied]
    else []
  }

  /** Every ping sent and every reply received, in order. */
  function PingLog(expected: Bytes, start: nat, calls: seq<Call>): seq<PingEvent> {
    if calls == [] then []
    else
      var before := calls[..|calls| - 1];
      PingLog(expected, start, before) + PingEvents(expected, After(expected, start, before), calls[|calls| - 1])
  }

  /** The ping no reply has followed yet. */
  function Outstanding(log: seq<PingEvent>): Option<Ping> {
    if log != [] && log[|log| - 1].Sent? then Some(log[|log| - 1].ping) else None
  }

  ghost predicate Spaced(log: seq<PingEvent>) {
    forall i, j :: 0 <= i < j < |log| && log[i].Sent? && log[j].Sent?
        ==> log[i].ping.sentAt + PING_INTERVAL <= log[j].ping.sentAt
  }

  ghost predicate NoPingAfter(log: seq<PingEvent>, due: int) {
    forall i :: 0 <= i < |log| && log[i].Sent? ==> log[i].ping.sentAt + PING_INTERVAL <= due
  }

  /** What a call that produced `events` did to the ping fields. */
  ghost predicate Pinged(p: Peer, q: Peer, events: seq<PingEvent>) {
    if events == [] then q.pendingPing == p.pendingPing && q.nextPing == p.nextPing && q.keepalives == p.keepalives
    else
      && |events| == 1
      && q.pendingPing == Outstanding(events)
      && (if events[0].Replied? then q.nextPing == p.nextPing && q.keepalives == p.keepalives
          else
            && q.keepalives
            && q.nextPing == events[0].ping.sentAt + PING_INTERVAL
            && (p.keepalives ==> events[0].ping.sentAt >= p.nextPing))
  }

  lemma StepPings(expected: Bytes, p: Peer, c: Call)
    ensures Pinged(p, Step(expected, p, c).0, PingEvents(expected, p, c))
  {
    hide Names, AccountIn, TakeCString, HasStrings, EqualIgnoringCase;
  }

  ghost predicate InStep(p: Peer, log: seq<PingEvent>) {
    && p.pendingPing == Outstanding(log)
    && Spaced(log)
    && (p.keepalives ==> NoPingAfter(log, p.nextPing))
    && (!p.keepalives ==> forall i :: 0 <= i < |log| ==> log[i].Replied?)
  }

  lemma PingsStayInStep(p: Peer, q: Peer, log: seq<PingEvent>, events: seq<PingEvent>)
    requires InStep(p, log) && Pinged(p, q, events)
    ensures InStep(q, log + events)
  {
  }

  lemma {:induction false} PendingIsOutstanding(expected: Bytes, start: nat, calls: seq<Call>)
    ensures InStep(After(expected, start, calls), PingLog(expected, start, calls))
    decreases |calls|
  {
    hide Step, PingEvents, Pinged;
    if calls != [] {
      hide InStep;
      var before, c := calls[..|calls| - 1], calls[|calls| - 1];
      var p := After(expected, start, before);
      PendingIsOutstanding(expected, start, before);
      StepPings(expected, p, c);
      PingsStayInStep(p, Step(expected, p, c).0, PingLog(expected, start, before), PingEvents(expected, p, c));
    }
  }

  /** A measured round trip belongs to the latest ping, which no earlier reply has used up, and is measured from
      when it was sent. */
  lemma RoundTripIffLatestPing(expected: Bytes, start: nat, calls: seq<Call>, packet: Packet, now: nat, token: Dword)
    requires packet.id == SID_PING && |packet.payload| == 4
    ensures
      var log := PingLog(expected, start, calls);
      var reply := TakeDword(packet.payload, 0).value;
      Step(expected, After(expected, start, calls), Receive(packet, now, token)).1
      == Does(Pong(if log != [] && log[|log| - 1].Sent? && log[|log| - 1].ping.token == reply
                   then Some(now - log[|log| - 1].ping.sentAt) else None))
  {
    hide PingEvents, After, PingLog, Spaced, NoPingAfter, TakeDword;
    PendingIsOutstanding(expected, start, calls);
  }

  /** Two pings are never sent within one interval of each other. */
  lemma PingsAreSpaced(expected: Bytes, start: nat, calls: seq<Call>)
    ensures Spaced(PingLog(expected, start, calls))
  {
    hide PingEvents, After, Spaced;
    PendingIsOutstanding(expected, start, calls);
  }
}
