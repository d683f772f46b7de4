/** Packet framing and payload fields of the legacy chat gateway (gateway/src/bncs.rs). A string is its
    UTF-8 bytes. */
module Bncs {
  import opened Common

  type Bytes = seq<Byte>

  type Dword = d: int | 0 <= d < 0x1_0000_0000

  datatype Packet = Packet(id: Byte, payload: Bytes)

  // ---- framing ----

  const HEADER := 4
  const MARKER := 0xFF

  function Word(low: int, high: int): int { low + 0x100 * high }

  function Framed(p: Packet): Option<Bytes> {
    var length := |p.payload| + HEADER;
    if length > 0xFFFF then None else Some([MARKER, p.id, length % 0x100, length / 0x100] + p.payload)
  }

  datatype FrameError = BadMarker | BadLength | EndOfFile

  datatype Input = End | Got(packet: Packet, rest: Bytes) | Bad(error: FrameError)

  /** What one call reads from a stream that still holds `s`. */
  function ReadPacket(s: Bytes): (r: Input)
    ensures r.Got? ==> |r.rest| < |s|
  {
    if s == [] then End
    else if s[0] != MARKER then Bad(BadMarker)
    else if |s| < HEADER then Bad(EndOfFile)
    else
      var length := Word(s[2], s[3]);
      if length < HEADER then Bad(BadLength)
      else if |s| < length then Bad(EndOfFile)
      else Got(Packet(s[1], s[HEADER..length]), s[length..])
  }

  datatype Session = Session(packets: seq<Packet>, failure: Option<FrameError>)

  function ReadAll(s: Bytes): Session
    decreases |s|
  {
    match ReadPacket(s)
    case End => Session([], None)
    case Bad(e) => Session([], Some(e))
    case Got(p, rest) =>
      var later := ReadAll(rest);
      Session([p] + later.packets, later.failure)
  }

  /** The stream after writing the packets; one that is too long writes nothing. */
  function WriteAll(packets: seq<Packet>): Bytes {
    if packets == [] then []
    else (if Framed(packets[0]).Some? then Framed(packets[0]).value else []) + WriteAll(packets[1..])
  }

  function Writable(packets: seq<Packet>): (r: seq<Packet>)
    ensures forall p :: p in r ==> Framed(p).Some?
  {
    if packets == [] then []
    else (if Framed(packets[0]).Some? then [packets[0]] else []) + Writable(packets[1..])
  }

  lemma FrameReadsBack(p: Packet, after: Bytes)
    requires Framed(p).Some?
    ensures ReadPacket(Framed(p).value + after) == Got(p, after)
  {
  }

  lemma FrameWritesBack(s: Bytes)
    requires ReadPacket(s).Got?
    ensures Framed(ReadPacket(s).packet).Some? && Framed(ReadPacket(s).packet).value + ReadPacket(s).rest == s
  {
  }

  /** Reading what was written gives exactly the packets whose writes succeeded, then the end of the stream. */
  lemma {:induction false} ReadsWhatWasWritten(packets: seq<Packet>)
    ensures ReadAll(WriteAll(packets)) == Session(Writable(packets), None)
  {
    hide Framed, ReadPacket;
    if packets == [] {
      NothingToRead();
    } else {
      var p := packets[0];
      ReadsWhatWasWritten(packets[1..]);
      if Framed(p).Some? {
        FrameReadsBack(p, WriteAll(packets[1..]));
      } else {
        assert WriteAll(packets) == WriteAll(packets[1..]);
        assert Writable(packets) == Writable(packets[1..]);
      }
    }
  }

  lemma NothingToRead()
    ensures ReadPacket([]) == End
  {
  }

  /** A stream that reads cleanly has only one meaning: it is what writing its packets produces. */
  lemma {:induction false} WritesWhatWasRead(s: Bytes)
    requires ReadAll(s).failure.None?
    ensures WriteAll(ReadAll(s).packets) == s
    ensures forall p :: p in ReadAll(s).packets ==> Framed(p).Some?
    decreases |s|
  {
    hide Framed, ReadPacket;
    match ReadPacket(s)
    case End => EndIsEmpty(s);
    case Got(p, rest) =>
      WritesWhatWasRead(rest);
      FrameWritesBack(s);
      assert ReadAll(s).packets[1..] == ReadAll(rest).packets;
  }

  lemma EndIsEmpty(s: Bytes)
    requires ReadPacket(s).End?
    ensures s == []
  {
  }

  // ---- payload fields ----

  function DwordBytes(v: Dword): Bytes {
    [v % 0x100, v / 0x100 % 0x100, v / 0x100 / 0x100 % 0x100, v / 0x100 / 0x100 / 0x100]
  }

  function DwordOf(a: Byte, b: Byte, c: Byte, d: Byte): Dword {
    a as int + 0x100 * b as int + 0x1_0000 * c as int + 0x100_0000 * d as int
  }

  function CStringBytes(s: Bytes): Bytes { s + [0] }

  class PayloadWriter {
    var data: Bytes

    constructor ()
      ensures data == []
    {
      data := [];
    }

    method Dword(value: Dword)
      modifies this
      ensures data == old(data) + DwordBytes(value)
    {
      data := data + DwordBytes(value);
    }

    method Byte(value: Byte)
      modifies this
      ensures data == old(data) + [value]
    {
      data := data + [value];
    }

    method CString(value: Bytes)
      modifies this
      ensures data == old(data) + CStringBytes(value)
    {
      data := data + value;
      data := data + [0];
    }
  }

  /** A field read at an offset, and the offset after it. */
  datatype Taken<T> = Missing | Taken(value: T, offset: nat)

  function TakeByte(data: Bytes, offset: nat): Taken<Byte> {
    if offset < |data| then Taken(data[offset], offset + 1) else Missing
  }

  function TakeDword(data: Bytes, offset: nat): Taken<Dword> {
    if offset + 4 <= |data| then
      Taken(DwordOf(data[offset], data[offset + 1], data[offset + 2], data[offset + 3]), offset + 4)
    else Missing
  }

  /** The first zero byte from `i` on, or the length. */
  function NulFrom(data: Bytes, i: nat): (n: nat)
    requires i <= |data|
    ensures i <= n <= |data|
    ensures n < |data| ==> data[n] == 0
    ensures forall k :: i <= k < n ==> data[k] != 0
    decreases |data| - i
  {
    if i == |data| || data[i] == 0 then i else NulFrom(data, i + 1)
  }

  function TakeCString(data: Bytes, offset: nat): Taken<Bytes> {
    if offset > |data| then Missing
    else
      var n := NulFrom(data, offset);
      if n == |data| then Missing else Taken(data[offset..n], n + 1)
  }

  class PayloadReader {
    const data: Bytes
    var offset: nat

    constructor (data: Bytes)
      ensures this.data == data && offset == 0
    {
      this.data := data;
      offset := 0;
    }

    method Dword() returns (r: Option<Dword>)
      modifies this
      ensures
        var t := TakeDword(data, old(offset));
        if t.Taken? then r == Some(t.value) && offset == t.offset else r == None && offset == old(offset)
    {
      if offset + 4 > |data| {
        return None;
      }
      r := Some(DwordOf(data[offset], data[offset + 1], data[offset + 2], data[offset + 3]));
      offset := offset + 4;
    }

    method CString() returns (r: Option<Bytes>)
      modifies this
      ensures
        var t := TakeCString(data, old(offset));
        if t.Taken? then r == Some(t.value) && offset == t.offset else r == None && offset == old(offset)
    {
      if offset > |data| {
        return None;
      }
      var n := offset;
      while n < |data| && data[n] != 0
        invariant offset <= n <= |data| && offset == old(offset)
        invariant NulFrom(data, offset) == NulFrom(data, n)
      {
        n := n + 1;
      }
      if n == |data| {
        return None;
      }
      r := Some(data[offset..n]);
      offset := n + 1;
    }
  }

  // ---- the friends list ----

  datatype FriendEntry = FriendEntry(name: Bytes, status: Byte, location: Byte, product: Dword, locationName: Bytes)

  const SID_FRIENDS_LIST: Byte := 0x65

  function DetailBytes(f: FriendEntry): Bytes {
    [f.status] + [f.location] + DwordBytes(f.product) + CStringBytes(f.locationName)
  }

  function FriendBytes(f: FriendEntry): Bytes { CStringBytes(f.name) + DetailBytes(f) }

  function FriendsBytes(friends: seq<FriendEntry>): Bytes {
    if friends == [] then [] else FriendsBytes(friends[..|friends| - 1]) + FriendBytes(friends[|friends| - 1])
  }

  function FriendsPacket(friends: seq<FriendEntry>): Packet
    requires |friends| <= 255
  {
    Packet(SID_FRIENDS_LIST, [|friends|] + FriendsBytes(friends))
  }

  lemma DetailsAfter(before: Bytes, f: FriendEntry)
    ensures before + [f.status] + [f.location] + DwordBytes(f.product) + CStringBytes(f.locationName)
        == before + DetailBytes(f)
  {
  }

  lemma NameThenDetails(before: Bytes, f: FriendEntry)
    ensures before + CStringBytes(f.name) + DetailBytes(f) == before + FriendBytes(f)
  {
  }

  method WriteFriend(payload: PayloadWriter, friend: FriendEntry, includeName: bool)
    modifies payload
    ensures payload.data == old(payload.data) + (if includeName then FriendBytes(friend) else DetailBytes(friend))
  {
    hide *;
    if includeName {
      payload.CString(friend.name);
    }
    ghost var named := payload.data;
    payload.Byte(friend.status);
    payload.Byte(friend.location);
    payload.Dword(friend.product);
    payload.CString(friend.locationName);
    DetailsAfter(named, friend);
    NameThenDetails(old(payload.data), friend);
  }

  lemma NoFriends()
    ensures FriendsBytes([]) == []
  {
  }

  lemma OneMoreFriend(friends: seq<FriendEntry>, i: nat)
    requires i < |friends|
    ensures FriendsBytes(friends[..i + 1]) == FriendsBytes(friends[..i]) + FriendBytes(friends[i])
  {
    hide FriendBytes;
    assert friends[..i + 1][..i] == friends[..i];
  }

  /** The bytes put on the wire, or nothing when the list or the packet is too long. */
  method SendFriendsList(friends: seq<FriendEntry>) returns (wire: Option<Bytes>)
    ensures wire == if |friends| > 255 then None else Framed(FriendsPacket(friends))
  {
    hide FriendsBytes, FriendBytes, Framed;
    if |friends| > 255 {
      return None;
    }
    NoFriends();
    var payload := new PayloadWriter();
    payload.Byte(|friends|);
    for i := 0 to |friends|
      invariant payload.data == [|friends|] + FriendsBytes(friends[..i])
    {
      WriteFriend(payload, friends[i], true);
      OneMoreFriend(friends, i);
    }
    assert friends[..|friends|] == friends;
    return Framed(Packet(SID_FRIENDS_LIST, payload.data));
  }

  function TakeFriend(data: Bytes, offset: nat): Taken<FriendEntry> {
    var name := TakeCString(data, offset);
    if name.Missing? then Missing
    else
      var status := TakeByte(data, name.offset);
      if status.Missing? then Missing
      else
        var location := TakeByte(data, status.offset);
        if location.Missing? then Missing
        else
          var product := TakeDword(data, location.offset);
          if product.Missing? then Missing
          else
            var locationName := TakeCString(data, product.offset);
            if locationName.Missing? then Missing
            else Taken(FriendEntry(name.value, status.value, location.value, product.value, locationName.value),
                       locationName.offset)
  }

  /** What a client makes of `count` entries: read in order, nothing left over. */
  function TakeFriends(data: Bytes, offset: nat, count: nat): Option<seq<FriendEntry>>
    decreases count
  {
    if count == 0 then (if offset == |data| then Some([]) else None)
    else
      var first := TakeFriend(data, offset);
      if first.Missing? then None
      else
        var later := TakeFriends(data, first.offset, count - 1);
        if later.None? then None else Some([first.value] + later.value)
  }

  function ReadFriendsList(wire: Bytes): Option<seq<FriendEntry>> {
    var input := ReadPacket(wire);
    if !input.Got? || input.packet.id != SID_FRIENDS_LIST || input.packet.payload == [] || input.rest != [] then None
    else TakeFriends(input.packet.payload, 1, input.packet.payload[0])
  }

  predicate NulFree(s: Bytes) { 0 !in s }

  predicate CleanFriend(f: FriendEntry) { NulFree(f.name) && NulFree(f.locationName) }

  predicate Clean(friends: seq<FriendEntry>) { forall f :: f in friends ==> CleanFriend(f) }

  lemma CStringReadsBack(before: Bytes, s: Bytes, after: Bytes)
    requires NulFree(s)
    ensures TakeCString(before + CStringBytes(s) + after, |before|) == Taken(s, |before| + |s| + 1)
  {
    var data := before + CStringBytes(s) + after;
    var n := NulFrom(data, |before|);
    assert forall k :: 0 <= k < |s| ==> data[|before| + k] == s[k];
    assert data[|before| + |s|] == 0;
    assert forall k :: |before| <= k < |before| + |s| ==> data[k] == s[k - |before|] && data[k] in s;
    assert n == |before| + |s|;
    assert data[|before|..n] == s;
  }

  lemma DwordReadsBack(before: Bytes, v: Dword, after: Bytes)
    ensures TakeDword(before + DwordBytes(v) + after, |before|) == Taken(v, |before| + 4)
  {
  }

  lemma DwordLength(v: Dword)
    ensures |DwordBytes(v)| == 4
  {
  }

  lemma CStringLength(s: Bytes)
    ensures |CStringBytes(s)| == |s| + 1
  {
  }

  lemma FriendReadsBack(before: Bytes, f: FriendEntry, after: Bytes)
    requires CleanFriend(f)
    ensures TakeFriend(before + FriendBytes(f) + after, |before|) == Taken(f, |before| + |FriendBytes(f)|)
  {
    hide TakeCString, TakeDword, DwordBytes, CStringBytes, NulFree;
    DwordLength(f.product);
    CStringLength(f.name);
    CStringLength(f.locationName);
    var data := before + FriendBytes(f) + after;
    var a := before + CStringBytes(f.name);
    var b := a + [f.status] + [f.location];
    var c := b + DwordBytes(f.product);
    assert data == before + CStringBytes(f.name) + (DetailBytes(f) + after);
    CStringReadsBack(before, f.name, DetailBytes(f) + after);
    assert data == a + ([f.status] + [f.location] + (DwordBytes(f.product) + CStringBytes(f.locationName) + after));
    assert data == b + DwordBytes(f.product) + (CStringBytes(f.locationName) + after);
    DwordReadsBack(b, f.product, CStringBytes(f.locationName) + after);
    assert data == c + CStringBytes(f.locationName) + after;
    CStringReadsBack(c, f.locationName, after);
  }

  function Listed(friends: seq<FriendEntry>): Bytes {
    if friends == [] then [] else FriendBytes(friends[0]) + Listed(friends[1..])
  }

  lemma {:induction false} FriendsBytesFromFront(friends: seq<FriendEntry>, last: FriendEntry)
    ensures Listed(friends + [last]) == Listed(friends) + FriendBytes(last)
  {
    if friends == [] {
      assert [last][1..] == [];
    } else {
      assert (friends + [last])[1..] == friends[1..] + [last];
      FriendsBytesFromFront(friends[1..], last);
    }
  }

  lemma {:induction false} FriendsBytesListed(friends: seq<FriendEntry>)
    ensures FriendsBytes(friends) == Listed(friends)
  {
    if friends != [] {
      var n := |friends| - 1;
      FriendsBytesListed(friends[..n]);
      FriendsBytesFromFront(friends[..n], friends[n]);
      assert friends[..n] + [friends[n]] == friends;
    }
  }

  lemma {:induction false} FriendsReadBack(before: Bytes, friends: seq<FriendEntry>)
    requires Clean(friends)
    ensures TakeFriends(before + Listed(friends), |before|, |friends|) == Some(friends)
    decreases |friends|
  {
    hide TakeFriend, FriendBytes;
    if friends != [] {
      var f, later := friends[0], friends[1..];
      assert f in friends;
      FriendReadsBack(before, f, Listed(later));
      assert before + Listed(friends) == before + FriendBytes(f) + Listed(later);
      FriendsReadBack(before + FriendBytes(f), later);
      assert [f] + later == friends;
    }
  }

  lemma {:induction false} ReadStringsAreClean(data: Bytes, offset: nat, count: nat)
    ensures
      var r := TakeFriends(data, offset, count);
      r.Some? ==> Clean(r.value)
    decreases count
  {
    hide TakeFriend, CleanFriend;
    if count > 0 {
      var first := TakeFriend(data, offset);
      if first.Taken? {
        ReadFriendIsClean(data, offset);
        ReadStringsAreClean(data, first.offset, count - 1);
      }
    }
  }

  lemma ReadFriendIsClean(data: Bytes, offset: nat)
    requires TakeFriend(data, offset).Taken?
    ensures CleanFriend(TakeFriend(data, offset).value)
  {
  }

  /** A list that could be sent decodes to the same entries exactly when none of its strings contains a zero byte. */
  lemma FriendsListRoundTrip(friends: seq<FriendEntry>)
    requires |friends| <= 255 && Framed(FriendsPacket(friends)).Some?
    ensures ReadFriendsList(Framed(FriendsPacket(friends)).value) == Some(friends) <==> Clean(friends)
  {
    hide TakeFriends, Clean;
    var p := FriendsPacket(friends);
    FrameReadsBack(p, []);
    assert Framed(p).value + [] == Framed(p).value;
    FriendsBytesListed(friends);
    if Clean(friends) { FriendsReadBack([|friends|], friends); }
    ReadStringsAreClean(p.payload, 1, |friends|);
  }
}
