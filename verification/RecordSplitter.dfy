/** The incremental decryptor and record splitter behind the sniffer (scanner-sweep/src/session.rs). The
    keystream and the native record decoder are parameters. */
module RecordSplitter {
  import opened Common

  /** `audits` are the decoder's own remarks about the record, reported before it. */
  datatype Record = Record(bytes: seq<Byte>, typeName: string, audits: seq<string>)

  datatype Decode = Decoded(record: Record) | Incomplete | Undecodable(reason: string)

  /** `decipher(i, b)` is byte `b` under position `i` of the keystream. */
  datatype Protocol = Protocol(
    inspect: seq<Byte> -> Decode,
    candidate: Record -> bool,
    decipher: (nat, Byte) -> Byte)

  datatype Update = Status(text: string) | Captured(record: Record, sequence: nat)

  datatype Failure = StreamShrank | InvalidLength
      | UnknownPacket(streamOffset: nat, plaintext: seq<Byte>, ciphertext: seq<Byte>)

  const SEQUENCE_SPACE := 0x1_0000_0000_0000_0000

  datatype Protected = Protected(
    cipher: nat, cipherConsumed: nat, streamOffset: nat, plaintext: seq<Byte>, ciphertext: seq<Byte>)

  datatype Outcome = Consumed(protected: Protected, nextSequence: nat, updates: seq<Update>) | Halted(failure: Failure)

  function Start(offset: nat): Protected {
    Protected(0, offset, offset, [], [])
  }

  ghost predicate Aligned(s: Protected) {
    |s.plaintext| == |s.ciphertext| && s.streamOffset + |s.plaintext| == s.cipherConsumed
  }

  function Decrypt(pr: Protocol, position: nat, bytes: seq<Byte>): (r: seq<Byte>)
    ensures |r| == |bytes|
  {
    seq(|bytes|, i requires 0 <= i < |bytes| => pr.decipher(position + i, bytes[i]))
  }

  /** A record of candidate layout is trusted only when what follows looks like a record too. */
  datatype Verdict = Accept(record: Record) | Wait | Reject(failure: Failure)

  function Judge(pr: Protocol, s: Protected): (v: Verdict)
    ensures v.Accept? ==> 0 < |v.record.bytes| <= |s.plaintext|
  {
    if s.plaintext == [] then Wait
    else match pr.inspect(s.plaintext)
      case Decoded(record) =>
        var consumed := |record.bytes|;
        if consumed == 0 || consumed > |s.plaintext| then Reject(InvalidLength)
        else if pr.candidate(record) && |s.plaintext[consumed..]| < 2 then Wait
        else if pr.candidate(record) && pr.inspect(s.plaintext[consumed..]).Undecodable?
        then Reject(UnknownPacket(s.streamOffset, s.plaintext, s.ciphertext))
        else Accept(record)
      case Incomplete => Wait
      case Undecodable(_) => Reject(UnknownPacket(s.streamOffset, s.plaintext, s.ciphertext))
  }

  function Advance(s: Protected, consumed: nat): Protected
    requires consumed <= |s.plaintext| && |s.plaintext| == |s.ciphertext|
  {
    s.(plaintext := s.plaintext[consumed..], ciphertext := s.ciphertext[consumed..],
       streamOffset := s.streamOffset + consumed)
  }

  function Reports(pr: Protocol, record: Record, sequence: nat): seq<Update> {
    seq(|record.audits|, i requires 0 <= i < |record.audits| => Status(record.audits[i]))
    + (if pr.candidate(record) then [Status(record.typeName)] else [])
    + [Captured(record, sequence)]
  }

  function Successor(sequence: nat): nat { (sequence + 1) % SEQUENCE_SPACE }

  /** The loop that peels records off the front of the decrypted buffer. */
  function Split(pr: Protocol, s: Protected, nextSequence: nat): (o: Outcome)
    requires |s.plaintext| == |s.ciphertext|
    ensures o.Consumed? ==> |o.protected.plaintext| == |o.protected.ciphertext|
    decreases |s.plaintext|
  {
    match Judge(pr, s)
    case Wait => Consumed(s, nextSequence, [])
    case Reject(failure) => Halted(failure)
    case Accept(record) =>
      var rest := Split(pr, Advance(s, |record.bytes|), Successor(nextSequence));
      if rest.Halted? then rest
      else rest.(updates := Reports(pr, record, nextSequence) + rest.updates)
  }

  function Receive(pr: Protocol, s: Protected, encrypted: seq<Byte>): Protected {
    Protected(s.cipher + |encrypted|, s.cipherConsumed + |encrypted|, s.streamOffset,
              s.plaintext + Decrypt(pr, s.cipher, encrypted), s.ciphertext + encrypted)
  }

  /** `ProtectedDirection::consume`: takes the whole stream so far and works on the part not yet seen. */
  function ConsumeStream(pr: Protocol, s: Protected, stream: seq<Byte>, nextSequence: nat): Outcome
    requires |s.plaintext| == |s.ciphertext|
  {
    if |stream| < s.cipherConsumed then Halted(StreamShrank)
    else Split(pr, Receive(pr, s, stream[s.cipherConsumed..]), nextSequence)
  }

  /** `ProtectedDirection::finish`: whether the leftover buffer is a legitimate cut at the end of a capture. */
  predicate FinishSucceeds(pr: Protocol, s: Protected) {
    s.plaintext == []
    || match pr.inspect(s.plaintext)
       case Decoded(record) => pr.candidate(record)
       case Incomplete => true
       case Undecodable(_) => false
  }

  /** One outcome continued by another. */
  function After(first: Outcome, second: Outcome): Outcome {
    if first.Halted? then first
    else if second.Halted? then second
    else second.(updates := first.updates + second.updates)
  }

  /** `consume` called once per growth of the stream. */
  function Feed(pr: Protocol, s: Protected, streams: seq<seq<Byte>>, nextSequence: nat): Outcome
    requires |s.plaintext| == |s.ciphertext|
    decreases |streams|
  {
    if streams == [] then Consumed(s, nextSequence, [])
    else
      var o := ConsumeStream(pr, s, streams[0], nextSequence);
      if o.Halted? then o else After(o, Feed(pr, o.protected, streams[1..], o.nextSequence))
  }

  class ProtectedDirection {
    var cipher: nat
    var cipherConsumed: nat
    var streamOffset: nat
    var plaintext: seq<Byte>
    var ciphertext: seq<Byte>

    constructor (offset: nat)
      ensures Value() == Start(offset) && Valid()
    {
      cipher, cipherConsumed, streamOffset, plaintext, ciphertext := 0, offset, offset, [], [];
    }

    function Value(): Protected
      reads this
    {
      Protected(cipher, cipherConsumed, streamOffset, plaintext, ciphertext)
    }

    ghost predicate Valid()
      reads this
    {
      Aligned(Value())
    }

    method Consume(pr: Protocol, stream: seq<Byte>, firstSequence: nat)
      returns (failure: Option<Failure>, nextSequence: nat, updates: seq<Update>)
      requires Valid()
      modifies this
      ensures Valid()
      ensures
        match ConsumeStream(pr, old(Value()), stream, firstSequence)
        case Halted(f) => failure == Some(f)
        case Consumed(s, n, u) => failure == None && Value() == s && nextSequence == n && updates == u
    {
      hide Judge, Decrypt, Reports, Successor;
      updates, nextSequence, failure := [], firstSequence, None;
      if |stream| < cipherConsumed {
        return Some(StreamShrank), nextSequence, updates;
      }
      var encrypted := stream[cipherConsumed..];
      cipherConsumed := |stream|;
      ciphertext := ciphertext + encrypted;
      plaintext := plaintext + Decrypt(pr, cipher, encrypted);
      cipher := cipher + |encrypted|;
      ghost var goal := Split(pr, Value(), firstSequence);
      while plaintext != []
        invariant Valid()
        invariant Continues(goal, Split(pr, Value(), nextSequence), updates)
        decreases |plaintext|
      {
        var verdict := Judge(pr, Value());
        match verdict {
          case Wait =>
            assert updates + [] == updates;
            return;
          case Reject(f) =>
            return Some(f), nextSequence, updates;
          case Accept(record) =>
            var consumed := |record.bytes|;
            ContinuesStep(goal, pr, Value(), nextSequence, updates, record);
            updates := updates + Reports(pr, record, nextSequence);
            nextSequence := Successor(nextSequence);
            plaintext := plaintext[consumed..];
            ciphertext := ciphertext[consumed..];
            streamOffset := streamOffset + consumed;
        }
      }
      EmptyWaits(pr, Value());
      assert updates + [] == updates;
    }
  }

  lemma EmptyWaits(pr: Protocol, s: Protected)
    requires s.plaintext == []
    ensures Judge(pr, s).Wait?
  {
  }

  /** `goal` is what remains to be done, prefixed by the updates already reported. */
  ghost predicate Continues(goal: Outcome, rest: Outcome, updates: seq<Update>) {
    goal == if rest.Halted? then rest else rest.(updates := updates + rest.updates)
  }

  lemma ContinuesStep(goal: Outcome, pr: Protocol, s: Protected, n: nat, updates: seq<Update>, record: Record)
    requires |s.plaintext| == |s.ciphertext| && Judge(pr, s) == Accept(record)
    requires Continues(goal, Split(pr, s, n), updates)
    ensures Continues(goal, Split(pr, Advance(s, |record.bytes|), Successor(n)), updates + Reports(pr, record, n))
  {
    var rest := Split(pr, Advance(s, |record.bytes|), Successor(n));
    if rest.Consumed? {
      assert updates + (Reports(pr, record, n) + rest.updates) == updates + Reports(pr, record, n) + rest.updates;
    }
  }

  // ---- properties ----

  lemma {:induction false} SplitAligned(pr: Protocol, s: Protected, n: nat)
    requires Aligned(s)
    ensures Split(pr, s, n).Consumed? ==> Aligned(Split(pr, s, n).protected)
    ensures Split(pr, s, n).Consumed? ==> Judge(pr, Split(pr, s, n).protected).Wait?
    decreases |s.plaintext|
  {
    var v := Judge(pr, s);
    if v.Accept? {
      SplitAligned(pr, Advance(s, |v.record.bytes|), Successor(n));
    }
  }

  /** After any number of successful consumes the offsets agree, and ending the capture there is never an
      error: the leftover is empty, an unfinished record, or a candidate awaiting corroboration. */
  lemma ConsumeAligned(pr: Protocol, s: Protected, stream: seq<Byte>, n: nat)
    requires Aligned(s)
    ensures
      var o := ConsumeStream(pr, s, stream, n);
      o.Consumed? ==> Aligned(o.protected) && o.protected.cipherConsumed == |stream| && FinishSucceeds(pr, o.protected)
  {
    if |stream| >= s.cipherConsumed {
      var r := Receive(pr, s, stream[s.cipherConsumed..]);
      SplitAligned(pr, r, n);
      SplitKeepsPosition(pr, r, n);
    }
  }

  lemma {:induction false} SplitKeepsPosition(pr: Protocol, s: Protected, n: nat)
    requires |s.plaintext| == |s.ciphertext|
    ensures Split(pr, s, n).Consumed? ==>
              var t := Split(pr, s, n).protected; t.cipher == s.cipher && t.cipherConsumed == s.cipherConsumed
    decreases |s.plaintext|
  {
    var v := Judge(pr, s);
    if v.Accept? {
      SplitKeepsPosition(pr, Advance(s, |v.record.bytes|), Successor(n));
    }
  }

  /** Hypothesis on the decoder: a record, once recognised, is a prefix of the buffer and is recognised in every
      longer buffer; a hard error persists too. Only "incomplete" may change as bytes arrive. */
  ghost predicate Persists(pr: Protocol, p: seq<Byte>, more: seq<Byte>) {
    && (pr.inspect(p).Decoded? ==> pr.inspect(p).record.bytes <= p)
    && (!pr.inspect(p).Incomplete? ==> pr.inspect(p + more) == pr.inspect(p))
  }

  ghost predicate PrefixStable(pr: Protocol) {
    forall p, more :: Persists(pr, p, more)
  }

  ghost function Grow(s: Protected, more: seq<Byte>, cipherMore: seq<Byte>): Protected {
    Protected(s.cipher + |more|, s.cipherConsumed + |more|, s.streamOffset, s.plaintext + more,
              s.ciphertext + cipherMore)
  }

  /** Both halt, or both yield the same updates and the same leftover. */
  ghost predicate Agrees(a: Outcome, b: Outcome) {
    (a.Halted? && b.Halted?) || a == b
  }

  /** Splitting a buffer and then the leftover with more bytes is splitting the longer buffer. */
  lemma {:induction false} SplitExtends(pr: Protocol, s: Protected, n: nat, more: seq<Byte>, cipherMore: seq<Byte>)
    requires PrefixStable(pr) && |s.plaintext| == |s.ciphertext| && |more| == |cipherMore|
    ensures
      var first := Split(pr, s, n);
      var whole := Split(pr, Grow(s, more, cipherMore), n);
      if first.Halted? then whole.Halted?
      else Agrees(whole, After(first, Split(pr, Grow(first.protected, more, cipherMore), first.nextSequence)))
    decreases |s.plaintext|
  {
    var big := Grow(s, more, cipherMore);
    var v := Judge(pr, s);
    assert Persists(pr, s.plaintext, more);
    match v {
      case Wait =>
        EmptyPrefix(Split(pr, big, n));
      case Reject(_) =>
        if pr.inspect(s.plaintext).Decoded? {
          RestPersists(pr, s, more, |pr.inspect(s.plaintext).record.bytes|);
        }
      case Accept(record) =>
        var consumed := |record.bytes|;
        var small := Advance(s, consumed);
        RestPersists(pr, s, more, consumed);
        SplitExtends(pr, small, Successor(n), more, cipherMore);
        if Judge(pr, big).Accept? {
          assert Advance(big, consumed) == Grow(small, more, cipherMore) by {
            assert big.ciphertext[consumed..] == s.ciphertext[consumed..] + cipherMore;
          }
          PrefixedAfter(Reports(pr, record, n), Split(pr, small, Successor(n)),
                        Split(pr, Grow(small, more, cipherMore), Successor(n)), pr, more, cipherMore);
        } else {
          // the candidate is refused in the longer buffer: its follower turned out undecodable
          assert Judge(pr, small).Wait?;
          assert Split(pr, small, Successor(n)) == Consumed(small, Successor(n), []);
        }
    }
  }

  lemma EmptyPrefix(o: Outcome)
    ensures o.Consumed? ==> o.(updates := [] + o.updates) == o
  {
  }

  lemma RestPersists(pr: Protocol, s: Protected, more: seq<Byte>, consumed: nat)
    requires PrefixStable(pr) && consumed <= |s.plaintext|
    ensures (s.plaintext + more)[consumed..] == s.plaintext[consumed..] + more
    ensures Persists(pr, s.plaintext[consumed..], more)
  {
  }

  lemma PrefixedAfter(reports: seq<Update>, first: Outcome, whole: Outcome, pr: Protocol, more: seq<Byte>,
                      cipherMore: seq<Byte>)
    requires first.Consumed? ==> |first.protected.plaintext| == |first.protected.ciphertext| && |more| == |cipherMore|
    requires
      if first.Halted? then whole.Halted?
      else Agrees(whole, After(first, Split(pr, Grow(first.protected, more, cipherMore), first.nextSequence)))
    ensures
      first.Consumed? && whole.Consumed? ==>
        var rest := Split(pr, Grow(first.protected, more, cipherMore), first.nextSequence);
        whole.(updates := reports + whole.updates) == After(first.(updates := reports + first.updates), rest)
  {
  }

  ghost predicate Growing(streams: seq<seq<Byte>>) {
    forall i, j :: 0 <= i < j < |streams| ==> streams[i] <= streams[j]
  }

  lemma ConsumeTwice(pr: Protocol, s: Protected, a: seq<Byte>, b: seq<Byte>, n: nat)
    requires PrefixStable(pr) && |s.plaintext| == |s.ciphertext| && s.cipherConsumed <= |a| && a <= b
    ensures
      var first := ConsumeStream(pr, s, a, n);
      var whole := ConsumeStream(pr, s, b, n);
      if first.Halted? then whole.Halted?
      else Agrees(whole, After(first, ConsumeStream(pr, first.protected, b, first.nextSequence)))
  {
    hide Split, Judge, PrefixStable;
    var r := Receive(pr, s, a[s.cipherConsumed..]);
    var more := Decrypt(pr, r.cipher, b[|a|..]);
    ReceiveInTwoParts(pr, s, a, b);
    SplitExtends(pr, r, n, more, b[|a|..]);
    SplitKeepsPosition(pr, r, n);
  }

  lemma ReceiveInTwoParts(pr: Protocol, s: Protected, a: seq<Byte>, b: seq<Byte>)
    requires s.cipherConsumed <= |a| && a <= b
    ensures
      var r := Receive(pr, s, a[s.cipherConsumed..]);
      Receive(pr, s, b[s.cipherConsumed..]) == Grow(r, Decrypt(pr, r.cipher, b[|a|..]), b[|a|..])
  {
  }

  lemma AgreesAfter(first: Outcome, a: Outcome, b: Outcome, c: Outcome)
    requires first.Consumed? && Agrees(a, b) && Agrees(c, After(first, b))
    ensures Agrees(After(first, a), c)
  {
  }

  /** Chunk independence: however a growing stream is cut into calls, the splitter halts if and only if one
      call on the final stream halts, and otherwise reports the same updates, numbers them alike and keeps
      the same leftover. */
  lemma {:induction false} ChunkIndependent(pr: Protocol, s: Protected, streams: seq<seq<Byte>>, n: nat)
    requires PrefixStable(pr) && |s.plaintext| == |s.ciphertext|
    requires streams != [] && Growing(streams) && s.cipherConsumed <= |streams[0]|
    ensures Agrees(Feed(pr, s, streams, n), ConsumeStream(pr, s, streams[|streams| - 1], n))
    decreases |streams|
  {
    hide ConsumeStream, PrefixStable;
    var o := ConsumeStream(pr, s, streams[0], n);
    if |streams| == 1 {
      ConsumeReaches(pr, s, streams[0], n);
      if o.Consumed? {
        assert Feed(pr, o.protected, streams[1..], o.nextSequence) == Consumed(o.protected, o.nextSequence, []);
        assert o.updates + [] == o.updates;
      }
    } else {
      var last := streams[|streams| - 1];
      assert streams[0] <= last;
      ConsumeTwice(pr, s, streams[0], last, n);
      if o.Consumed? {
        ConsumeReaches(pr, s, streams[0], n);
        var rest := streams[1..];
        assert rest[|rest| - 1] == last && rest[0] == streams[1] && streams[0] <= streams[1];
        ChunkIndependent(pr, o.protected, rest, o.nextSequence);
        AgreesAfter(o, Feed(pr, o.protected, rest, o.nextSequence),
                    ConsumeStream(pr, o.protected, last, o.nextSequence), ConsumeStream(pr, s, last, n));
      }
    }
  }

  lemma ConsumeReaches(pr: Protocol, s: Protected, stream: seq<Byte>, n: nat)
    requires |s.plaintext| == |s.ciphertext| && s.cipherConsumed <= |stream|
    ensures
      var o := ConsumeStream(pr, s, stream, n);
      o.Consumed? ==> o.protected.cipherConsumed == |stream| && |o.protected.plaintext| == |o.protected.ciphertext|
  {
    SplitKeepsPosition(pr, Receive(pr, s, stream[s.cipherConsumed..]), n);
  }

  /** The bytes of the records reported so far. */
  ghost function Emitted(updates: seq<Update>): seq<Byte> {
    if updates == [] then []
    else (if updates[0].Captured? then updates[0].record.bytes else []) + Emitted(updates[1..])
  }

  lemma {:induction false} EmittedAppend(a: seq<Update>, b: seq<Update>)
    ensures Emitted(a + b) == Emitted(a) + Emitted(b)
    decreases |a|
  {
    if a == [] {
      assert a + b == b;
    } else {
      EmittedAppend(a[1..], b);
      assert (a + b)[1..] == a[1..] + b;
    }
  }

  lemma {:induction false} EmittedStatuses(a: seq<Update>)
    requires forall i :: 0 <= i < |a| ==> a[i].Status?
    ensures Emitted(a) == []
    decreases |a|
  {
    if a != [] {
      EmittedStatuses(a[1..]);
    }
  }

  lemma EmittedReports(pr: Protocol, record: Record, n: nat)
    ensures Emitted(Reports(pr, record, n)) == record.bytes
  {
    var reports := Reports(pr, record, n);
    var statuses := reports[..|reports| - 1];
    assert reports == statuses + [Captured(record, n)];
    EmittedStatuses(statuses);
    EmittedAppend(statuses, [Captured(record, n)]);
  }

  lemma {:induction false} SplitTiles(pr: Protocol, s: Protected, n: nat)
    requires PrefixStable(pr) && |s.plaintext| == |s.ciphertext|
    ensures
      var o := Split(pr, s, n);
      o.Consumed? ==>
        && s.plaintext == Emitted(o.updates) + o.protected.plaintext
        && o.protected.streamOffset == s.streamOffset + |Emitted(o.updates)|
        && o.protected.ciphertext == s.ciphertext[|Emitted(o.updates)|..]
    decreases |s.plaintext|
  {
    var v := Judge(pr, s);
    if v.Accept? {
      var bytes := v.record.bytes;
      var next := Advance(s, |bytes|);
      var rest := Split(pr, next, Successor(n));
      SplitTiles(pr, next, Successor(n));
      if rest.Consumed? {
        assert Persists(pr, s.plaintext, []);
        EmittedReports(pr, v.record, n);
        EmittedAppend(Reports(pr, v.record, n), rest.updates);
        TilesStep(s.plaintext, s.ciphertext, bytes, Emitted(rest.updates), rest.protected.plaintext);
      }
    }
  }

  lemma TilesStep(plaintext: seq<Byte>, ciphertext: seq<Byte>, bytes: seq<Byte>, emitted: seq<Byte>, left: seq<Byte>)
    requires bytes <= plaintext && |plaintext| == |ciphertext| && plaintext[|bytes|..] == emitted + left
    ensures plaintext == bytes + emitted + left
    ensures ciphertext[|bytes|..][|emitted|..] == ciphertext[|bytes + emitted|..]
  {
  }

  /** Tiling: however the stream was cut, the records reported, laid end to end and followed by the leftover,
      are the decryption of everything after the offset where protection began. */
  lemma RecordsTileTheStream(pr: Protocol, offset: nat, streams: seq<seq<Byte>>, n: nat)
    requires PrefixStable(pr) && streams != [] && Growing(streams) && offset <= |streams[0]|
    ensures
      var o := Feed(pr, Start(offset), streams, n);
      var stream := streams[|streams| - 1];
      o.Consumed? ==>
        && offset <= |stream|
        && Emitted(o.updates) + o.protected.plaintext == Decrypt(pr, 0, stream[offset..])
        && o.protected.streamOffset == offset + |Emitted(o.updates)| <= |stream|
        && o.protected.ciphertext == stream[o.protected.streamOffset..]
  {
    hide Split;
    var stream := streams[|streams| - 1];
    assert streams[0] <= stream;
    ChunkIndependent(pr, Start(offset), streams, n);
    var r := Receive(pr, Start(offset), stream[offset..]);
    assert r.plaintext == Decrypt(pr, 0, stream[offset..]);
    assert r.ciphertext == stream[offset..];
    SplitTiles(pr, r, n);
    var o := Split(pr, r, n);
    if o.Consumed? {
      var k := |Emitted(o.updates)|;
      assert k <= |r.plaintext|;
      assert stream[offset..][k..] == stream[offset + k..];
    }
  }
}
