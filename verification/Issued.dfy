/** Events as the tap issues them: some kinds in order, under growing numbers. */
module Issued {
  import opened Wire
  import opened Store

  ghost predicate Kinds(events: seq<Event>, kinds: seq<EventKind>) {
    |events| == |kinds| && forall i :: 0 <= i < |events| ==> events[i].kind == kinds[i]
  }

  /** Events numbered from `n` to below `m`. */
  ghost predicate Within(events: seq<Event>, n: nat, m: nat) { forall e :: e in events ==> n <= e.number < m }

  /** The events carry these kinds, in order, with numbers from `n` to below `m`. */
  ghost predicate Carries(events: seq<Event>, kinds: seq<EventKind>, n: nat, m: nat) {
    Kinds(events, kinds) && Increasing(events) && n <= m && Within(events, n, m)
  }

  /** The number the next event will have at least. */
  function NumberAfter(events: seq<Event>, n: nat): nat {
    if events == [] then n else events[|events| - 1].number + 1
  }

  lemma CarriesOne(t: Tables, events: seq<Event>, kind: EventKind, n: nat, m: nat, receivedAt: nat) returns (e: Event)
    requires t.session.Some? && Carries(events, [kind], n, m)
    ensures e.kind == kind && n <= e.number < m && ApplyAll(t, events, receivedAt) == Apply(t, e, receivedAt)
  {
    hide Apply;
    e := events[0];
    assert e in events && events[1..] == [];
    assert ApplyAll(Apply(t, e, receivedAt), [], receivedAt) == Apply(t, e, receivedAt);
  }

  lemma CarriesNone(t: Tables, events: seq<Event>, n: nat, m: nat, receivedAt: nat)
    requires t.session.Some? && Carries(events, [], n, m)
    ensures events == [] && ApplyAll(t, events, receivedAt) == t
  {
  }

  lemma CarriesUpTo(events: seq<Event>, kinds: seq<EventKind>, n: nat, m: nat)
    requires Carries(events, kinds, n, m)
    ensures n <= m && |events| == |kinds|
  {
  }

  lemma KindsParts(events: seq<Event>, a: seq<EventKind>, b: seq<EventKind>)
    requires Kinds(events, a + b)
    ensures |events| == |a| + |b| && Kinds(events[..|a|], a) && Kinds(events[|a|..], b)
  {
    assert forall i :: 0 <= i < |a| ==> events[i].kind == (a + b)[i];
    forall i | 0 <= i < |b| ensures events[|a|..][i].kind == b[i] { assert events[|a| + i].kind == (a + b)[|a| + i]; }
  }

  lemma WithinSlice(events: seq<Event>, lo: nat, hi: nat, n: nat, m: nat)
    requires lo <= hi <= |events| && forall i :: lo <= i < hi ==> n <= events[i].number < m
    ensures Within(events[lo..hi], n, m)
  {
    forall e | e in events[lo..hi] ensures n <= e.number < m {
      var i :| 0 <= i < hi - lo && events[lo..hi][i] == e;
      assert e == events[lo + i];
    }
  }

  lemma NumbersParts(events: seq<Event>, k: nat, n: nat, m: nat)
    requires Increasing(events) && Within(events, n, m) && k <= |events| && n <= m
    ensures
      var middle := NumberAfter(events[..k], n);
      && n <= middle <= m && Increasing(events[..k]) && Increasing(events[k..])
      && Within(events[..k], n, middle) && Within(events[k..], middle, m)
  {
    var middle := NumberAfter(events[..k], n);
    assert forall i :: 0 <= i < |events| ==> events[i] in events;
    assert k > 0 ==> events[..k][k - 1] == events[k - 1] && middle == events[k - 1].number + 1;
    WithinSlice(events, 0, k, n, middle);
    WithinSlice(events, k, |events|, middle, m);
    assert events[..k] == events[0..k] && events[k..] == events[k..|events|];
  }

  lemma CarriesParts(events: seq<Event>, a: seq<EventKind>, b: seq<EventKind>, n: nat, m: nat)
    requires Carries(events, a + b, n, m)
    ensures |events| == |a| + |b|
    ensures
      var k := NumberAfter(events[..|a|], n);
      Carries(events[..|a|], a, n, k) && Carries(events[|a|..], b, k, m)
  {
    hide Kinds, Increasing;
    KindsParts(events, a, b);
    NumbersParts(events, |a|, n, m);
  }
}
