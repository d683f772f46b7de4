/** The edit script that turns the friend list a legacy client last saw into the current one
    (gateway/src/server.rs, `friend_operations`). */
module Friends {
  import opened Common
  import Bncs

  type FriendEntry = Bncs.FriendEntry

  type Name = Bncs.Bytes

  /** Positions travel as one byte. */
  datatype Operation =
    | Add(friend: FriendEntry)
    | Remove(index: Byte)
    | Move(source: Byte, target: Byte)
    | Update(index: Byte, friend: FriendEntry)

  function Without(list: seq<FriendEntry>, index: nat): seq<FriendEntry>
    requires index < |list|
  {
    list[..index] + list[index + 1..]
  }

  function Inserted(list: seq<FriendEntry>, index: nat, friend: FriendEntry): seq<FriendEntry>
    requires index <= |list|
  {
    list[..index] + [friend] + list[index..]
  }

  function Moved(list: seq<FriendEntry>, source: nat, target: nat): seq<FriendEntry>
    requires source < |list| && target < |list|
  {
    Inserted(Without(list, source), target, list[source])
  }

  /** What the client does with one operation; an index out of range is an error. */
  function Perform(list: seq<FriendEntry>, op: Operation): Option<seq<FriendEntry>> {
    match op
    case Add(friend) => Some(list + [friend])
    case Remove(index) => if index < |list| then Some(Without(list, index)) else None
    case Move(source, target) => if source < |list| && target < |list| then Some(Moved(list, source, target)) else None
    case Update(index, friend) => if index < |list| then Some(list[index := friend]) else None
  }

  function Replay(list: seq<FriendEntry>, ops: seq<Operation>): Option<seq<FriendEntry>> {
    if ops == [] then Some(list)
    else
      var before := Replay(list, ops[..|ops| - 1]);
      if before.None? then None else Perform(before.value, ops[|ops| - 1])
  }

  lemma ReplayNone(list: seq<FriendEntry>)
    ensures Replay(list, []) == Some(list)
  {
  }

  lemma ReplayOne(list: seq<FriendEntry>, ops: seq<Operation>, op: Operation)
    ensures Replay(list, ops + [op]) == if Replay(list, ops).None? then None else Perform(Replay(list, ops).value, op)
  {
  }

  ghost predicate Named(list: seq<FriendEntry>, name: Name) {
    exists i :: 0 <= i < |list| && list[i].name == name
  }

  ghost predicate NamesDistinct(list: seq<FriendEntry>) {
    forall i, j :: 0 <= i < j < |list| ==> list[i].name != list[j].name
  }

  /** The first position holding the name. */
  function PositionOf(list: seq<FriendEntry>, name: Name): (p: Option<nat>)
    ensures p.Some? ==> p.value < |list| && list[p.value].name == name
    ensures p.None? <==> !Named(list, name)
  {
    if list == [] then None
    else
      var last := |list| - 1;
      var p := PositionOf(list[..last], name);
      assert Named(list, name) <==> Named(list[..last], name) || list[last].name == name by {
        if Named(list[..last], name) {
          var i :| 0 <= i < last && list[..last][i].name == name;
          assert list[i].name == name;
        }
        if Named(list, name) && list[last].name != name {
          var i :| 0 <= i < |list| && list[i].name == name;
          assert list[..last][i].name == name;
        }
      }
      if p.Some? then p else if list[last].name == name then Some(last) else None
  }

  /** The name belongs at or after place `t`. */
  ghost predicate Wanted(current: seq<FriendEntry>, t: nat, name: Name) {
    exists j :: t <= j < |current| && current[j].name == name
  }

  /** The first `t` places are settled; what follows is still wanted, each name once. */
  ghost predicate SettledTo(working: seq<FriendEntry>, current: seq<FriendEntry>, t: nat) {
    && t <= |working| && t <= |current|
    && working[..t] == current[..t]
    && NamesDistinct(working)
    && forall i :: t <= i < |working| ==> Wanted(current, t, working[i].name)
  }

  /** Old friends that are still friends are in the working list. */
  ghost predicate KeepsOld(working: seq<FriendEntry>, before: seq<FriendEntry>, current: seq<FriendEntry>) {
    forall i :: 0 <= i < |before| && Named(current, before[i].name) ==> Named(working, before[i].name)
  }

  /** The friend is where it belongs: at most its entry changes. */
  lemma SettleInPlace(working: seq<FriendEntry>, current: seq<FriendEntry>, t: nat)
    requires SettledTo(working, current, t) && t < |current| && t < |working| && working[t].name == current[t].name
    ensures SettledTo(working[t := current[t]], current, t + 1)
  {
  }

  /** Where the friend found at `i` after a move stood before it. */
  function Origin(source: nat, target: nat, i: nat): nat
    requires target <= source
  {
    if i < target || i > source then i else if i == target then source else i - 1
  }

  lemma MovedAt(list: seq<FriendEntry>, source: nat, target: nat, i: nat)
    requires target <= source < |list| && i < |list|
    ensures |Moved(list, source, target)| == |list|
    ensures Origin(source, target, i) < |list| && Moved(list, source, target)[i] == list[Origin(source, target, i)]
  {
  }

  lemma MovedDistinct(list: seq<FriendEntry>, source: nat, target: nat)
    requires target <= source < |list| && NamesDistinct(list)
    ensures NamesDistinct(Moved(list, source, target))
  {
    hide Moved;
    var after := Moved(list, source, target);
    MovedAt(list, source, target, 0);
    forall i, j | 0 <= i < j < |after| ensures after[i].name != after[j].name {
      MovedAt(list, source, target, i);
      MovedAt(list, source, target, j);
    }
  }

  lemma SettleByMove(working: seq<FriendEntry>, current: seq<FriendEntry>, t: nat, source: nat)
    requires SettledTo(working, current, t) && t < |current| && t <= source < |working|
        && working[source].name == current[t].name
    ensures
      var after := Moved(working, source, t);
      t < |after| && after[t].name == current[t].name && SettledTo(after, current, t)
  {
    hide Moved, Wanted, NamesDistinct;
    var after := Moved(working, source, t);
    MovedAt(working, source, t, t);
    MovedDistinct(working, source, t);
    forall i | 0 <= i < t ensures after[i] == working[i] { MovedAt(working, source, t, i); }
    forall i | t <= i < |after| ensures Wanted(current, t, after[i].name) { MovedAt(working, source, t, i); }
    assert after[..t] == working[..t];
  }

  lemma SettleByAdd(working: seq<FriendEntry>, current: seq<FriendEntry>, t: nat)
    requires SettledTo(working, current, t) && t < |current| && !Named(working, current[t].name)
    ensures SettledTo(working + [current[t]], current, t)
  {
  }

  /** Once every place is settled the lists are equal. */
  lemma SettledIsEqual(working: seq<FriendEntry>, current: seq<FriendEntry>)
    requires SettledTo(working, current, |current|)
    ensures working == current
  {
    var i := |current|;
    assert i < |working| ==> Wanted(current, i, working[i].name);
    assert working[..|current|] == working;
  }

  lemma MovedNames(list: seq<FriendEntry>, source: nat, target: nat)
    requires target <= source < |list|
    ensures forall n :: Named(list, n) ==> Named(Moved(list, source, target), n)
  {
    var after := Moved(list, source, target);
    forall n | Named(list, n) ensures Named(after, n) {
      var i :| 0 <= i < |list| && list[i].name == n;
      var k := if i < target || i > source then i else if i == source then target else i + 1;
      MovedAt(list, source, target, k);
      assert after[k].name == n;
    }
  }

  lemma UpdatedNames(list: seq<FriendEntry>, index: nat, friend: FriendEntry)
    requires index < |list| && list[index].name == friend.name
    ensures forall n :: Named(list, n) ==> Named(list[index := friend], n)
  {
    forall n | Named(list, n) ensures Named(list[index := friend], n) {
      var i :| 0 <= i < |list| && list[i].name == n;
      assert list[index := friend][i].name == n;
    }
  }

  lemma NamedMore(list: seq<FriendEntry>, friend: FriendEntry)
    ensures forall n :: Named(list, n) ==> Named(list + [friend], n)
  {
    forall n | Named(list, n) ensures Named(list + [friend], n) {
      var i :| 0 <= i < |list| && list[i].name == n;
      assert (list + [friend])[i].name == n;
    }
  }

  method UpdateIfNeeded(working: seq<FriendEntry>, ops: seq<Operation>, index: nat, desired: FriendEntry,
                        ghost before: seq<FriendEntry>)
    returns (list: seq<FriendEntry>, more: seq<Operation>)
    requires index < |working| && index < 256 && Replay(before, ops) == Some(working)
    ensures list == working[index := desired] && Replay(before, more) == Some(list)
    ensures more == if working[index] == desired then ops else ops + [Update(index, desired)]
  {
    list, more := working, ops;
    if working[index] != desired {
      ReplayOne(before, ops, Update(index, desired));
      more := ops + [Update(index, desired)];
      list := working[index := desired];
    }
  }

  /** An operation never re-adds an old friend. */
  ghost predicate Frugal(ops: seq<Operation>, before: seq<FriendEntry>) {
    forall k :: 0 <= k < |ops| && ops[k].Add? ==> !Named(before, ops[k].friend.name)
  }

  /** First loop: friends that are gone are removed, from the back. */
  method RemoveGone(before: seq<FriendEntry>, current: seq<FriendEntry>)
      returns (working: seq<FriendEntry>, ops: seq<Operation>)
    requires |before| <= 256 && NamesDistinct(before)
    ensures Replay(before, ops) == Some(working) && NamesDistinct(working)
    ensures forall i :: 0 <= i < |working| ==> Named(current, working[i].name)
    ensures KeepsOld(working, before, current)
    ensures forall k :: 0 <= k < |ops| ==> ops[k].Remove?
    ensures before == current ==> ops == [] && working == before
  {
    hide Replay, KeepsOld, NamesDistinct, Named;
    working, ops := before, [];
    ReplayNone(before);
    OldIsKept(before, current);
    for index := |working| downto 0
      invariant index <= |working| <= |before| && working[..index] == before[..index]
      invariant Replay(before, ops) == Some(working) && NamesDistinct(working)
      invariant forall i :: index <= i < |working| ==> Named(current, working[i].name)
      invariant KeepsOld(working, before, current)
      invariant forall k :: 0 <= k < |ops| ==> ops[k].Remove?
      invariant before == current ==> ops == [] && working == before
    {
      PrefixShrinks(working, before, index);
      var gone := PositionOf(current, working[index].name).None?;
      if before == current {
        StillNamed(working, index);
      }
      if gone {
        ReplayOne(before, ops, Remove(index));
        ops := ops + [Remove(index)];
        RemovedKeeps(working, before, current, index);
        working := Without(working, index);
      }
    }
  }

  lemma OldIsKept(before: seq<FriendEntry>, current: seq<FriendEntry>)
    ensures KeepsOld(before, before, current)
  {
  }

  lemma StillNamed(list: seq<FriendEntry>, i: nat)
    requires i < |list|
    ensures Named(list, list[i].name)
  {
  }

  lemma PrefixShrinks(working: seq<FriendEntry>, before: seq<FriendEntry>, index: nat)
    requires index < |working| && index < |before| && working[..index + 1] == before[..index + 1]
    ensures working[..index] == before[..index]
  {
  }

  lemma RemovedKeeps(working: seq<FriendEntry>, before: seq<FriendEntry>, current: seq<FriendEntry>, index: nat)
    requires index < |working| && KeepsOld(working, before, current) && NamesDistinct(working)
    requires !Named(current, working[index].name)
    ensures
      var after := Without(working, index);
      && KeepsOld(after, before, current) && NamesDistinct(after)
      && after[..index] == working[..index]
      && forall i :: index <= i < |after| ==> after[i] == working[i + 1]
  {
  }

  /** The script: replayed by the client on the list it has, it gives exactly the current list; no index is out
      of range on the way; no old friend is added again; and it is empty exactly when there is nothing to do. */
  method FriendOperations(before: seq<FriendEntry>, current: seq<FriendEntry>) returns (ops: seq<Operation>)
    requires |before| <= 256 && |current| <= 256 && NamesDistinct(before) && NamesDistinct(current)
    ensures Replay(before, ops) == Some(current)
    ensures ops == [] <==> before == current
    ensures Frugal(ops, before)
  {
    hide Replay, Moved;
    var working;
    working, ops := RemoveGone(before, current);
    AllWanted(working, current);
    for t := 0 to |current|
      invariant SettledTo(working, current, t) && Replay(before, ops) == Some(working)
      invariant KeepsOld(working, before, current) && Frugal(ops, before)
      invariant before == current ==> ops == [] && working == before
    {
      var desired := current[t];
      if t < |working| && working[t].name == desired.name {
        SettleInPlace(working, current, t);
        UpdatedNames(working, t, desired);
        working, ops := UpdateIfNeeded(working, ops, t, desired, before);
      } else {
        var found := PositionOf(working, desired.name);
        if found.Some? {
          NotYetPlaced(working, current, t, found.value);
          working, ops := MoveInto(working, ops, found.value, t, before, current);
          SettleInPlace(working, current, t);
          UpdatedNames(working, t, desired);
          working, ops := UpdateIfNeeded(working, ops, t, desired, before);
        } else {
          SettleByAdd(working, current, t);
          AddIsFrugal(working, before, current, t, ops);
          NamedMore(working, desired);
          ReplayOne(before, ops, Add(desired));
          ops := ops + [Add(desired)];
          working := working + [desired];
          var added := |working| - 1;
          if added != t {
            working, ops := MoveInto(working, ops, added, t, before, current);
          }
          assert working[t := desired] == working;
          SettleInPlace(working, current, t);
        }
      }
    }
    SettledIsEqual(working, current);
    ReplayNone(before);
  }

  /** Moves an entry forward to the place being settled. */
  method MoveInto(working: seq<FriendEntry>, ops: seq<Operation>, source: nat, t: nat, ghost before: seq<FriendEntry>,
                  ghost current: seq<FriendEntry>)
    returns (list: seq<FriendEntry>, more: seq<Operation>)
    requires |current| <= 256 && SettledTo(working, current, t) && t < |current| && t <= source < |working|
    requires working[source].name == current[t].name
    requires Replay(before, ops) == Some(working) && KeepsOld(working, before, current) && Frugal(ops, before)
    ensures Replay(before, more) == Some(list) && KeepsOld(list, before, current) && Frugal(more, before) && more != []
    ensures SettledTo(list, current, t) && t < |list| && list[t] == working[source]
  {
    hide Replay, Moved;
    SmallEnough(working, current, t, source);
    SettleByMove(working, current, t, source);
    MovedNames(working, source, t);
    MovedAt(working, source, t, t);
    ReplayOne(before, ops, Move(source, t));
    more := ops + [Move(source, t)];
    list := Moved(working, source, t);
  }

  lemma AllWanted(working: seq<FriendEntry>, current: seq<FriendEntry>)
    requires NamesDistinct(working) && forall i :: 0 <= i < |working| ==> Named(current, working[i].name)
    ensures SettledTo(working, current, 0)
  {
  }

  lemma NotYetPlaced(working: seq<FriendEntry>, current: seq<FriendEntry>, t: nat, source: nat)
    requires SettledTo(working, current, t) && NamesDistinct(current) && t < |current| && source < |working|
    requires working[source].name == current[t].name
    ensures source >= t
  {
  }

  lemma AddIsFrugal(working: seq<FriendEntry>, before: seq<FriendEntry>, current: seq<FriendEntry>, t: nat,
                    ops: seq<Operation>)
    requires KeepsOld(working, before, current) && t < |current| && !Named(working, current[t].name)
        && Frugal(ops, before)
    ensures Frugal(ops + [Add(current[t])], before)
  {
  }

  /** The working list never outgrows the current one by names, so every position fits a byte. */
  lemma SmallEnough(working: seq<FriendEntry>, current: seq<FriendEntry>, t: nat, source: nat)
    requires SettledTo(working, current, t) && |current| <= 256 && source < |working|
    ensures source < 256
  {
    NamesCount(working);
    NamesCount(current);
    forall n | n in Names(working) ensures n in Names(current) {
      var i :| 0 <= i < |working| && working[i].name == n;
      if i < t {
        assert working[i] == working[..t][i] && current[i] == current[..t][i];
      }
    }
    SubsetIsSmaller(Names(working), Names(current));
  }

  ghost function Names(list: seq<FriendEntry>): set<Bncs.Bytes> {
    set i | 0 <= i < |list| :: list[i].name
  }

  lemma {:induction false} NamesCount(list: seq<FriendEntry>)
    ensures |Names(list)| <= |list|
    ensures NamesDistinct(list) ==> |Names(list)| == |list|
  {
    if list != [] {
      var last := |list| - 1;
      NamesCount(list[..last]);
      assert forall i :: 0 <= i < last ==> list[..last][i] == list[i];
      assert Names(list) == Names(list[..last]) + {list[last].name};
    }
  }

  lemma SubsetIsSmaller(a: set<Bncs.Bytes>, b: set<Bncs.Bytes>)
    requires a <= b
    ensures |a| <= |b|
  {
    assert b == a + (b - a);
  }
}
