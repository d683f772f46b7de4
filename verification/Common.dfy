/** Small vocabulary shared by every component. */
module Common {

  datatype Option<+T> = None | Some(value: T)

  type Byte = b: int | 0 <= b < 256

  function Min(a: nat, b: nat): nat { if a <= b then a else b }

  ghost function Any<T>(s: set<T>): (x: T)
    requires s != {}
    ensures x in s
  {
    var x :| x in s;
    x
  }

  lemma {:induction false} LeastExists(s: set<int>)
    requires s != {}
    ensures exists m :: m in s && forall k :: k in s ==> m <= k
  {
    var x := Any(s);
    var rest := s - {x};
    if rest == {} {
      assert forall k :: k in s ==> k == x by {
        forall k | k in s ensures k == x { assert k !in rest; }
      }
    } else {
      LeastExists(rest);
      var m :| m in rest && forall k :: k in rest ==> m <= k;
      var least := if m <= x then m else x;
      forall k | k in s ensures least <= k { if k != x { assert k in rest; } }
    }
  }

  /** The first key an ordered map would visit. */
  function Least(s: set<int>): (m: int)
    requires s != {}
    ensures m in s && forall k :: k in s ==> m <= k
  {
    LeastExists(s);
    var m :| m in s && forall k :: k in s ==> m <= k;
    m
  }

  ghost predicate Lists(r: seq<int>, s: set<int>) {
    && |r| == |s|
    && (forall k :: k in s ==> k in r)
    && (forall i :: 0 <= i < |r| ==> r[i] in s)
    && (forall i, j :: 0 <= i < j < |r| ==> r[i] < r[j])
  }

  /** The keys of an ordered map, in the order its iterator yields them. */
  function Ascending(s: set<int>): (r: seq<int>)
    ensures Lists(r, s)
  {
    if s == {} then [] else
      var m := Least(s);
      var rest := Ascending(s - {m});
      ListsPrepend(s, m, rest);
      [m] + rest
  }

  lemma ListsPrepend(s: set<int>, m: int, rest: seq<int>)
    requires m in s && (forall k :: k in s ==> m <= k) && Lists(rest, s - {m})
    ensures Lists([m] + rest, s)
  {
  }
}
