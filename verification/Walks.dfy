// Walking over a set of clients. The program keeps clients in sets of pointers,
// so a walk visits each element once, in an order that only the addresses know.
module Walks {
  import opened Results

  /** A list of the elements of a set, each of them once. */
  ghost predicate Enumerates(ids: seq<int>, s: set<int>) {
    && (forall x :: x in ids <==> x in s)
    && (forall i, j :: 0 <= i < j < |ids| ==> ids[i] != ids[j])
  }

  ghost predicate IsWalk(w: set<int> -> seq<int>) {
    forall s: set<int> :: Enumerates(w(s), s)
  }

  /** Some order for every set. */
  type Walk = w: set<int> -> seq<int> | IsWalk(w) ghost witness AscendingWalk()

  lemma {:induction false} HasMinimum(s: set<int>)
    requires s != {}
    ensures exists m :: m in s && forall x :: x in s ==> m <= x
    decreases s
  {
    var any := Pick(s);
    if s == {any} {
    } else {
      assert {any} + (s - {any}) == s;
      HasMinimum(s - {any});
      var m :| m in s - {any} && forall x :: x in s - {any} ==> m <= x;
      var least := if any < m then any else m;
      assert forall x :: x in s ==> x == any || x in s - {any};
      assert least in s && forall x :: x in s ==> least <= x;
    }
  }

  /** The smallest element, which is the first key of a map ordered by descriptor. */
  function First(fds: set<int>): (fd: int)
    requires fds != {}
    ensures fd in fds && forall x :: x in fds ==> fd <= x
  {
    HasMinimum(fds);
    var m :| m in fds && forall x :: x in fds ==> m <= x;
    m
  }

  function Ascending(s: set<int>): seq<int> {
    if s == {} then [] else [First(s)] + Ascending(s - {First(s)})
  }

  lemma {:induction false} AscendingEnumerates(s: set<int>)
    ensures Enumerates(Ascending(s), s)
    decreases s
  {
    if s != {} {
      var m, rest := First(s), Ascending(s - {First(s)});
      AscendingEnumerates(s - {m});
      forall j | 0 <= j < |rest|
        ensures rest[j] != m
      {
        assert rest[j] in rest;
      }
      forall i, j | 0 <= i < j < |([m] + rest)|
        ensures ([m] + rest)[i] != ([m] + rest)[j]
      {
        if i > 0 {
          assert rest[i - 1] != rest[j - 1];
        }
      }
    }
  }

  /** The order of descriptors is one such order. */
  ghost function AscendingWalk(): (w: set<int> -> seq<int>)
    ensures IsWalk(w)
  {
    AllAscend();
    s => Ascending(s)
  }

  lemma AllAscend()
    ensures forall s :: Enumerates(Ascending(s), s)
  {
    forall s
      ensures Enumerates(Ascending(s), s)
    {
      AscendingEnumerates(s);
    }
  }

  lemma WalkEnumerates(walk: Walk, s: set<int>)
    ensures Enumerates(walk(s), s)
  {
    assert IsWalk(walk);
  }

  /** Each element is walked once. */
  lemma {:induction false} EnumerationSize(ids: seq<int>, s: set<int>)
    requires Enumerates(ids, s)
    ensures |ids| == |s|
    decreases ids
  {
    if ids == [] {
      assert forall x :: x in s ==> x in ids;
      assert s == {};
    } else {
      var rest, left := ids[1..], s - {ids[0]};
      assert ids == [ids[0]] + rest;
      assert ids[0] in ids;
      assert forall i :: 0 <= i < |rest| ==> rest[i] == ids[i + 1];
      assert forall x :: x in rest ==> x in ids;
      assert forall x :: x in left ==> x in ids;
      EnumerationSize(rest, left);
      assert |left| == |s| - 1;
    }
  }
}
