/**
 * GenericCurve's default set operations on its linkedPoints, an
 * insertion-ordered hash set of Caravan Points. Points define no equality,
 * so membership is by object identity. The set is a duplicate-free
 * sequence here, in insertion order: adding a member again neither
 * duplicates nor moves it, and removing one keeps the others in order.
 */
module GenericCurves {
  import opened CaravanPoints

  /** No element occurs twice. */
  predicate Distinct<T(==)>(s: seq<T>) {
    forall i, j :: 0 <= i < j < |s| ==> s[i] != s[j]
  }

  /** The members of s, as a set. */
  function Members<T>(s: seq<T>): set<T> {
    set i | 0 <= i < |s| :: s[i]
  }

  /** Membership in the sequence and in its set of members agree. */
  lemma MembersIn<T>(s: seq<T>, x: T)
    ensures x in Members(s) <==> x in s
  {
    if x in s {
      var i :| 0 <= i < |s| && s[i] == x;
      assert s[i] in Members(s);
    }
  }

  /** Appending x adds x to the members. */
  lemma MembersAppend<T>(s: seq<T>, x: T)
    ensures Members(s + [x]) == Members(s) + {x}
  {
    forall y | y in Members(s)
      ensures y in Members(s + [x])
    {
      var i :| 0 <= i < |s| && s[i] == y;
      assert (s + [x])[i] == y;
    }
    assert (s + [x])[|s|] == x;
  }

  /** add(p) on an insertion-ordered set: appended when absent, otherwise nothing changes. */
  function Added<T(==)>(s: seq<T>, p: T): (r: seq<T>)
    ensures Members(r) == Members(s) + {p}
    ensures Distinct(s) ==> Distinct(r)
    ensures p in s ==> r == s
    ensures p !in s ==> |r| == |s| + 1 && r[..|s|] == s && r[|s|] == p
  {
    MembersIn(s, p);
    MembersAppend(s, p);
    if p in s then s else s + [p]
  }

  /** r is s without its element at index i, the others in their order. */
  predicate RemovedAt<T(==)>(s: seq<T>, i: int, r: seq<T>) {
    0 <= i < |s| && r == s[..i] + s[i + 1..]
  }

  /** remove(p): p leaves, every other member keeps its relative order. */
  function Removed<T(==)>(s: seq<T>, p: T): (r: seq<T>)
    ensures Members(r) == Members(s) - {p}
    ensures Distinct(s) ==> Distinct(r)
    ensures p !in s ==> r == s
    ensures Distinct(s) && p in s ==> exists i :: RemovedAt(s, i, r) && s[i] == p
    ensures |r| <= |s|
  {
    if |s| == 0 then []
    else
      var init, last := s[..|s| - 1], s[|s| - 1];
      assert s == init + [last];
      MembersAppend(init, last);
      var rest := Removed(init, p);
      if last == p then
        RemoveLast(init, last, rest);
        rest
      else
        MembersAppend(rest, last);
        MembersIn(rest, last);
        MembersIn(init, last);
        RemoveInner(init, last, p, rest);
        rest + [last]
  }

  /** Removing the last element of a distinct sequence leaves the others in order. */
  lemma RemoveLast<T>(init: seq<T>, last: T, rest: seq<T>)
    requires last !in init ==> rest == init
    ensures Distinct(init + [last]) ==> RemovedAt(init + [last], |init|, rest)
  {
    var s := init + [last];
    if Distinct(s) {
      assert last !in init by {
        forall j | 0 <= j < |init|
          ensures init[j] != last
        {
          assert s[j] == init[j] && s[|init|] == last;
        }
      }
      assert s[..|init|] + s[|init| + 1..] == init;
    }
  }

  /** Removing p from the front part and keeping a last element other than p removes p from the whole. */
  lemma RemoveInner<T>(init: seq<T>, last: T, p: T, rest: seq<T>)
    requires last != p
    requires Distinct(init) && p in init ==> exists i :: RemovedAt(init, i, rest) && init[i] == p
    ensures var s := init + [last];
      Distinct(s) && p in s ==> exists i :: RemovedAt(s, i, rest + [last]) && s[i] == p
  {
    var s := init + [last];
    if Distinct(s) && p in s {
      assert Distinct(init) by {
        forall a, b | 0 <= a < b < |init|
          ensures init[a] != init[b]
        {
          assert s[a] == init[a] && s[b] == init[b];
        }
      }
      assert p in init by {
        var k :| 0 <= k < |s| && s[k] == p;
        assert k < |init|;
        assert init[k] == p;
      }
      var i :| RemovedAt(init, i, rest) && init[i] == p;
      assert s[..i] == init[..i] && s[i + 1..] == init[i + 1..] + [last];
      assert RemovedAt(s, i, rest + [last]) && s[i] == p;
    }
  }

  /** addPoints(ps): each of ps added in turn. */
  function AddedAll<T(==)>(s: seq<T>, ps: seq<T>): (r: seq<T>)
    ensures Members(r) == Members(s) + Members(ps)
    ensures Distinct(s) ==> Distinct(r)
    ensures |r| >= |s| && r[..|s|] == s
  {
    if |ps| == 0 then s
    else
      var init, last := ps[..|ps| - 1], ps[|ps| - 1];
      assert ps == init + [last];
      MembersAppend(init, last);
      Added(AddedAll(s, init), last)
  }

  /** Adding an absent member and removing it again restores the set, order included. */
  lemma {:induction false} RemoveUndoesAdd<T>(s: seq<T>, p: T)
    requires p !in s
    ensures Removed(Added(s, p), p) == s
  {
    assert Added(s, p)[..|s|] == s;
  }

  /** Adding the same points a second time changes nothing. */
  lemma {:induction false} AddAllIdempotent<T>(s: seq<T>, ps: seq<T>)
    ensures AddedAll(AddedAll(s, ps), ps) == AddedAll(s, ps)
  {
    AlreadyMembers(AddedAll(s, ps), ps);
  }

  /** Adding points that are all members already changes nothing. */
  lemma {:induction false} AlreadyMembers<T>(s: seq<T>, ps: seq<T>)
    requires Members(ps) <= Members(s)
    ensures AddedAll(s, ps) == s
  {
    if |ps| > 0 {
      var init := ps[..|ps| - 1];
      assert Members(init) <= Members(ps);
      AlreadyMembers(s, init);
      assert ps[|ps| - 1] in ps;
    }
  }

  /** A curve's linkedPoints and the default operations that change it in place. */
  class GenericCurve {
    var linkedPoints: seq<Point>

    /** The set never holds a point twice. */
    ghost predicate Valid()
      reads this
    {
      Distinct(linkedPoints)
    }

    /** A curve starts with no points. */
    constructor ()
      ensures linkedPoints == [] && Valid()
    {
      linkedPoints := [];
    }

    /** containsPoint(p): identity membership. */
    function ContainsPoint(point: Point): (r: bool)
      reads this
      ensures r <==> point in Members(linkedPoints)
    {
      MembersIn(linkedPoints, point);
      point in linkedPoints
    }

    /** addPoint(p). */
    method AddPoint(point: Point)
      requires Valid()
      modifies this
      ensures Valid() && linkedPoints == Added(old(linkedPoints), point)
      ensures ContainsPoint(point)
      ensures Members(linkedPoints) == Members(old(linkedPoints)) + {point}
    {
      if point !in linkedPoints {
        linkedPoints := linkedPoints + [point];
      }
    }

    /** removePoint(p). */
    method RemovePoint(point: Point)
      requires Valid()
      modifies this
      ensures Valid() && linkedPoints == Removed(old(linkedPoints), point)
      ensures !ContainsPoint(point)
      ensures Members(linkedPoints) == Members(old(linkedPoints)) - {point}
    {
      linkedPoints := Removed(linkedPoints, point);
    }

    /** clearPoints(). */
    method ClearPoints()
      modifies this
      ensures Valid() && linkedPoints == []
      ensures Members(linkedPoints) == {}
    {
      linkedPoints := [];
    }

    /** addPoints(points...): addPoint for each argument, in order. */
    method AddPoints(points: seq<Point>)
      requires Valid()
      modifies this
      ensures Valid() && linkedPoints == AddedAll(old(linkedPoints), points)
      ensures Members(linkedPoints) == Members(old(linkedPoints)) + Members(points)
    {
      var k := 0;
      while k < |points|
        invariant 0 <= k <= |points|
        invariant Valid() && linkedPoints == AddedAll(old(linkedPoints), points[..k])
      {
        assert points[..k + 1][..k] == points[..k];
        AddPoint(points[k]);
        k := k + 1;
      }
      assert points[..k] == points;
    }
  }
}
