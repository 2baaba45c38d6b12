/** Device ids in ascending order: what sort.Strings and sort.Slice make of the keys of a map. */
module SortedIds {
  import opened PairingCode

  predicate Ascending(ids: seq<string>) { forall i, j :: 0 <= i < j < |ids| ==> Precedes(ids[i], ids[j]) }

  /** The ids of the set, each once, in order. */
  ghost predicate Lists(ids: seq<string>, s: set<string>) {
    Ascending(ids) && forall x :: x in ids <==> x in s
  }

  lemma {:induction false} PrecedesTransitive(a: string, b: string, c: string)
    requires Precedes(a, b) && Precedes(b, c)
    ensures Precedes(a, c)
  {
    if a != [] && a[0] == b[0] && b[0] == c[0] {
      PrecedesTransitive(a[1..], b[1..], c[1..]);
    }
  }

  lemma FirstIsLeast(ids: seq<string>, x: string)
    requires Ascending(ids) && x in ids
    ensures x == ids[0] || Precedes(ids[0], x)
  {
    hide Precedes;
  }

  lemma RestLists(ids: seq<string>, s: set<string>)
    requires Lists(ids, s) && ids != []
    ensures Lists(ids[1..], s - {ids[0]})
  {
    forall x ensures x in ids[1..] <==> x in s && x != ids[0] {
      if x in ids[1..] {
        var i :| 1 <= i < |ids| && ids[i] == x;
        PrecedesTotal(ids[0], ids[i]);
      }
      assert ids == [ids[0]] + ids[1..];
    }
    hide Precedes;
  }

  /** A set has one such list. */
  lemma {:induction false} ListsUnique(ids: seq<string>, other: seq<string>, s: set<string>)
    requires Lists(ids, s) && Lists(other, s)
    ensures ids == other
  {
    EmptyLists(ids, s);
    EmptyLists(other, s);
    if s != {} {
      SameFirst(ids, other, s);
      RestLists(ids, s);
      RestLists(other, s);
      ListsUnique(ids[1..], other[1..], s - {ids[0]});
      assert ids == [ids[0]] + ids[1..] && other == [other[0]] + other[1..];
    }
    hide Precedes;
  }

  lemma EmptyLists(ids: seq<string>, s: set<string>)
    requires Lists(ids, s)
    ensures ids == [] <==> s == {}
  {
    if ids != [] { assert ids[0] in s; }
    hide Ascending;
  }

  lemma SameFirst(ids: seq<string>, other: seq<string>, s: set<string>)
    requires Lists(ids, s) && Lists(other, s) && ids != [] && other != []
    ensures ids[0] == other[0]
  {
    assert ids[0] in other && other[0] in ids;
    FirstIsLeast(ids, other[0]);
    FirstIsLeast(other, ids[0]);
    PrecedesTotal(ids[0], other[0]);
    hide Precedes;
  }

  function Insert(ids: seq<string>, x: string): seq<string> {
    if ids == [] || Precedes(x, ids[0]) then [x] + ids else [ids[0]] + Insert(ids[1..], x)
  }

  lemma AscendingCons(x: string, ids: seq<string>)
    requires Ascending(ids) && forall y :: y in ids ==> Precedes(x, y)
    ensures Ascending([x] + ids)
  {
    hide Precedes;
  }

  lemma {:induction false} InsertHolds(ids: seq<string>, x: string, y: string)
    ensures y in Insert(ids, x) <==> y == x || y in ids
  {
    if ids != [] && !Precedes(x, ids[0]) {
      InsertHolds(ids[1..], x, y);
      assert ids == [ids[0]] + ids[1..];
    }
    hide Precedes;
  }

  lemma {:induction false} InsertAscends(ids: seq<string>, x: string)
    requires Ascending(ids) && x !in ids
    ensures Ascending(Insert(ids, x))
  {
    if ids == [] {
    } else if Precedes(x, ids[0]) {
      forall y | y in ids ensures Precedes(x, y) {
        FirstIsLeast(ids, y);
        if y != ids[0] { PrecedesTransitive(x, ids[0], y); }
      }
      AscendingCons(x, ids);
    } else {
      PrecedesTotal(x, ids[0]);
      InsertAscends(ids[1..], x);
      forall y | y in Insert(ids[1..], x) ensures Precedes(ids[0], y) {
        InsertHolds(ids[1..], x, y);
      }
      AscendingCons(ids[0], Insert(ids[1..], x));
    }
    hide Precedes;
  }

  method SortKeys(keys: set<string>) returns (ids: seq<string>)
    ensures Lists(ids, keys)
  {
    ids := [];
    var todo := keys;
    while todo != {}
      invariant todo <= keys && Lists(ids, keys - todo)
      decreases todo
    {
      var x :| x in todo;
      InsertAscends(ids, x);
      forall y ensures y in Insert(ids, x) <==> y in keys - (todo - {x}) { InsertHolds(ids, x, y); }
      hide Insert, Ascending;
      ids := Insert(ids, x);
      todo := todo - {x};
    }
  }
}
