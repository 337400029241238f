/** The order in which candidates of a run are listed and shown, and what sorting and limiting do to a list. */
module CandidateOrder {
  import opened DiscoveryTables

  datatype Listed = Listed(id: nat, row: Candidate)

  /** Code-point order of identity keys. */
  predicate TextBefore(a: string, b: string) {
    if |b| == 0 then false
    else if |a| == 0 then true
    else if a[0] != b[0] then a[0] < b[0]
    else TextBefore(a[1..], b[1..])
  }

  /** Rows with a position come first, then by position, identity key and id. */
  predicate Before(a: Listed, b: Listed) {
    var p, q := a.row.bestPosition, b.row.bestPosition;
    if p.None? != q.None? then q.None?
    else if p.Some? && p.value != q.value then p.value < q.value
    else if a.row.fields.identityKey != b.row.fields.identityKey then
      TextBefore(a.row.fields.identityKey, b.row.fields.identityKey)
    else a.id < b.id
  }

  lemma {:induction false} TextOrderIsTotal(a: string, b: string)
    ensures a != b ==> (TextBefore(a, b) <==> !TextBefore(b, a))
    ensures !TextBefore(a, a)
  {
    if |a| != 0 {
      TextOrderIsTotal(a[1..], if |b| == 0 then "" else b[1..]);
      if |b| != 0 && a[0] == b[0] && a != b {
        assert a == [a[0]] + a[1..] && b == [b[0]] + b[1..];
      }
    }
  }

  lemma {:induction false} TextOrderIsTransitive(a: string, b: string, c: string)
    requires TextBefore(a, b) && TextBefore(b, c)
    ensures TextBefore(a, c)
  {
    if |a| != 0 && a[0] == b[0] == c[0] {
      TextOrderIsTransitive(a[1..], b[1..], c[1..]);
    }
  }

  /** Rows with different ids are ordered one way or the other, never both. */
  lemma OrderIsTotal(a: Listed, b: Listed)
    ensures a.id != b.id ==> (Before(a, b) <==> !Before(b, a))
    ensures a.id == b.id && Before(a, b) ==> a != b
  {
    TextOrderIsTotal(a.row.fields.identityKey, b.row.fields.identityKey);
  }

  lemma OrderIsTransitive(a: Listed, b: Listed, c: Listed)
    requires Before(a, b) && Before(b, c)
    ensures Before(a, c)
  {
    var x, y, z := a.row.fields.identityKey, b.row.fields.identityKey, c.row.fields.identityKey;
    TextOrderIsTotal(x, y);
    TextOrderIsTotal(y, z);
    TextOrderIsTotal(x, z);
    if TextBefore(x, y) && TextBefore(y, z) {
      TextOrderIsTransitive(x, y, z);
    }
  }

  // ----- Sorting and cutting ----------------------------------------------------------------------------

  function Insert(xs: seq<Listed>, x: Listed): seq<Listed> {
    if |xs| == 0 || Before(x, xs[0]) then [x] + xs else [xs[0]] + Insert(xs[1..], x)
  }

  function InsertAll(sorted: seq<Listed>, xs: seq<Listed>): seq<Listed>
    decreases |xs|
  {
    if |xs| == 0 then sorted else InsertAll(Insert(sorted, xs[0]), xs[1..])
  }

  /** `sorted(xs, key=...)` */
  function Sorted(xs: seq<Listed>): seq<Listed> {
    InsertAll([], xs)
  }

  /** `xs[:k]` */
  function Take(k: nat, xs: seq<Listed>): seq<Listed> {
    if |xs| <= k then xs else xs[..k]
  }

  /** Inserting two rows in either order gives the same list, even when the list is not sorted. */
  lemma {:induction false} InsertsCommute(xs: seq<Listed>, x: Listed, y: Listed)
    requires x == y || x.id != y.id
    ensures Insert(Insert(xs, x), y) == Insert(Insert(xs, y), x)
    decreases |xs|
  {
    if x != y {
      OrderIsTotal(x, y);
      if |xs| == 0 {
        assert Insert([x], y) == if Before(y, x) then [y, x] else [x] + Insert([], y);
        assert Insert([y], x) == if Before(x, y) then [x, y] else [y] + Insert([], x);
      } else {
        var h, rest := xs[0], xs[1..];
        if Before(x, h) && Before(y, h) {
          InsertBeforeHead(xs, x, y);
          InsertBeforeHead(xs, y, x);
        } else if Before(x, h) {
          InsertAround(xs, x, y);
        } else if Before(y, h) {
          InsertAround(xs, y, x);
        } else {
          InsertsCommute(rest, x, y);
          assert Insert(xs, x)[1..] == Insert(rest, x) && Insert(xs, y)[1..] == Insert(rest, y);
        }
      }
    }
  }

  lemma InsertBeforeHead(xs: seq<Listed>, x: Listed, y: Listed)
    requires |xs| > 0 && Before(x, xs[0]) && Before(y, xs[0]) && x.id != y.id
    ensures Insert(Insert(xs, x), y) == if Before(y, x) then [y, x] + xs else [x, y] + xs
  {
    OrderIsTotal(x, y);
    assert ([x] + xs)[1..] == xs;
    assert Insert([x] + xs, y) == if Before(y, x) then [y] + ([x] + xs) else [x] + Insert(xs, y);
  }

  /** `x` belongs before the head and `y` does not: `x` ends up in front either way. */
  lemma InsertAround(xs: seq<Listed>, x: Listed, y: Listed)
    requires |xs| > 0 && Before(x, xs[0]) && !Before(y, xs[0]) && x.id != y.id
    ensures Insert(Insert(xs, x), y) == Insert(Insert(xs, y), x)
  {
    var h := xs[0];
    if Before(y, x) {
      OrderIsTransitive(y, x, h);
    }
    assert ([x] + xs)[1..] == xs;
    assert Insert(Insert(xs, y), x) == [x] + Insert(xs, y);
  }

  ghost predicate OneRowPerId(xs: seq<Listed>) {
    forall a, b :: a in xs && b in xs && a.id == b.id ==> a == b
  }

  lemma {:induction false} InsertAllCommutes(sorted: seq<Listed>, xs: seq<Listed>, y: Listed)
    requires OneRowPerId(xs + [y])
    ensures InsertAll(Insert(sorted, y), xs) == Insert(InsertAll(sorted, xs), y)
    decreases |xs|
  {
    if |xs| != 0 {
      assert xs[0] in xs + [y] && y in xs + [y];
      InsertsCommute(sorted, xs[0], y);
      assert forall a :: a in xs[1..] + [y] ==> a in xs + [y];
      InsertAllCommutes(Insert(sorted, xs[0]), xs[1..], y);
    }
  }

  lemma {:induction false} InsertAllConcat(sorted: seq<Listed>, xs: seq<Listed>, ys: seq<Listed>)
    ensures InsertAll(sorted, xs + ys) == InsertAll(InsertAll(sorted, xs), ys)
    decreases |xs|
  {
    if |xs| == 0 {
      assert xs + ys == ys;
    } else {
      assert (xs + ys)[1..] == xs[1..] + ys;
      InsertAllConcat(Insert(sorted, xs[0]), xs[1..], ys);
    }
  }

  /** The order in which two groups are inserted does not matter. */
  lemma {:induction false} GroupsCommute(sorted: seq<Listed>, xs: seq<Listed>, ys: seq<Listed>)
    requires OneRowPerId(xs + ys)
    ensures InsertAll(sorted, xs + ys) == InsertAll(sorted, ys + xs)
    decreases |ys|
  {
    InsertAllConcat(sorted, xs, ys);
    InsertAllConcat(sorted, ys, xs);
    if |ys| == 0 {
      assert xs + ys == xs && ys + xs == xs;
    } else {
      var y, rest := ys[0], ys[1..];
      assert forall a :: a in xs + [y] ==> a in xs + ys;
      assert forall a :: a in xs + rest ==> a in xs + ys;
      InsertAllCommutes(sorted, xs, y);
      GroupsCommute(Insert(sorted, y), xs, rest);
      InsertAllConcat(Insert(sorted, y), xs, rest);
      InsertAllConcat(Insert(sorted, y), rest, xs);
    }
  }

  /** Inserting a list into which a row was inserted is inserting the list and then the row. */
  lemma {:induction false} InsertAllOfInsert(sorted: seq<Listed>, xs: seq<Listed>, x: Listed)
    requires OneRowPerId(xs + [x])
    ensures InsertAll(sorted, Insert(xs, x)) == Insert(InsertAll(sorted, xs), x)
    decreases |xs|
  {
    if |xs| == 0 || Before(x, xs[0]) {
      assert ([x] + xs)[1..] == xs;
      InsertAllCommutes(sorted, xs, x);
    } else {
      assert ([xs[0]] + Insert(xs[1..], x))[1..] == Insert(xs[1..], x);
      assert forall a :: a in xs[1..] + [x] ==> a in xs + [x];
      InsertAllOfInsert(Insert(sorted, xs[0]), xs[1..], x);
    }
  }

  lemma {:induction false} InsertMembers(xs: seq<Listed>, x: Listed)
    ensures forall a :: a in Insert(xs, x) <==> a in xs || a == x
    ensures |Insert(xs, x)| == |xs| + 1
  {
    if |xs| != 0 && !Before(x, xs[0]) {
      InsertMembers(xs[1..], x);
      assert xs == [xs[0]] + xs[1..];
    }
  }

  lemma {:induction false} InsertAllMembers(sorted: seq<Listed>, xs: seq<Listed>)
    ensures forall a :: a in InsertAll(sorted, xs) <==> a in sorted || a in xs
    ensures |InsertAll(sorted, xs)| == |sorted| + |xs|
    decreases |xs|
  {
    if |xs| != 0 {
      InsertMembers(sorted, xs[0]);
      InsertAllMembers(Insert(sorted, xs[0]), xs[1..]);
      assert xs == [xs[0]] + xs[1..];
    }
  }

  /** Sorting first one group of rows and then all of them together is sorting once. */
  lemma {:induction false} InsertAllOfSorted(sorted: seq<Listed>, acc: seq<Listed>, xs: seq<Listed>)
    requires OneRowPerId(acc + xs)
    ensures InsertAll(sorted, InsertAll(acc, xs)) == InsertAll(sorted, acc + xs)
    decreases |xs|
  {
    if |xs| == 0 {
      assert acc + xs == acc;
    } else {
      InsertMembers(acc, xs[0]);
      assert xs[0] in acc + xs;
      assert OneRowPerId(Insert(acc, xs[0]) + xs[1..]) by {
        assert forall a :: a in Insert(acc, xs[0]) + xs[1..] ==> a in acc + xs;
      }
      InsertAllOfSorted(sorted, Insert(acc, xs[0]), xs[1..]);
      InsertAllConcat(sorted, Insert(acc, xs[0]), xs[1..]);
      assert OneRowPerId(acc + [xs[0]]) by {
        assert forall a :: a in acc + [xs[0]] ==> a in acc + xs;
      }
      InsertAllOfInsert(sorted, acc, xs[0]);
      InsertAllConcat(sorted, acc, xs);
    }
  }

  lemma {:induction false} TakeOfInsert(k: nat, xs: seq<Listed>, x: Listed)
    ensures Take(k, Insert(xs, x)) == Take(k, Insert(Take(k, xs), x))
    decreases |xs|
  {
    InsertMembers(xs, x);
    if k == 0 {
      InsertMembers(Take(k, xs), x);
    } else if |xs| != 0 {
      var cut := Take(k, xs);
      assert cut[0] == xs[0];
      if Before(x, xs[0]) {
        TakeOfCons(k, x, xs);
        TakeOfCons(k, x, cut);
        assert Take(k - 1, cut) == Take(k - 1, xs);
      } else {
        TakeOfInsert(k - 1, xs[1..], x);
        InsertMembers(xs[1..], x);
        InsertMembers(Take(k - 1, xs[1..]), x);
        assert cut[1..] == Take(k - 1, xs[1..]);
        TakeOfCons(k, xs[0], Insert(xs[1..], x));
        TakeOfCons(k, xs[0], Insert(cut[1..], x));
      }
    }
  }

  lemma TakeOfCons(k: nat, h: Listed, rest: seq<Listed>)
    requires k > 0
    ensures Take(k, [h] + rest) == [h] + Take(k - 1, rest)
  {
  }

  /** Only the first k of what is already there can be among the first k after more is inserted. */
  lemma {:induction false} TakeOfInsertAll(k: nat, sorted: seq<Listed>, xs: seq<Listed>)
    ensures Take(k, InsertAll(sorted, xs)) == Take(k, InsertAll(Take(k, sorted), xs))
    decreases |xs|
  {
    if |xs| != 0 {
      var x := xs[0];
      TakeOfInsert(k, sorted, x);
      TakeOfInsertAll(k, Insert(sorted, x), xs[1..]);
      TakeOfInsertAll(k, Insert(Take(k, sorted), x), xs[1..]);
    }
  }

  ghost predicate InOrder(xs: seq<Listed>) {
    forall i, j :: 0 <= i < j < |xs| ==> Before(xs[i], xs[j])
  }

  lemma {:induction false} InsertKeepsOrder(xs: seq<Listed>, x: Listed)
    requires InOrder(xs) && forall y :: y in xs ==> y.id != x.id
    ensures InOrder(Insert(xs, x))
  {
    InsertMembers(xs, x);
    if |xs| != 0 {
      if Before(x, xs[0]) {
        forall j | 0 < j < |xs|
          ensures Before(x, xs[j])
        {
          OrderIsTransitive(x, xs[0], xs[j]);
        }
      } else {
        OrderIsTotal(x, xs[0]);
        assert xs[0] in xs;
        InsertKeepsOrder(xs[1..], x);
        InsertMembers(xs[1..], x);
        var rest := Insert(xs[1..], x);
        forall j | 0 <= j < |rest|
          ensures Before(xs[0], rest[j])
        {
          assert rest[j] in rest;
        }
      }
    }
  }

  lemma {:induction false} SortedIsInOrder(sorted: seq<Listed>, xs: seq<Listed>)
    requires InOrder(sorted)
    requires forall i, j :: 0 <= i < j < |xs| ==> xs[i].id != xs[j].id
    requires forall x, y :: x in sorted && y in xs ==> x.id != y.id
    ensures InOrder(InsertAll(sorted, xs))
    decreases |xs|
  {
    if |xs| != 0 {
      InsertKeepsOrder(sorted, xs[0]);
      InsertMembers(sorted, xs[0]);
      SortedIsInOrder(Insert(sorted, xs[0]), xs[1..]);
    }
  }

  lemma {:induction false} InsertLast(xs: seq<Listed>, x: Listed)
    requires forall y :: y in xs ==> Before(y, x) && y.id != x.id
    ensures Insert(xs, x) == xs + [x]
  {
    if |xs| != 0 {
      OrderIsTotal(xs[0], x);
      InsertLast(xs[1..], x);
    }
  }

  /** Sorting a list that is in order changes nothing. */
  lemma {:induction false} InOrderIsFixed(acc: seq<Listed>, xs: seq<Listed>)
    requires InOrder(acc + xs) && forall i, j :: 0 <= i < j < |acc + xs| ==> (acc + xs)[i].id != (acc + xs)[j].id
    ensures InsertAll(acc, xs) == acc + xs
    decreases |xs|
  {
    if |xs| == 0 {
      assert acc + xs == acc;
    } else {
      var all := acc + xs;
      forall y | y in acc
        ensures Before(y, xs[0]) && y.id != xs[0].id
      {
        var i :| 0 <= i < |acc| && acc[i] == y;
        assert all[i] == y && all[|acc|] == xs[0];
      }
      InsertLast(acc, xs[0]);
      assert (acc + [xs[0]]) + xs[1..] == all;
      InOrderIsFixed(acc + [xs[0]], xs[1..]);
    }
  }
}
