/** Handle-ordered listings of a table, as a map iteration followed by a sort yields them. */
module Listings {
  import opened Protocol

  ghost predicate Ascending<V>(rows: seq<(Handle, V)>) {
    forall i, j :: 0 <= i < j < |rows| ==> rows[i].0 < rows[j].0
  }

  /** `rows` lists the map `m`, each entry once, by ascending handle. */
  ghost predicate Lists<V>(rows: seq<(Handle, V)>, m: map<Handle, V>) {
    && Ascending(rows)
    && (forall i :: 0 <= i < |rows| ==> rows[i].0 in m && m[rows[i].0] == rows[i].1)
    && (forall h :: h in m ==> exists i :: 0 <= i < |rows| && rows[i].0 == h)
  }

  /** Sorting one more row into an ascending vector. */
  function Insert<V>(rows: seq<(Handle, V)>, row: (Handle, V)): (r: seq<(Handle, V)>)
    ensures |r| == |rows| + 1
  {
    if rows == [] || row.0 < rows[0].0 then [row] + rows
    else [rows[0]] + Insert(rows[1..], row)
  }

  lemma {:induction false} InsertMembers<V>(rows: seq<(Handle, V)>, row: (Handle, V), x: (Handle, V))
    ensures x in Insert(rows, row) <==> x == row || x in rows
  {
    if rows != [] && !(row.0 < rows[0].0) {
      InsertMembers(rows[1..], row, x);
      assert rows == [rows[0]] + rows[1..];
    }
  }

  lemma {:induction false} InsertAscending<V>(rows: seq<(Handle, V)>, row: (Handle, V))
    requires Ascending(rows) && forall i :: 0 <= i < |rows| ==> rows[i].0 != row.0
    ensures Ascending(Insert(rows, row))
  {
    if rows != [] && !(row.0 < rows[0].0) {
      var rest := Insert(rows[1..], row);
      InsertAscending(rows[1..], row);
      forall i | 0 <= i < |rest|
        ensures rows[0].0 < rest[i].0
      {
        InsertMembers(rows[1..], row, rest[i]);
      }
    }
  }

  lemma InsertLists<V>(rows: seq<(Handle, V)>, m: map<Handle, V>, h: Handle, rec: V)
    requires Lists(rows, m) && h !in m
    ensures Lists(Insert(rows, (h, rec)), m[h := rec])
  {
    var r, m' := Insert(rows, (h, rec)), m[h := rec];
    InsertAscending(rows, (h, rec));
    forall i | 0 <= i < |r|
      ensures r[i].0 in m' && m'[r[i].0] == r[i].1
    {
      InsertMembers(rows, (h, rec), r[i]);
    }
    forall g | g in m'
      ensures exists i :: 0 <= i < |r| && r[i].0 == g
    {
      var x := (g, m'[g]);
      if g != h {
        var i :| 0 <= i < |rows| && rows[i].0 == g;
        assert rows[i] == x;
      }
      InsertMembers(rows, (h, rec), x);
      var k :| 0 <= k < |r| && r[k] == x;
    }
  }

  lemma {:induction false} ListsSize<V>(rows: seq<(Handle, V)>, m: map<Handle, V>)
    requires Lists(rows, m)
    ensures |rows| == |m|
    decreases |rows|
  {
    if rows == [] {
      assert m.Keys == {};
    } else {
      var h := rows[0].0;
      var rest := m - {h};
      assert |rest.Keys| == |m.Keys| - 1 by {
        assert rest.Keys == m.Keys - {h};
      }
      forall g | g in rest
        ensures exists i :: 0 <= i < |rows[1..]| && rows[1..][i].0 == g
      {
        var i :| 0 <= i < |rows| && rows[i].0 == g;
        assert rows[1..][i - 1].0 == g;
      }
      ListsSize(rows[1..], rest);
    }
  }

  /** Collect a table into a vector in whatever order it is iterated, sorted by handle. */
  method Listing<V>(m: map<Handle, V>) returns (rows: seq<(Handle, V)>)
    ensures Lists(rows, m)
  {
    rows := [];
    var todo := m.Keys;
    ghost var done: map<Handle, V> := map[];
    while todo != {}
      invariant todo <= m.Keys
      invariant done == map h | h in m && h !in todo :: m[h]
      invariant Lists(rows, done)
      decreases |todo|
    {
      var h :| h in todo;
      InsertLists(rows, done, h, m[h]);
      rows := Insert(rows, (h, m[h]));
      todo := todo - {h};
      done := done[h := m[h]];
    }
    assert done == m;
  }
}
