/** The on-disk store (src/store.rs): each method is one transaction. */
module DiskStore {
  import opened Protocol
  import opened Lifecycle
  import opened Listings

  type Row = (Handle, Record)

  /** The counter on disk; an absent key reads as 0. */
  function Counter(keyNext: Option<nat>): nat {
    if keyNext.Some? then keyNext.value else 0
  }

  /** The largest handle of a listing, 0 when it is empty. */
  method MaxKey(rows: seq<Row>, ghost m: map<Handle, Record>) returns (maxKey: nat)
    requires Lists(rows, m)
    ensures maxKey == MaxHandle(m.Keys)
  {
    maxKey := 0;
    for i := 0 to |rows|
      invariant forall k :: 0 <= k < i ==> rows[k].0 <= maxKey
      invariant maxKey == 0 || exists k :: 0 <= k < i && rows[k].0 == maxKey
    {
      if rows[i].0 > maxKey {
        maxKey := rows[i].0;
      }
    }
    if m.Keys != {} {
      ghost var top := MaxHandle(m.Keys);
      assert top in m;
      ghost var k :| 0 <= k < |rows| && rows[k].0 == top;
    }
  }

  class Store {
    var records: map<Handle, Record>
    var keyNext: Option<nat>

    constructor ()
      ensures records == map[] && keyNext == None
    {
      records := map[];
      keyNext := None;
    }

    /** Every record by ascending handle, and a counter no handle on disk exceeds. */
    method Load() returns (rows: seq<Row>, nextHandle: nat)
      ensures Lists(rows, records)
      ensures nextHandle == LoadedNext(records, Counter(keyNext))
    {
      rows := Listing(records);
      var maxKey := MaxKey(rows, records);
      var stored := if keyNext.Some? then keyNext.value else 0;
      nextHandle := if stored >= maxKey then stored else maxKey;
    }

    /** Insert or overwrite one record and set the counter to its handle. */
    method Put(h: Handle, rec: Record)
      modifies this
      ensures records == old(records)[h := rec] && keyNext == Some(h)
    {
      records := records[h := rec];
      keyNext := Some(h);
    }

    method Remove(h: Handle)
      modifies this
      ensures records == old(records) - {h} && keyNext == old(keyNext)
    {
      records := records - {h};
    }

    /** Change the status of an existing record; a removed one is not recreated. */
    method SetStatus(h: Handle, status: ProcState)
      modifies this
      ensures records == Restatus(old(records), h, status) && keyNext == old(keyNext)
    {
      if h in records {
        var rec := records[h];
        records := records[h := rec.(status := status)];
      }
    }
  }

  function Restatus(m: map<Handle, Record>, h: Handle, status: ProcState): map<Handle, Record> {
    if h in m then m[h := m[h].(status := status)] else m
  }

  /** Recording an exit and forgetting commute: neither order leaves or recreates the record. */
  lemma RestatusCommutesWithRemove(m: map<Handle, Record>, h: Handle, g: Handle, status: ProcState)
    ensures Restatus(m - {g}, h, status) == Restatus(m, h, status) - {g}
    ensures Restatus(m, h, status).Keys == m.Keys
  {
    assert Restatus(m - {g}, h, status).Keys == (Restatus(m, h, status) - {g}).Keys;
  }
}
