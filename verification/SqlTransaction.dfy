/** A SQL transaction in place (src/sql/engine/local.rs): its methods write, one key at a time,
    exactly what `SqlStatements` says. */
module SqlTransaction {
  import opened Basics
  import opened SqlIndex
  import opened SqlStatements

  /** Why a statement fails: a write conflict, a rejected row or deletion, or the panic on
      updating a row that does not exist. */
  datatype Failure = Serialization | Invalid | Panic

  datatype Result = Ok | Err(failure: Failure)

  class Transaction {
    /** What the transaction saw when it began, and what it has written since. */
    ghost const snapshot: View
    ghost var writes: seq<Write>

    /** What the transaction reads. */
    var view: View

    ghost function Done(): Trail
      reads this
    {
      Trail(view, writes)
    }

    /** Reads see the snapshot overlaid with the transaction's own writes. */
    ghost predicate Valid()
      reads this
    {
      Sound(Done(), snapshot)
    }

    constructor (v: View)
      ensures Valid() && snapshot == v && Done() == Trail(v, [])
    {
      snapshot, writes, view := v, [], v;
    }

    /** Any write may fail because of another transaction's write. */
    method Set(k: SqlKey, s: Stored) returns (r: Result)
      requires Valid()
      modifies this
      ensures Valid() && (r.Ok? || r == Err(Serialization))
      ensures Done() == if r.Ok? then Do(old(Done()), Write(k, Some(s))) else old(Done())
    {
      var conflict: bool := *;
      if conflict { return Err(Serialization); }
      DoSound(Done(), Write(k, Some(s)), snapshot);
      view, writes := view[k := s], writes + [Write(k, Some(s))];
      return Ok;
    }

    method Remove(k: SqlKey) returns (r: Result)
      requires Valid()
      modifies this
      ensures Valid() && (r.Ok? || r == Err(Serialization))
      ensures Done() == if r.Ok? then Do(old(Done()), Write(k, None)) else old(Done())
    {
      var conflict: bool := *;
      if conflict { return Err(Serialization); }
      DoSound(Done(), Write(k, None), snapshot);
      view, writes := view - {k}, writes + [Write(k, None)];
      return Ok;
    }

    method GetIndex(t: Table, c: nat, x: SqlValue) returns (ids: set<SqlValue>)
      ensures ids == Entry(view, t, c, x)
    {
      ids := {};
      var k := IndexKey(t.name, c, x);
      if k in view && view[k].StoredIds? { ids := view[k].ids; }
    }

    /** An empty entry is deleted. */
    method SetIndex(t: Table, c: nat, x: SqlValue, ids: set<SqlValue>) returns (r: Result)
      requires Valid()
      modifies this
      ensures Valid() && (r.Ok? || r == Err(Serialization))
      ensures r.Ok? ==> Done() == Do(old(Done()), EntryWrite(t, c, x, ids))
    {
      if ids == {} { r := Remove(IndexKey(t.name, c, x)); } else { r := Set(IndexKey(t.name, c, x), StoredIds(ids)); }
    }

    /** Rejects rows of the wrong size and inserts of existing keys. Types, nulls, references
        and uniqueness may reject any other row. */
    method ValidateRow(t: Table, row: Row, update: bool) returns (ok: bool)
      requires IsTable(t)
      ensures ok ==> |row| == |t.columns| && (!update ==> RowKey(t.name, row[t.primaryKey]) !in view)
    {
      if |row| != |t.columns| { return false; }
      if !update && RowKey(t.name, row[t.primaryKey]) in view { return false; }
      ok := *;
    }

    /** Adds row `id` to the entries of its values. */
    method JoinIndexes(t: Table, id: SqlValue, row: Row) returns (r: Result)
      requires Valid() && |row| == |t.columns|
      modifies this
      ensures Valid() && (r.Ok? ==> Done() == Joined(old(Done()), t, id, row, |t.columns|))
    {
      for c := 0 to |t.columns|
        invariant Valid() && Done() == Joined(old(Done()), t, id, row, c)
      {
        if t.columns[c].index {
          var ids := GetIndex(t, c, row[c]);
          var s := SetIndex(t, c, row[c], ids + {id});
          if s.Err? { return s; }
        }
      }
      return Ok;
    }

    /** Removes row `id` from the entries of its values. */
    method LeaveIndexes(t: Table, id: SqlValue, row: Row) returns (r: Result)
      requires Valid() && |row| == |t.columns|
      modifies this
      ensures Valid() && (r.Ok? ==> Done() == Parted(old(Done()), t, id, row, |t.columns|))
    {
      for c := 0 to |t.columns|
        invariant Valid() && Done() == Parted(old(Done()), t, id, row, c)
      {
        if t.columns[c].index {
          var ids := GetIndex(t, c, row[c]);
          var s := SetIndex(t, c, row[c], ids - {id});
          if s.Err? { return s; }
        }
      }
      return Ok;
    }

    /** Moves row `id` from the entries of its old values to those of the new ones. */
    method MoveIndexes(t: Table, id: SqlValue, before: Row, row: Row) returns (r: Result)
      requires Valid() && |before| == |t.columns| == |row|
      modifies this
      ensures Valid() && (r.Ok? ==> Done() == Moved(old(Done()), t, id, before, row, |t.columns|))
    {
      for c := 0 to |t.columns|
        invariant Valid() && Done() == Moved(old(Done()), t, id, before, row, c)
      {
        if t.columns[c].index && before[c] != row[c] {
          var ids := GetIndex(t, c, before[c]);
          var s := SetIndex(t, c, before[c], ids - {id});
          if s.Err? { return s; }
          ids := GetIndex(t, c, row[c]);
          s := SetIndex(t, c, row[c], ids + {id});
          if s.Err? { return s; }
        }
      }
      return Ok;
    }

    method InsertRow(t: Table, row: Row) returns (r: Result)
      requires Valid() && IsTable(t)
      modifies this
      ensures Valid() && (r.Ok? ==> RowInserted(old(Done()), t, row) == Some(Done()))
    {
      var ok := ValidateRow(t, row, false);
      if !ok { return Err(Invalid); }
      var id := row[t.primaryKey];
      r := Set(RowKey(t.name, id), StoredRow(row));
      if r.Ok? { r := JoinIndexes(t, id, row); }
    }

    /** Inserts rows; a row with an existing primary key is refused. */
    method Insert(t: Table, rows: seq<Row>) returns (r: Result)
      requires Valid() && Consistent(view, t)
      modifies this
      ensures Valid()
      ensures r.Ok? ==>
                && Executed(old(Done()), t, SqlStatements.Insert(rows)) == Some(Done())
                && Consistent(view, t) && Elsewhere(old(view), view, t)
                && (forall i :: 0 <= i < |rows| ==>
                    |rows[i]| == |t.columns| && rows[i][t.primaryKey] !in Rows(old(view), t))
                && Rows(view, t) == AddRows(Rows(old(view), t), t, rows)
    {
      hide Rows, Elsewhere, ColumnOk, RowInserted, Sound;
      for i := 0 to |rows|
        invariant Valid() && Inserted(old(Done()), t, rows[..i]) == Some(Done())
      {
        r := InsertRow(t, rows[i]);
        if r.Err? { return; }
        assert rows[..i + 1][..i] == rows[..i];
      }
      assert rows[..|rows|] == rows;
      KeepsExecuted(old(Done()), t, SqlStatements.Insert(rows));
      StatementOk(old(Done()), t, SqlStatements.Insert(rows));
      return Ok;
    }

    method DeleteRow(t: Table, id: SqlValue) returns (r: Result)
      requires Valid() && Consistent(view, t)
      modifies this
      ensures Valid() && (r.Ok? ==> RowDeleted(old(Done()), t, id) == Some(Done()) && Consistent(view, t))
    {
      DeleteOk(Done(), t, id);
      hide Rows, ColumnOk, Sound;
      if RowKey(t.name, id) in view {
        r := LeaveIndexes(t, id, view[RowKey(t.name, id)].row);
        if r.Err? { return; }
      }
      r := Remove(RowKey(t.name, id));
    }

    /** Deletes rows, unless a reference to one of them may forbid it. */
    method Delete(t: Table, ids: seq<SqlValue>) returns (r: Result)
      requires Valid() && Consistent(view, t)
      modifies this
      ensures Valid()
      ensures r.Ok? ==>
                && Executed(old(Done()), t, SqlStatements.Delete(ids)) == Some(Done())
                && Consistent(view, t) && Elsewhere(old(view), view, t)
                && Rows(view, t) == Rows(old(view), t) - SetOf(ids)
    {
      var referenced: bool := *;
      if referenced { return Err(Invalid); }
      hide Rows, Elsewhere, Consistent, RowDeleted, Sound;
      for i := 0 to |ids|
        invariant Valid() && Consistent(view, t) && Deleted(old(Done()), t, ids[..i]) == Some(Done())
      {
        r := DeleteRow(t, ids[i]);
        if r.Err? { return; }
        assert ids[..i + 1][..i] == ids[..i];
      }
      assert ids[..|ids|] == ids;
      KeepsExecuted(old(Done()), t, SqlStatements.Delete(ids));
      StatementOk(old(Done()), t, SqlStatements.Delete(ids));
      return Ok;
    }

    /** Replaces a row whose primary key stays. */
    method ReplaceRow(t: Table, id: SqlValue, row: Row) returns (r: Result)
      requires Valid() && WellFormed(view, t)
      modifies this
      ensures Valid() && (r.Ok? ==> RowReplaced(old(Done()), t, id, row) == Some(Done()))
    {
      var ok := ValidateRow(t, row, true);
      if !ok { return Err(Invalid); }
      if HasIndexes(t) {
        if RowKey(t.name, id) !in view { return Err(Panic); }
        r := MoveIndexes(t, id, view[RowKey(t.name, id)].row, row);
        if r.Err? { return; }
      }
      r := Set(RowKey(t.name, id), StoredRow(row));
    }

    method UpdateRow(t: Table, id: SqlValue, row: Row) returns (r: Result)
      requires Valid() && Consistent(view, t)
      modifies this
      ensures Valid() && (r.Ok? ==> RowUpdated(old(Done()), t, id, row) == Some(Done()) && Consistent(view, t))
    {
      if t.primaryKey >= |row| { return Err(Panic); }
      if id != row[t.primaryKey] {
        r := Delete(t, [id]);
        if r.Err? { return; }
        OneDeleted(old(Done()), t, id);
        ghost var x := Done();
        r := Insert(t, [row]);
        OneInserted(x, t, row);
      } else {
        r := ReplaceRow(t, id, row);
      }
      if r.Ok? { UpdateOk(old(Done()), t, id, row); }
    }

    /** Updates rows by primary key; a new primary key is a deletion and an insertion. */
    method Update(t: Table, rows: seq<(SqlValue, Row)>) returns (r: Result)
      requires Valid() && Consistent(view, t)
      modifies this
      ensures Valid()
      ensures r.Ok? ==>
                && Executed(old(Done()), t, SqlStatements.Update(rows)) == Some(Done())
                && Consistent(view, t) && Elsewhere(old(view), view, t)
                && (forall i :: 0 <= i < |rows| ==> |rows[i].1| == |t.columns|)
                && Rows(view, t) == MoveRows(Rows(old(view), t), t, rows)
    {
      hide Rows, Elsewhere, Consistent, RowUpdated, Sound;
      for i := 0 to |rows|
        invariant Valid() && Consistent(view, t) && Updated(old(Done()), t, rows[..i]) == Some(Done())
      {
        r := UpdateRow(t, rows[i].0, rows[i].1);
        if r.Err? { return; }
        assert rows[..i + 1][..i] == rows[..i];
      }
      assert rows[..|rows|] == rows;
      KeepsExecuted(old(Done()), t, SqlStatements.Update(rows));
      StatementOk(old(Done()), t, SqlStatements.Update(rows));
      return Ok;
    }

    /** The primary keys of the rows that have one of the values. */
    method LookupIndex(t: Table, c: nat, values: seq<SqlValue>) returns (ids: set<SqlValue>)
      requires Consistent(view, t) && Indexed(t, c)
      ensures forall id :: id in ids <==> id in Rows(view, t) && Rows(view, t)[id][c] in values
    {
      ids := {};
      for i := 0 to |values|
        invariant forall id :: id in ids <==> exists j :: 0 <= j < i && id in Entry(view, t, c, values[j])
      {
        var found := GetIndex(t, c, values[i]);
        ids := ids + found;
      }
      forall id ensures id in ids <==> id in Rows(view, t) && Rows(view, t)[id][c] in values {
        RowsAt(view, t, id);
        assert ColumnOk(view, t, c);
        assert forall x :: id in Entry(view, t, c, x) <==> HasValue(view, t, id, c, x);
      }
    }
  }

  lemma OneDeleted(x: Trail, t: Table, id: SqlValue)
    ensures Deleted(x, t, [id]) == RowDeleted(x, t, id)
  {
    assert [id][..0] == [];
  }

  lemma OneInserted(x: Trail, t: Table, row: Row)
    ensures Inserted(x, t, [row]) == RowInserted(x, t, row)
  {
    assert [row][..0] == [];
  }
}
