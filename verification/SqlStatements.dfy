/** What SQL statements write, in order, and that they keep every index correct
    (src/sql/engine/local.rs). */
module SqlStatements {
  import opened Basics
  import opened SqlIndex

  /** A key set to a value, or deleted. */
  datatype Write = Write(key: SqlKey, value: Option<Stored>)

  function Put(v: View, w: Write): View {
    if w.value.Some? then v[w.key := w.value.value] else v - {w.key}
  }

  function Apply(v: View, ws: seq<Write>): View {
    if ws == [] then v else Put(Apply(v, ws[..|ws| - 1]), ws[|ws| - 1])
  }

  /** What a transaction reads, and what it has written. */
  datatype Trail = Trail(view: View, writes: seq<Write>)

  function Do(x: Trail, w: Write): Trail {
    Trail(Put(x.view, w), x.writes + [w])
  }

  /** The view is the snapshot overlaid with the writes. */
  ghost predicate Sound(x: Trail, snapshot: View) {
    x.view == Apply(snapshot, x.writes)
  }

  lemma DoSound(x: Trail, w: Write, snapshot: View)
    requires Sound(x, snapshot)
    ensures Sound(Do(x, w), snapshot)
  {
    assert (x.writes + [w])[..|x.writes|] == x.writes;
  }

  /** Only keys of the table are written, and the view goes on being the overlay. */
  ghost predicate Keeps(x: Trail, y: Trail, t: Table) {
    Elsewhere(x.view, y.view, t) && forall s :: Sound(x, s) ==> Sound(y, s)
  }

  lemma KeepsDo(x: Trail, w: Write, t: Table)
    requires w.key.table == t.name
    ensures Keeps(x, Do(x, w), t)
  {
    forall s | Sound(x, s) ensures Sound(Do(x, w), s) { DoSound(x, w, s); }
  }

  lemma KeepsOn(x: Trail, y: Trail, z: Trail, t: Table)
    requires Keeps(x, y, t) && Keeps(y, z, t)
    ensures Keeps(x, z, t)
  {
    ElsewhereOn(x.view, y.view, z.view, t);
  }

  lemma KeepsSame(x: Trail, t: Table)
    ensures Keeps(x, x, t)
  {
  }

  // ---------------------------------------------------------------- index entries

  function EntryWrite(t: Table, c: nat, x: SqlValue, ids: set<SqlValue>): Write {
    Write(IndexKey(t.name, c, x), if ids == {} then None else Some(StoredIds(ids)))
  }

  function Enter(x: Trail, t: Table, c: nat, value: SqlValue, id: SqlValue): Trail {
    Do(x, EntryWrite(t, c, value, Entry(x.view, t, c, value) + {id}))
  }

  function Leave(x: Trail, t: Table, c: nat, value: SqlValue, id: SqlValue): Trail {
    Do(x, EntryWrite(t, c, value, Entry(x.view, t, c, value) - {id}))
  }

  /** Row `id` joins the entries of its values in the first c columns. */
  function Joined(x: Trail, t: Table, id: SqlValue, row: Row, c: nat): Trail
    requires c <= |t.columns| == |row|
  {
    if c == 0 then x
    else
      var y, d := Joined(x, t, id, row, c - 1), c - 1;
      if t.columns[d].index then Enter(y, t, d, row[d], id) else y
  }

  /** Row `id` leaves the entries of its values in the first c columns. */
  function Parted(x: Trail, t: Table, id: SqlValue, row: Row, c: nat): Trail
    requires c <= |t.columns| == |row|
  {
    if c == 0 then x
    else
      var y, d := Parted(x, t, id, row, c - 1), c - 1;
      if t.columns[d].index then Leave(y, t, d, row[d], id) else y
  }

  /** Row `id` moves between the entries of the first c columns where its value changes. */
  function Moved(x: Trail, t: Table, id: SqlValue, before: Row, row: Row, c: nat): Trail
    requires c <= |t.columns| == |before| == |row|
  {
    if c == 0 then x
    else
      var y, d := Moved(x, t, id, before, row, c - 1), c - 1;
      if t.columns[d].index && before[d] != row[d] then Enter(Leave(y, t, d, before[d], id), t, d, row[d], id) else y
  }

  // ---------------------------------------------------------------- statements

  /** Where each statement leads when it returns Ok; None where it cannot. */
  function RowInserted(x: Trail, t: Table, row: Row): Option<Trail> {
    if |row| != |t.columns| || t.primaryKey >= |row| || RowKey(t.name, row[t.primaryKey]) in x.view then None
    else
      var id := row[t.primaryKey];
      Some(Joined(Do(x, Write(RowKey(t.name, id), Some(StoredRow(row)))), t, id, row, |t.columns|))
  }

  function RowDeleted(x: Trail, t: Table, id: SqlValue): Option<Trail> {
    var k := RowKey(t.name, id);
    if k !in x.view then Some(Do(x, Write(k, None)))
    else if !x.view[k].StoredRow? || |x.view[k].row| != |t.columns| then None
    else Some(Do(Parted(x, t, id, x.view[k].row, |t.columns|), Write(k, None)))
  }

  function RowReplaced(x: Trail, t: Table, id: SqlValue, row: Row): Option<Trail> {
    var k := RowKey(t.name, id);
    if |row| != |t.columns| then None
    else if HasIndexes(t) && (k !in x.view || !x.view[k].StoredRow? || |x.view[k].row| != |t.columns|) then None
    else Some(Do(EntriesReplaced(x, t, id, row), Write(k, Some(StoredRow(row)))))
  }

  /** The entries of a row that is replaced, if the table has indexes. */
  function EntriesReplaced(x: Trail, t: Table, id: SqlValue, row: Row): Trail
    requires |row| == |t.columns|
    requires var k := RowKey(t.name, id);
             HasIndexes(t) ==> k in x.view && x.view[k].StoredRow? && |x.view[k].row| == |t.columns|
  {
    if HasIndexes(t) then Moved(x, t, id, x.view[RowKey(t.name, id)].row, row, |t.columns|) else x
  }

  function RowUpdated(x: Trail, t: Table, id: SqlValue, row: Row): Option<Trail> {
    if t.primaryKey >= |row| then None
    else if id == row[t.primaryKey] then RowReplaced(x, t, id, row)
    else
      match RowDeleted(x, t, id)
      case None => None
      case Some(y) => RowInserted(y, t, row)
  }

  function Inserted(x: Trail, t: Table, rows: seq<Row>): Option<Trail> {
    if rows == [] then Some(x)
    else
      match Inserted(x, t, rows[..|rows| - 1])
      case None => None
      case Some(y) => RowInserted(y, t, rows[|rows| - 1])
  }

  function Deleted(x: Trail, t: Table, ids: seq<SqlValue>): Option<Trail> {
    if ids == [] then Some(x)
    else
      match Deleted(x, t, ids[..|ids| - 1])
      case None => None
      case Some(y) => RowDeleted(y, t, ids[|ids| - 1])
  }

  function Updated(x: Trail, t: Table, rows: seq<(SqlValue, Row)>): Option<Trail> {
    if rows == [] then Some(x)
    else
      match Updated(x, t, rows[..|rows| - 1])
      case None => None
      case Some(y) => RowUpdated(y, t, rows[|rows| - 1].0, rows[|rows| - 1].1)
  }

  datatype Statement = Insert(rows: seq<Row>) | Delete(ids: seq<SqlValue>) | Update(changes: seq<(SqlValue, Row)>)

  function Executed(x: Trail, t: Table, s: Statement): Option<Trail> {
    match s
    case Insert(rows) => Inserted(x, t, rows)
    case Delete(ids) => Deleted(x, t, ids)
    case Update(changes) => Updated(x, t, changes)
  }

  /** The statements of a transaction, each on its table. */
  type Program = seq<(Table, Statement)>

  function Ran(x: Trail, p: Program): Option<Trail> {
    if p == [] then Some(x)
    else
      match Ran(x, p[..|p| - 1])
      case None => None
      case Some(y) => Executed(y, p[|p| - 1].0, p[|p| - 1].1)
  }

  // ---------------------------------------------------------------- what is written where

  lemma KeepsEnter(x: Trail, t: Table, c: nat, value: SqlValue, id: SqlValue)
    ensures Keeps(x, Enter(x, t, c, value, id), t)
  {
    KeepsDo(x, EntryWrite(t, c, value, Entry(x.view, t, c, value) + {id}), t);
  }

  lemma KeepsLeave(x: Trail, t: Table, c: nat, value: SqlValue, id: SqlValue)
    ensures Keeps(x, Leave(x, t, c, value, id), t)
  {
    KeepsDo(x, EntryWrite(t, c, value, Entry(x.view, t, c, value) - {id}), t);
  }

  lemma {:induction false} KeepsJoined(x: Trail, t: Table, id: SqlValue, row: Row, c: nat)
    requires c <= |t.columns| == |row|
    ensures Keeps(x, Joined(x, t, id, row, c), t)
  {
    hide Keeps, Enter;
    if c == 0 {
      KeepsSame(x, t);
    } else {
      var y, d := Joined(x, t, id, row, c - 1), c - 1;
      KeepsJoined(x, t, id, row, d);
      if t.columns[d].index {
        KeepsEnter(y, t, d, row[d], id);
        KeepsOn(x, y, Enter(y, t, d, row[d], id), t);
      }
    }
  }

  lemma {:induction false} KeepsParted(x: Trail, t: Table, id: SqlValue, row: Row, c: nat)
    requires c <= |t.columns| == |row|
    ensures Keeps(x, Parted(x, t, id, row, c), t)
  {
    hide Keeps, Leave;
    if c == 0 {
      KeepsSame(x, t);
    } else {
      var y, d := Parted(x, t, id, row, c - 1), c - 1;
      KeepsParted(x, t, id, row, d);
      if t.columns[d].index {
        KeepsLeave(y, t, d, row[d], id);
        KeepsOn(x, y, Leave(y, t, d, row[d], id), t);
      }
    }
  }

  lemma {:induction false} KeepsMoved(x: Trail, t: Table, id: SqlValue, before: Row, row: Row, c: nat)
    requires c <= |t.columns| == |before| == |row|
    ensures Keeps(x, Moved(x, t, id, before, row, c), t)
  {
    hide Keeps, Leave, Enter;
    if c == 0 {
      KeepsSame(x, t);
    } else {
      var y, d := Moved(x, t, id, before, row, c - 1), c - 1;
      KeepsMoved(x, t, id, before, row, d);
      if t.columns[d].index && before[d] != row[d] {
        var z := Leave(y, t, d, before[d], id);
        KeepsLeave(y, t, d, before[d], id);
        KeepsOn(x, y, z, t);
        KeepsEnter(z, t, d, row[d], id);
        KeepsOn(x, z, Enter(z, t, d, row[d], id), t);
      }
    }
  }

  lemma KeepsInsert(x: Trail, t: Table, row: Row)
    requires RowInserted(x, t, row).Some?
    ensures Keeps(x, RowInserted(x, t, row).value, t)
  {
    hide Keeps, Joined, Do;
    var id := row[t.primaryKey];
    var w := Write(RowKey(t.name, id), Some(StoredRow(row)));
    KeepsDo(x, w, t);
    KeepsJoined(Do(x, w), t, id, row, |t.columns|);
    KeepsOn(x, Do(x, w), Joined(Do(x, w), t, id, row, |t.columns|), t);
  }

  lemma KeepsDelete(x: Trail, t: Table, id: SqlValue)
    requires RowDeleted(x, t, id).Some?
    ensures Keeps(x, RowDeleted(x, t, id).value, t)
  {
    hide Keeps, Parted, Do;
    var k := RowKey(t.name, id);
    var y := if k in x.view then Parted(x, t, id, x.view[k].row, |t.columns|) else x;
    if k in x.view { KeepsParted(x, t, id, x.view[k].row, |t.columns|); } else { KeepsSame(x, t); }
    KeepsDo(y, Write(k, None), t);
    KeepsOn(x, y, Do(y, Write(k, None)), t);
  }

  lemma KeepsReplace(x: Trail, t: Table, id: SqlValue, row: Row)
    requires RowReplaced(x, t, id, row).Some?
    ensures Keeps(x, RowReplaced(x, t, id, row).value, t)
  {
    hide Keeps, Moved, Do, HasIndexes;
    var k, w := RowKey(t.name, id), Write(RowKey(t.name, id), Some(StoredRow(row)));
    if HasIndexes(t) {
      var y := Moved(x, t, id, x.view[k].row, row, |t.columns|);
      KeepsMoved(x, t, id, x.view[k].row, row, |t.columns|);
      KeepsDo(y, w, t);
      KeepsOn(x, y, Do(y, w), t);
    } else {
      KeepsDo(x, w, t);
    }
  }

  lemma KeepsUpdate(x: Trail, t: Table, id: SqlValue, row: Row)
    requires RowUpdated(x, t, id, row).Some?
    ensures Keeps(x, RowUpdated(x, t, id, row).value, t)
  {
    hide Keeps, RowDeleted, RowInserted, RowReplaced;
    if id == row[t.primaryKey] {
      KeepsReplace(x, t, id, row);
    } else {
      var y := RowDeleted(x, t, id).value;
      KeepsDelete(x, t, id);
      KeepsInsert(y, t, row);
      KeepsOn(x, y, RowInserted(y, t, row).value, t);
    }
  }

  lemma {:induction false} KeepsInserted(x: Trail, t: Table, rows: seq<Row>)
    requires Inserted(x, t, rows).Some?
    ensures Keeps(x, Inserted(x, t, rows).value, t)
  {
    hide Keeps, RowInserted;
    if rows == [] {
      KeepsSame(x, t);
    } else {
      var y := Inserted(x, t, rows[..|rows| - 1]).value;
      KeepsInserted(x, t, rows[..|rows| - 1]);
      KeepsInsert(y, t, rows[|rows| - 1]);
      KeepsOn(x, y, Inserted(x, t, rows).value, t);
    }
  }

  lemma {:induction false} KeepsDeleted(x: Trail, t: Table, ids: seq<SqlValue>)
    requires Deleted(x, t, ids).Some?
    ensures Keeps(x, Deleted(x, t, ids).value, t)
  {
    hide Keeps, RowDeleted;
    if ids == [] {
      KeepsSame(x, t);
    } else {
      var y := Deleted(x, t, ids[..|ids| - 1]).value;
      KeepsDeleted(x, t, ids[..|ids| - 1]);
      KeepsDelete(y, t, ids[|ids| - 1]);
      KeepsOn(x, y, Deleted(x, t, ids).value, t);
    }
  }

  lemma {:induction false} KeepsUpdated(x: Trail, t: Table, rows: seq<(SqlValue, Row)>)
    requires Updated(x, t, rows).Some?
    ensures Keeps(x, Updated(x, t, rows).value, t)
  {
    hide Keeps, RowUpdated;
    if rows == [] {
      KeepsSame(x, t);
    } else {
      var y := Updated(x, t, rows[..|rows| - 1]).value;
      KeepsUpdated(x, t, rows[..|rows| - 1]);
      KeepsUpdate(y, t, rows[|rows| - 1].0, rows[|rows| - 1].1);
      KeepsOn(x, y, Updated(x, t, rows).value, t);
    }
  }

  /** A statement writes keys of its table only. */
  lemma KeepsExecuted(x: Trail, t: Table, s: Statement)
    requires Executed(x, t, s).Some?
    ensures Keeps(x, Executed(x, t, s).value, t)
  {
    match s
    case Insert(rows) => KeepsInserted(x, t, rows);
    case Delete(ids) => KeepsDeleted(x, t, ids);
    case Update(changes) => KeepsUpdated(x, t, changes);
  }

  // ---------------------------------------------------------------- the indexes

  /** The first c values of one, the others of the other. */
  function Mixed(a: seq<Option<SqlValue>>, b: seq<Option<SqlValue>>, c: nat): (r: seq<Option<SqlValue>>)
    requires c <= |a| == |b|
    ensures |r| == |a|
  {
    a[..c] + b[c..]
  }

  lemma MixedNext(a: seq<Option<SqlValue>>, b: seq<Option<SqlValue>>, c: nat)
    requires c < |a| == |b|
    ensures Mixed(a, b, c)[c] == b[c] && Mixed(a, b, c + 1) == Mixed(a, b, c)[c := a[c]]
  {
  }

  lemma MixedEnds(a: seq<Option<SqlValue>>, b: seq<Option<SqlValue>>)
    requires |a| == |b|
    ensures Mixed(a, b, 0) == b && Mixed(a, b, |a|) == a
  {
  }

  lemma MixedSkip(v: View, t: Table, id: SqlValue, a: seq<Option<SqlValue>>, b: seq<Option<SqlValue>>, c: nat)
    requires c < |a| == |b| == |t.columns| && ColumnsWith(v, t, id, Mixed(a, b, c))
    requires !Indexed(t, c) || a[c] == b[c]
    ensures ColumnsWith(v, t, id, Mixed(a, b, c + 1))
  {
    SameColumns(v, t, id, Mixed(a, b, c), Mixed(a, b, c + 1));
  }

  /** The rows are the same and row `id` has the same values. */
  ghost predicate SameRows(v: View, w: View, t: Table, id: SqlValue) {
    && WellFormed(v, t) && WellFormed(w, t)
    && Rows(w, t) == Rows(v, t) && ValuesOf(w, t, id) == ValuesOf(v, t, id)
  }

  lemma Entered(x: Trail, t: Table, c: nat, value: SqlValue, id: SqlValue, vals: seq<Option<SqlValue>>)
    requires WellFormed(x.view, t) && ColumnsWith(x.view, t, id, vals) && Indexed(t, c) && vals[c] == None
    ensures var y := Enter(x, t, c, value, id).view;
            SameRows(x.view, y, t, id) && ColumnsWith(y, t, id, vals[c := Some(value)])
  {
    var ids := Entry(x.view, t, c, value) + {id};
    assert Enter(x, t, c, value, id).view == PutEntry(x.view, t, c, value, ids);
    ColumnOf(x.view, t, id, vals, c);
    JoinEntry(x.view, t, c, id, value);
    EntryStep(x.view, t, c, value, ids, id, vals, Some(value));
  }

  lemma Withdrawn(x: Trail, t: Table, c: nat, value: SqlValue, id: SqlValue, vals: seq<Option<SqlValue>>)
    requires WellFormed(x.view, t) && ColumnsWith(x.view, t, id, vals) && Indexed(t, c) && vals[c] == Some(value)
    ensures var y := Leave(x, t, c, value, id).view;
            SameRows(x.view, y, t, id) && ColumnsWith(y, t, id, vals[c := None])
  {
    var ids := Entry(x.view, t, c, value) - {id};
    assert Leave(x, t, c, value, id).view == PutEntry(x.view, t, c, value, ids);
    ColumnOf(x.view, t, id, vals, c);
    LeaveEntry(x.view, t, c, id, value);
    EntryStep(x.view, t, c, value, ids, id, vals, None);
  }

  lemma {:induction false} JoinedColumns(x: Trail, t: Table, id: SqlValue, row: Row, c: nat)
    requires c <= |t.columns| == |row| && WellFormed(x.view, t) && ColumnsWith(x.view, t, id, Missing(t))
    ensures var y := Joined(x, t, id, row, c).view;
            SameRows(x.view, y, t, id) && ColumnsWith(y, t, id, Mixed(Present(row), Missing(t), c))
  {
    var a, b := Present(row), Missing(t);
    hide WellFormed, Rows, ColumnsWith, Enter, ValuesOf, Mixed;
    if c == 0 {
      MixedEnds(a, b);
    } else {
      var y, d := Joined(x, t, id, row, c - 1), c - 1;
      JoinedColumns(x, t, id, row, d);
      MixedNext(a, b, d);
      if t.columns[d].index {
        Entered(y, t, d, row[d], id, Mixed(a, b, d));
      } else {
        MixedSkip(y.view, t, id, a, b, d);
      }
    }
  }

  lemma {:induction false} PartedColumns(x: Trail, t: Table, id: SqlValue, row: Row, c: nat)
    requires c <= |t.columns| == |row| && WellFormed(x.view, t) && ColumnsWith(x.view, t, id, Present(row))
    ensures var y := Parted(x, t, id, row, c).view;
            SameRows(x.view, y, t, id) && ColumnsWith(y, t, id, Mixed(Missing(t), Present(row), c))
  {
    var a, b := Missing(t), Present(row);
    hide WellFormed, Rows, ColumnsWith, Leave, ValuesOf, Mixed;
    if c == 0 {
      MixedEnds(a, b);
    } else {
      var y, d := Parted(x, t, id, row, c - 1), c - 1;
      PartedColumns(x, t, id, row, d);
      MixedNext(a, b, d);
      if t.columns[d].index {
        Withdrawn(y, t, d, row[d], id, Mixed(a, b, d));
      } else {
        MixedSkip(y.view, t, id, a, b, d);
      }
    }
  }

  lemma {:induction false} MovedColumns(x: Trail, t: Table, id: SqlValue, before: Row, row: Row, c: nat)
    requires c <= |t.columns| == |before| == |row|
    requires WellFormed(x.view, t) && ColumnsWith(x.view, t, id, Present(before))
    ensures var y := Moved(x, t, id, before, row, c).view;
            SameRows(x.view, y, t, id) && ColumnsWith(y, t, id, Mixed(Present(row), Present(before), c))
  {
    var a, b := Present(row), Present(before);
    hide WellFormed, Rows, ColumnsWith, Leave, Enter, ValuesOf, Mixed;
    if c == 0 {
      MixedEnds(a, b);
    } else {
      var y, d := Moved(x, t, id, before, row, c - 1), c - 1;
      MovedColumns(x, t, id, before, row, d);
      MixedNext(a, b, d);
      if t.columns[d].index && before[d] != row[d] {
        var m := Mixed(a, b, d);
        Withdrawn(y, t, d, before[d], id, m);
        Entered(Leave(y, t, d, before[d], id), t, d, row[d], id, m[d := None]);
        assert m[d := None][d := a[d]] == m[d := a[d]];
      } else {
        MixedSkip(y.view, t, id, a, b, d);
      }
    }
  }

  // ---------------------------------------------------------------- rows

  /** An inserted row is added, and the indexes stay correct. */
  lemma InsertOk(x: Trail, t: Table, row: Row)
    requires Consistent(x.view, t) && RowInserted(x, t, row).Some?
    ensures var y := RowInserted(x, t, row).value.view;
            && Consistent(y, t) && |row| == |t.columns| && row[t.primaryKey] !in Rows(x.view, t)
            && Rows(y, t) == Rows(x.view, t)[row[t.primaryKey] := row]
  {
    var v, id := x.view, row[t.primaryKey];
    var z := Do(x, Write(RowKey(t.name, id), Some(StoredRow(row))));
    RowsAt(v, t, id);
    hide WellFormed, Rows, ColumnsWith, ValuesOf, HasValue, Elsewhere, Joined, ColumnOk;
    ConsistentWith(v, t, id);
    NoValues(v, t, id);
    StoreRow(v, t, id, row);
    RowsApart(v, z.view, t, id, Missing(t));
    JoinedColumns(z, t, id, row, |t.columns|);
    MixedEnds(Present(row), Missing(t));
    hide Mixed;
    ConsistentWith(Joined(z, t, id, row, |t.columns|).view, t, id);
  }

  lemma DeleteOk(x: Trail, t: Table, id: SqlValue)
    requires Consistent(x.view, t)
    ensures RowDeleted(x, t, id).Some?
    ensures var y := RowDeleted(x, t, id).value.view; Consistent(y, t) && Rows(y, t) == Rows(x.view, t) - {id}
  {
    var v, k := x.view, RowKey(t.name, id);
    ConsistentWith(v, t, id);
    assert k in v ==> v[k].StoredRow? && |v[k].row| == |t.columns|;
    var y := if k in v then Parted(x, t, id, v[k].row, |t.columns|) else x;
    if k in v { OneRow(v, t, id); } else { NoValues(v, t, id); }
    hide WellFormed, Rows, ColumnsWith, Elsewhere, HasValue, ColumnOk, ValuesOf, Mixed, Parted;
    if k in v {
      PartedColumns(x, t, id, v[k].row, |t.columns|);
      MixedEnds(Missing(t), Present(v[k].row));
    }
    DropRow(y.view, t, id);
    RowsApart(y.view, y.view - {k}, t, id, Missing(t));
    ConsistentWith(y.view - {k}, t, id);
  }

  lemma ReplaceOk(x: Trail, t: Table, id: SqlValue, row: Row)
    requires Consistent(x.view, t) && t.primaryKey < |row| && row[t.primaryKey] == id
    requires RowReplaced(x, t, id, row).Some?
    ensures var y := RowReplaced(x, t, id, row).value.view;
            Consistent(y, t) && |row| == |t.columns| && Rows(y, t) == MoveRow(Rows(x.view, t), t, id, row)
  {
    var y := EntriesReplaced(x, t, id, row);
    assert RowReplaced(x, t, id, row).value.view == y.view[RowKey(t.name, id) := StoredRow(row)];
    ReplacedColumns(x, t, id, row);
    RowStored(x.view, y.view, t, id, row);
  }

  lemma RowStored(v: View, y: View, t: Table, id: SqlValue, row: Row)
    requires SameRows(v, y, t, id) && ColumnsWith(y, t, id, Present(row))
    requires |row| == |t.columns| && t.primaryKey < |row| && row[t.primaryKey] == id
    ensures var z := y[RowKey(t.name, id) := StoredRow(row)];
            Consistent(z, t) && Rows(z, t) == MoveRow(Rows(v, t), t, id, row)
  {
    hide WellFormed, Rows, ColumnsWith, Elsewhere, ValuesOf, Consistent;
    var z := y[RowKey(t.name, id) := StoredRow(row)];
    StoreRow(y, t, id, row);
    RowsApart(y, z, t, id, Present(row));
    ConsistentWith(z, t, id);
    assert (Rows(v, t) - {id})[id := row] == Rows(v, t)[id := row];
  }

  lemma ReplacedColumns(x: Trail, t: Table, id: SqlValue, row: Row)
    requires Consistent(x.view, t) && RowReplaced(x, t, id, row).Some?
    ensures var y := EntriesReplaced(x, t, id, row).view;
            SameRows(x.view, y, t, id) && ColumnsWith(y, t, id, Present(row))
  {
    var v, k := x.view, RowKey(t.name, id);
    ConsistentWith(v, t, id);
    if HasIndexes(t) {
      OneRow(v, t, id);
      hide WellFormed, Rows, ColumnsWith, HasValue, ColumnOk, ValuesOf, Mixed, Moved;
      MovedColumns(x, t, id, v[k].row, row, |t.columns|);
      MixedEnds(Present(row), Present(v[k].row));
    } else {
      NoColumns(v, t, id, Present(row));
    }
  }

  lemma UpdateOk(x: Trail, t: Table, id: SqlValue, row: Row)
    requires Consistent(x.view, t) && RowUpdated(x, t, id, row).Some?
    ensures var y := RowUpdated(x, t, id, row).value.view;
            Consistent(y, t) && |row| == |t.columns| && Rows(y, t) == MoveRow(Rows(x.view, t), t, id, row)
  {
    hide Rows, RowDeleted, RowInserted, RowReplaced, ColumnOk;
    if id == row[t.primaryKey] {
      ReplaceOk(x, t, id, row);
    } else {
      DeleteOk(x, t, id);
      InsertOk(RowDeleted(x, t, id).value, t, row);
    }
  }

  // ---------------------------------------------------------------- statements and programs

  /** The rows of the table after a statement. */
  ghost predicate RowsBecome(m: map<SqlValue, Row>, t: Table, s: Statement, m': map<SqlValue, Row>) {
    t.primaryKey < |t.columns| &&
    match s
    case Insert(rows) =>
      && (forall i :: 0 <= i < |rows| ==> |rows[i]| == |t.columns| && rows[i][t.primaryKey] !in m)
      && m' == AddRows(m, t, rows)
    case Delete(ids) => m' == m - SetOf(ids)
    case Update(changes) =>
      (forall i :: 0 <= i < |changes| ==> |changes[i].1| == |t.columns|) && m' == MoveRows(m, t, changes)
  }

  lemma {:induction false} InsertedOk(x: Trail, t: Table, rows: seq<Row>)
    requires Consistent(x.view, t) && Inserted(x, t, rows).Some?
    ensures var y := Inserted(x, t, rows).value.view;
            Consistent(y, t) && RowsBecome(Rows(x.view, t), t, Insert(rows), Rows(y, t))
  {
    hide Rows, RowInserted, ColumnOk;
    if rows != [] {
      var init, last := rows[..|rows| - 1], rows[|rows| - 1];
      InsertedOk(x, t, init);
      InsertOk(Inserted(x, t, init).value, t, last);
      AddedRows(Rows(x.view, t), t, init, |init|);
      assert init[..|init|] == init;
      forall i | 0 <= i < |rows| ensures |rows[i]| == |t.columns| && rows[i][t.primaryKey] !in Rows(x.view, t) {
        if i < |init| { assert rows[i] == init[i]; }
      }
    }
  }

  lemma {:induction false} DeletedOk(x: Trail, t: Table, ids: seq<SqlValue>)
    requires Consistent(x.view, t)
    ensures Deleted(x, t, ids).Some?
    ensures var y := Deleted(x, t, ids).value.view;
            Consistent(y, t) && RowsBecome(Rows(x.view, t), t, Delete(ids), Rows(y, t))
  {
    hide Rows, RowDeleted, ColumnOk;
    if ids != [] {
      var init, last := ids[..|ids| - 1], ids[|ids| - 1];
      DeletedOk(x, t, init);
      DeleteOk(Deleted(x, t, init).value, t, last);
      assert ids == init + [last] && SetOf(ids) == SetOf(init) + {last};
    }
  }

  lemma {:induction false} UpdatedOk(x: Trail, t: Table, rows: seq<(SqlValue, Row)>)
    requires Consistent(x.view, t) && Updated(x, t, rows).Some?
    ensures var y := Updated(x, t, rows).value.view;
            Consistent(y, t) && RowsBecome(Rows(x.view, t), t, Update(rows), Rows(y, t))
  {
    hide Rows, RowUpdated, ColumnOk;
    if rows != [] {
      var init, last := rows[..|rows| - 1], rows[|rows| - 1];
      UpdatedOk(x, t, init);
      UpdateOk(Updated(x, t, init).value, t, last.0, last.1);
      forall i | 0 <= i < |rows| ensures |rows[i].1| == |t.columns| {
        if i < |init| { assert rows[i] == init[i]; }
      }
    }
  }

  /** A statement that returns Ok does to the rows what it says, and keeps every index of the
      table correct. */
  lemma StatementOk(x: Trail, t: Table, s: Statement)
    requires Consistent(x.view, t) && Executed(x, t, s).Some?
    ensures var y := Executed(x, t, s).value.view;
            Consistent(y, t) && RowsBecome(Rows(x.view, t), t, s, Rows(y, t))
  {
    match s
    case Insert(rows) => InsertedOk(x, t, rows);
    case Delete(ids) => DeletedOk(x, t, ids);
    case Update(changes) => UpdatedOk(x, t, changes);
  }

  /** What is written elsewhere does not matter to a table. */
  lemma ConsistentElsewhere(v: View, w: View, u: Table, t: Table)
    requires Elsewhere(v, w, u) && u.name != t.name && Consistent(v, t)
    ensures Consistent(w, t)
  {
    forall c: nat | Indexed(t, c) ensures ColumnOk(w, t, c) {
      assert ColumnOk(v, t, c);
      forall x, j ensures j in Entry(w, t, c, x) <==> HasValue(w, t, j, c, x) {
        assert j in Entry(v, t, c, x) <==> HasValue(v, t, j, c, x);
        assert IndexKey(t.name, c, x).table != u.name && RowKey(t.name, j).table != u.name;
      }
    }
  }

  /** The program treats the table by its schema. */
  ghost predicate UsesSchema(p: Program, t: Table) {
    forall i :: 0 <= i < |p| && p[i].0.name == t.name ==> p[i].0 == t
  }

  /** Statements on any tables keep the indexes of a table correct, and the view is the
      snapshot overlaid with what they wrote. */
  lemma {:induction false} ProgramOk(x: Trail, p: Program, t: Table, snapshot: View)
    requires Ran(x, p).Some? && UsesSchema(p, t) && Consistent(x.view, t) && Sound(x, snapshot)
    ensures Consistent(Ran(x, p).value.view, t) && Sound(Ran(x, p).value, snapshot)
  {
    if p != [] {
      var init, last := p[..|p| - 1], p[|p| - 1];
      assert forall i :: 0 <= i < |init| ==> init[i] == p[i];
      hide Consistent, Sound, Executed, Elsewhere;
      ProgramOk(x, init, t, snapshot);
      var y := Ran(x, init).value;
      var z := Executed(y, last.0, last.1).value;
      KeepsExecuted(y, last.0, last.1);
      if last.0.name == t.name { StatementOk(y, t, last.1); } else { ConsistentElsewhere(y.view, z.view, last.0, t); }
    }
  }
}
