/** Rows and secondary indexes as a SQL transaction reads them (src/sql/engine/local.rs). */
module SqlIndex {
  import opened Basics
  import opened Keycode

  /** A SQL value, by its key encoding: values are equal if their encodings are. */
  type SqlValue = Bytes

  type Row = seq<SqlValue>

  datatype Column = Column(name: string, index: bool)

  datatype Table = Table(name: string, columns: seq<Column>, primaryKey: nat)

  /** Column names of a table are distinct, so a column is known by its position. */
  datatype SqlKey =
    | RowKey(table: string, id: SqlValue)
    | IndexKey(table: string, column: nat, value: SqlValue)

  datatype Stored = StoredRow(row: Row) | StoredIds(ids: set<SqlValue>)

  type View = map<SqlKey, Stored>

  ghost predicate IsTable(t: Table) {
    t.primaryKey < |t.columns| && !t.columns[t.primaryKey].index
  }

  predicate Indexed(t: Table, c: nat) {
    c < |t.columns| && t.columns[c].index
  }

  // ---------------------------------------------------------------- what a view says

  /** Rows are stored under their primary keys, and index entries are never empty. */
  ghost predicate WellFormed(v: View, t: Table) {
    && IsTable(t)
    && (forall id :: RowKey(t.name, id) in v ==>
          var s := v[RowKey(t.name, id)]; s.StoredRow? && |s.row| == |t.columns| && s.row[t.primaryKey] == id)
    && (forall c, x :: IndexKey(t.name, c, x) in v ==>
        v[IndexKey(t.name, c, x)].StoredIds? && v[IndexKey(t.name, c, x)].ids != {})
  }

  /** The rows of a table. */
  ghost function Rows(v: View, t: Table): map<SqlValue, Row>
    requires WellFormed(v, t)
  {
    map id | id in RowIds(v, t) :: v[RowKey(t.name, id)].row
  }

  ghost function RowIds(v: View, t: Table): set<SqlValue> {
    set k | k in v && k.RowKey? && k.table == t.name :: k.id
  }

  lemma RowIdsHas(v: View, t: Table, id: SqlValue)
    ensures id in RowIds(v, t) <==> RowKey(t.name, id) in v
  {
    if RowKey(t.name, id) in v { assert RowKey(t.name, id).id in RowIds(v, t); }
  }

  /** The index entry of a value. */
  function Entry(v: View, t: Table, c: nat, x: SqlValue): set<SqlValue> {
    var k := IndexKey(t.name, c, x);
    if k in v && v[k].StoredIds? then v[k].ids else {}
  }

  /** The row `id` exists and has value x in column c. */
  ghost predicate HasValue(v: View, t: Table, id: SqlValue, c: nat, x: SqlValue)
    requires c < |t.columns|
  {
    var k := RowKey(t.name, id);
    k in v && v[k].StoredRow? && c < |v[k].row| && v[k].row[c] == x
  }

  /** Every entry of column c holds exactly the primary keys of the rows with that value,
      with row `id` taken to have `val` instead of what is stored, if anything. */
  ghost predicate ColumnWith(v: View, t: Table, c: nat, id: SqlValue, val: Option<SqlValue>)
    requires c < |t.columns|
  {
    forall x, j :: j in Entry(v, t, c, x) <==> if j == id then val == Some(x) else HasValue(v, t, j, c, x)
  }

  /** Every entry of column c holds exactly the primary keys of the rows with that value. */
  ghost predicate ColumnOk(v: View, t: Table, c: nat)
    requires c < |t.columns|
  {
    forall x, j :: j in Entry(v, t, c, x) <==> HasValue(v, t, j, c, x)
  }

  /** Every index agrees with the rows. */
  ghost predicate Consistent(v: View, t: Table) {
    WellFormed(v, t) && forall c :: Indexed(t, c) ==> ColumnOk(v, t, c)
  }

  // ---------------------------------------------------------------- changes of a view

  function PutEntry(v: View, t: Table, c: nat, x: SqlValue, ids: set<SqlValue>): View {
    if ids == {} then v - {IndexKey(t.name, c, x)} else v[IndexKey(t.name, c, x) := StoredIds(ids)]
  }

  lemma EntryAfter(v: View, t: Table, c: nat, x: SqlValue, ids: set<SqlValue>)
    ensures var w := PutEntry(v, t, c, x, ids);
            && (forall d, y :: Entry(w, t, d, y) == if d == c && y == x then ids else Entry(v, t, d, y))
            && (forall id :: (RowKey(t.name, id) in w <==> RowKey(t.name, id) in v)
                             && (RowKey(t.name, id) in v ==> w[RowKey(t.name, id)] == v[RowKey(t.name, id)]))
            && (WellFormed(v, t) ==> WellFormed(w, t) && Rows(w, t) == Rows(v, t))
  {
    var w := PutEntry(v, t, c, x, ids);
    if WellFormed(v, t) {
      forall id ensures id in RowIds(w, t) <==> id in RowIds(v, t) { RowIdsHas(w, t, id); RowIdsHas(v, t, id); }
      assert RowIds(w, t) == RowIds(v, t);
    }
  }

  /** Changing one column's entries leaves the other columns as they are. */
  lemma OtherColumn(v: View, t: Table, c: nat, x: SqlValue, ids: set<SqlValue>, d: nat, id: SqlValue,
      val: Option<SqlValue>)
    requires d < |t.columns| && d != c && ColumnWith(v, t, d, id, val)
    ensures ColumnWith(PutEntry(v, t, c, x, ids), t, d, id, val)
  {
    EntryAfter(v, t, c, x, ids);
    var w := PutEntry(v, t, c, x, ids);
    hide PutEntry;
    forall y, j ensures j in Entry(w, t, d, y) <==> if j == id then val == Some(y) else HasValue(w, t, j, d, y) {
      assert HasValue(w, t, j, d, y) <==> HasValue(v, t, j, d, y);
    }
  }

  /** Row `id` joins or leaves the entry of its value. */
  lemma JoinEntry(v: View, t: Table, c: nat, id: SqlValue, x: SqlValue)
    requires c < |t.columns| && ColumnWith(v, t, c, id, None)
    ensures ColumnWith(PutEntry(v, t, c, x, Entry(v, t, c, x) + {id}), t, c, id, Some(x))
  {
    var ids := Entry(v, t, c, x) + {id};
    EntryAfter(v, t, c, x, ids);
    var w := PutEntry(v, t, c, x, ids);
    hide PutEntry;
    forall y, j ensures j in Entry(w, t, c, y) <==> if j == id then Some(x) == Some(y) else HasValue(w, t, j, c, y) {
      assert HasValue(w, t, j, c, y) <==> HasValue(v, t, j, c, y);
    }
  }

  lemma LeaveEntry(v: View, t: Table, c: nat, id: SqlValue, x: SqlValue)
    requires c < |t.columns| && ColumnWith(v, t, c, id, Some(x))
    ensures ColumnWith(PutEntry(v, t, c, x, Entry(v, t, c, x) - {id}), t, c, id, None)
  {
    var ids := Entry(v, t, c, x) - {id};
    EntryAfter(v, t, c, x, ids);
    var w := PutEntry(v, t, c, x, ids);
    hide PutEntry;
    forall y, j ensures j in Entry(w, t, c, y) <==> if j == id then None == Some(y) else HasValue(w, t, j, c, y) {
      assert HasValue(w, t, j, c, y) <==> HasValue(v, t, j, c, y);
    }
  }

  /** Storing or removing row `id` does not touch the entries. */
  lemma RowChange(v: View, w: View, t: Table, id: SqlValue, c: nat, val: Option<SqlValue>)
    requires c < |t.columns| && ColumnWith(v, t, c, id, val)
    requires w == v - {RowKey(t.name, id)} || exists row :: w == v[RowKey(t.name, id) := StoredRow(row)]
    ensures ColumnWith(w, t, c, id, val)
  {
    forall y, j ensures j in Entry(w, t, c, y) <==> if j == id then val == Some(y) else HasValue(w, t, j, c, y) {
      assert Entry(w, t, c, y) == Entry(v, t, c, y);
      assert j != id ==> (HasValue(w, t, j, c, y) <==> HasValue(v, t, j, c, y));
    }
  }

  /** The value row `id` has in a column. */
  ghost function ValueOf(v: View, t: Table, id: SqlValue, c: nat): Option<SqlValue>
    requires WellFormed(v, t) && c < |t.columns|
  {
    if RowKey(t.name, id) in v then Some(v[RowKey(t.name, id)].row[c]) else None
  }

  lemma ColumnOkWith(v: View, t: Table, c: nat, id: SqlValue)
    requires WellFormed(v, t) && c < |t.columns|
    ensures ColumnOk(v, t, c) <==> ColumnWith(v, t, c, id, ValueOf(v, t, id, c))
  {
    assert forall x :: HasValue(v, t, id, c, x) <==> ValueOf(v, t, id, c) == Some(x);
  }

  // ---------------------------------------------------------------- what statements do to rows

  function AddRows(m: map<SqlValue, Row>, t: Table, rows: seq<Row>): map<SqlValue, Row>
    requires t.primaryKey < |t.columns| && forall i :: 0 <= i < |rows| ==> |rows[i]| == |t.columns|
  {
    if rows == [] then m
    else
      var last := rows[|rows| - 1];
      AddRows(m, t, rows[..|rows| - 1])[last[t.primaryKey] := last]
  }

  function SetOf(ids: seq<SqlValue>): set<SqlValue> {
    set id | id in ids
  }

  /** Replaces the row `id`; a new primary key moves it. */
  function MoveRow(m: map<SqlValue, Row>, t: Table, id: SqlValue, row: Row): map<SqlValue, Row>
    requires t.primaryKey < |row|
  {
    (m - {id})[row[t.primaryKey] := row]
  }

  function MoveRows(m: map<SqlValue, Row>, t: Table, rows: seq<(SqlValue, Row)>): map<SqlValue, Row>
    requires t.primaryKey < |t.columns| && forall i :: 0 <= i < |rows| ==> |rows[i].1| == |t.columns|
  {
    if rows == [] then m
    else
      var last := rows[|rows| - 1];
      MoveRow(MoveRows(m, t, rows[..|rows| - 1]), t, last.0, last.1)
  }

  /** Nothing but keys of the table changes. */
  ghost predicate Elsewhere(v: View, w: View, t: Table) {
    forall k: SqlKey :: k.table != t.name ==> (k in v <==> k in w) && (k in v ==> w[k] == v[k])
  }

  /** Each indexed column counts row `id` as having the given value, if any. */
  ghost predicate ColumnsWith(v: View, t: Table, id: SqlValue, vals: seq<Option<SqlValue>>) {
    |vals| == |t.columns| && forall c: nat {:trigger Indexed(t, c)} :: Indexed(t, c) ==>
        ColumnWith(v, t, c, id, vals[c])
  }

  /** The values row `id` has. */
  ghost function ValuesOf(v: View, t: Table, id: SqlValue): (vals: seq<Option<SqlValue>>)
    requires WellFormed(v, t)
    ensures |vals| == |t.columns|
  {
    seq(|t.columns|, c requires 0 <= c < |t.columns| => ValueOf(v, t, id, c))
  }

  function Missing(t: Table): (vals: seq<Option<SqlValue>>)
    ensures |vals| == |t.columns|
  {
    seq(|t.columns|, _ => None)
  }

  function Present(row: Row): (vals: seq<Option<SqlValue>>)
    ensures |vals| == |row|
  {
    seq(|row|, c requires 0 <= c < |row| => Some(row[c]))
  }

  lemma RowsAt(v: View, t: Table, id: SqlValue)
    requires WellFormed(v, t)
    ensures id in Rows(v, t) <==> RowKey(t.name, id) in v
    ensures id in Rows(v, t) ==> Rows(v, t)[id] == v[RowKey(t.name, id)].row
  {
    RowIdsHas(v, t, id);
  }

  lemma StoreRow(v: View, t: Table, id: SqlValue, row: Row)
    requires WellFormed(v, t) && |row| == |t.columns| && row[t.primaryKey] == id
    ensures var w := v[RowKey(t.name, id) := StoredRow(row)];
            && WellFormed(w, t) && Rows(w, t) == Rows(v, t)[id := row] && Elsewhere(v, w, t)
            && ValuesOf(w, t, id) == Present(row)
  {
    var w := v[RowKey(t.name, id) := StoredRow(row)];
    assert WellFormed(w, t);
    StoredRows(v, w, t, id, row);
    OneRow(w, t, id);
    hide WellFormed, Rows;
  }

  lemma OneRow(v: View, t: Table, id: SqlValue)
    requires WellFormed(v, t) && RowKey(t.name, id) in v
    ensures ValuesOf(v, t, id) == Present(v[RowKey(t.name, id)].row)
  {
  }

  lemma StoredRows(v: View, w: View, t: Table, id: SqlValue, row: Row)
    requires WellFormed(v, t) && WellFormed(w, t) && w == v[RowKey(t.name, id) := StoredRow(row)]
    ensures Rows(w, t) == Rows(v, t)[id := row]
  {
    var a, b := Rows(w, t), Rows(v, t)[id := row];
    hide Rows, WellFormed;
    forall j ensures (j in a <==> j in b) && (j in a ==> a[j] == b[j]) {
      RowsAt(w, t, j);
      RowsAt(v, t, j);
    }
  }

  lemma DropRow(v: View, t: Table, id: SqlValue)
    requires WellFormed(v, t)
    ensures var w := v - {RowKey(t.name, id)};
            && WellFormed(w, t) && Rows(w, t) == Rows(v, t) - {id} && Elsewhere(v, w, t)
            && ValuesOf(w, t, id) == Missing(t)
  {
    var w := v - {RowKey(t.name, id)};
    assert WellFormed(w, t);
    DroppedRows(v, w, t, id);
    NoValues(w, t, id);
    hide WellFormed, Rows;
  }

  lemma DroppedRows(v: View, w: View, t: Table, id: SqlValue)
    requires WellFormed(v, t) && WellFormed(w, t) && w == v - {RowKey(t.name, id)}
    ensures Rows(w, t) == Rows(v, t) - {id}
  {
    var a, b := Rows(w, t), Rows(v, t) - {id};
    hide Rows, WellFormed;
    forall j ensures (j in a <==> j in b) && (j in a ==> a[j] == b[j]) {
      RowsAt(w, t, j);
      RowsAt(v, t, j);
    }
  }

  /** The indexes agree exactly if each column counts row `id` as what is stored. */
  lemma ConsistentWith(v: View, t: Table, id: SqlValue)
    requires WellFormed(v, t)
    ensures Consistent(v, t) <==> ColumnsWith(v, t, id, ValuesOf(v, t, id))
  {
    forall c: nat | Indexed(t, c) ensures ColumnOk(v, t, c) <==> ColumnWith(v, t, c, id, ValuesOf(v, t, id)[c]) {
      ColumnOkWith(v, t, c, id);
    }
    hide WellFormed, ColumnOk, ColumnWith;
  }

  /** A row may be stored or removed before or after the columns. */
  lemma RowsApart(v: View, w: View, t: Table, id: SqlValue, vals: seq<Option<SqlValue>>)
    requires ColumnsWith(v, t, id, vals)
    requires w == v - {RowKey(t.name, id)} || exists row :: w == v[RowKey(t.name, id) := StoredRow(row)]
    ensures ColumnsWith(w, t, id, vals)
  {
    forall c: nat | Indexed(t, c) ensures ColumnWith(w, t, c, id, vals[c]) { RowChange(v, w, t, id, c, vals[c]); }
  }

  /** What a change of one entry does. */
  lemma EntryStep(v: View, t: Table, c: nat, x: SqlValue, ids: set<SqlValue>, id: SqlValue, vals: seq<Option<SqlValue>>,
      val: Option<SqlValue>)
    requires WellFormed(v, t) && ColumnsWith(v, t, id, vals) && c < |t.columns|
    requires ColumnWith(PutEntry(v, t, c, x, ids), t, c, id, val)
    ensures var w := PutEntry(v, t, c, x, ids);
            && WellFormed(w, t) && Rows(w, t) == Rows(v, t) && Elsewhere(v, w, t) &&
                ValuesOf(w, t, id) == ValuesOf(v, t, id)
            && ColumnsWith(w, t, id, vals[c := val])
  {
    var w := PutEntry(v, t, c, x, ids);
    EntryElsewhere(v, t, c, x, ids);
    EntryAfter(v, t, c, x, ids);
    SameValues(v, w, t, id);
    EntryColumns(v, t, c, x, ids, id, vals, val);
  }

  lemma EntryElsewhere(v: View, t: Table, c: nat, x: SqlValue, ids: set<SqlValue>)
    ensures Elsewhere(v, PutEntry(v, t, c, x, ids), t)
  {
  }

  lemma SameValues(v: View, w: View, t: Table, id: SqlValue)
    requires WellFormed(v, t) && WellFormed(w, t)
    requires RowKey(t.name, id) in w <==> RowKey(t.name, id) in v
    requires RowKey(t.name, id) in v ==> w[RowKey(t.name, id)] == v[RowKey(t.name, id)]
    ensures ValuesOf(w, t, id) == ValuesOf(v, t, id)
  {
  }

  lemma EntryColumns(v: View, t: Table, c: nat, x: SqlValue, ids: set<SqlValue>, id: SqlValue,
      vals: seq<Option<SqlValue>>, val: Option<SqlValue>)
    requires ColumnsWith(v, t, id, vals) && c < |t.columns| && ColumnWith(PutEntry(v, t, c, x, ids), t, c, id, val)
    ensures ColumnsWith(PutEntry(v, t, c, x, ids), t, id, vals[c := val])
  {
    var w := PutEntry(v, t, c, x, ids);
    hide PutEntry, ColumnWith;
    forall d: nat | Indexed(t, d) ensures ColumnWith(w, t, d, id, vals[c := val][d]) {
      if d != c { OtherColumn(v, t, c, x, ids, d, id, vals[d]); }
    }
  }

  predicate HasIndexes(t: Table) {
    exists c :: 0 <= c < |t.columns| && t.columns[c].index
  }

  lemma NoColumns(v: View, t: Table, id: SqlValue, vals: seq<Option<SqlValue>>)
    requires !HasIndexes(t) && |vals| == |t.columns|
    ensures ColumnsWith(v, t, id, vals)
  {
  }

  lemma NoValues(v: View, t: Table, id: SqlValue)
    requires WellFormed(v, t) && RowKey(t.name, id) !in v
    ensures ValuesOf(v, t, id) == Missing(t)
  {
  }

  /** Inserting keeps what was there. */
  lemma {:induction false} AddedRows(m: map<SqlValue, Row>, t: Table, rows: seq<Row>, i: nat)
    requires t.primaryKey < |t.columns| && i <= |rows| && forall j :: 0 <= j < i ==> |rows[j]| == |t.columns|
    ensures forall id :: id in m ==> id in AddRows(m, t, rows[..i])
  {
    if i > 0 {
      AddedRows(m, t, rows, i - 1);
      assert rows[..i][..i - 1] == rows[..i - 1];
    }
  }

  lemma ElsewhereOn(u: View, v: View, w: View, t: Table)
    requires Elsewhere(u, v, t) && Elsewhere(v, w, t)
    ensures Elsewhere(u, w, t)
  {
  }

  lemma ColumnOf(v: View, t: Table, id: SqlValue, vals: seq<Option<SqlValue>>, c: nat)
    requires ColumnsWith(v, t, id, vals) && Indexed(t, c)
    ensures c < |vals| && ColumnWith(v, t, c, id, vals[c])
  {
  }

  /** Only indexed columns count. */
  lemma SameColumns(v: View, t: Table, id: SqlValue, vals: seq<Option<SqlValue>>, vals': seq<Option<SqlValue>>)
    requires ColumnsWith(v, t, id, vals) && |vals'| == |t.columns| == |vals|
    requires forall d :: 0 <= d < |t.columns| && Indexed(t, d) ==> vals'[d] == vals[d]
    ensures ColumnsWith(v, t, id, vals')
  {
  }
}
