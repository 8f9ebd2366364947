/** Joins (src/sql/execution/join.rs): the nested-loop and the hash joiner as resumable
    iterators, and exactly when they give the same rows. */
module SqlJoin {

  datatype Number = NaN | Infinite(negative: bool) | Finite(value: real)

  datatype Value =
    | Null
    | Boolean(bool)
    | Integer(int)
    | Float(Number)
    | Text(string)

  type Row = seq<Value>

  /** NULL and NaN. */
  predicate Undefined(v: Value) {
    v.Null? || v == Float(NaN)
  }

  /** What a join predicate says of a joined row. */
  datatype Truth = Yes | No | Fails

  /** Equality as expressions evaluate it: numbers compare across types, NULL and NaN equal
      nothing, and values of other types cannot be compared. */
  function Equals(a: Value, b: Value): Truth {
    match (a, b)
    case (Null, _) => No
    case (_, Null) => No
    case (Boolean(x), Boolean(y)) => if x == y then Yes else No
    case (Integer(x), Integer(y)) => if x == y then Yes else No
    case (Integer(x), Float(y)) => if y == Finite(x as real) then Yes else No
    case (Float(x), Integer(y)) => if x == Finite(y as real) then Yes else No
    case (Float(x), Float(y)) => if x == y && !x.NaN? then Yes else No
    case (Text(x), Text(y)) => if x == y then Yes else No
    case _ => Fails
  }

  /** All that iterating yields: rows, and whether it ends with an error. */
  datatype Output = Output(rows: seq<Row>, failed: bool)

  function Then(row: Row, o: Output): Output {
    Output([row] + o.rows, o.failed)
  }

  function Before(rows: seq<Row>, o: Output): Output {
    Output(rows + o.rows, o.failed)
  }

  function Nulls(n: nat): Row {
    seq(n, _ => Null)
  }

  // ---------------------------------------------------------------- the joiners' meaning

  /** What a nested-loop joiner in a given state still yields. */
  function Nested(left: seq<Row>, right: seq<Row>, original: seq<Row>, matched: bool, columns: nat, on: Row -> Truth,
      outer: bool): Output
    decreases |left|, |right|, if matched then 0 else 1
  {
    if left == [] then Output([], false)
    else if right == [] then
      if !matched && outer then Then(left[0] + Nulls(columns), Nested(left, [], original, true, columns, on, outer))
      else Nested(left[1..], original, original, false, columns, on, outer)
    else
      match on(left[0] + right[0])
      case Yes => Then(left[0] + right[0], Nested(left, right[1..], original, true, columns, on, outer))
      case No => Nested(left, right[1..], original, matched, columns, on, outer)
      case Fails => Output([], true)
  }

  datatype Item = Joined(row: Row) | End | Error

  class NestedLoopJoiner {
    var left: seq<Row>
    var right: seq<Row>
    const rightOriginal: seq<Row>
    const rightColumns: nat
    var rightMatched: bool
    const on: Row -> Truth
    const outer: bool

    ghost function Pending(): Output
      reads this
    {
      Nested(left, right, rightOriginal, rightMatched, rightColumns, on, outer)
    }

    constructor (left: seq<Row>, right: seq<Row>, rightColumns: nat, on: Row -> Truth, outer: bool)
      ensures Pending() == Nested(left, right, right, false, rightColumns, on, outer)
    {
      this.left, this.right := left, right;
      this.rightOriginal, this.rightColumns := right, rightColumns;
      this.rightMatched, this.on, this.outer := false, on, outer;
    }

    /** The next joined row. */
    method TryNext() returns (item: Item)
      modifies this
      ensures match item
              case Joined(row) => old(Pending()) == Then(row, Pending())
              case End => old(Pending()) == Output([], false)
              case Error => old(Pending()) == Output([], true)
    {
      while left != []
        invariant Pending() == old(Pending())
        decreases |left|
      {
        var l := left;
        while right != []
          invariant left == l && Pending() == old(Pending())
          decreases |right|
        {
          var row := left[0] + right[0];
          right := right[1..];
          match on(row)
          case Yes =>
            rightMatched := true;
            return Joined(row);
          case No =>
          case Fails => return Error;
        }
        if !rightMatched && outer {
          rightMatched := true;
          return Joined(left[0] + Nulls(rightColumns));
        }
        right := rightOriginal;
        rightMatched := false;
        left := left[1..];
      }
      return End;
    }
  }

  /** Each left row has the column to join on. */
  predicate HasColumn(rows: seq<Row>, c: nat) {
    forall i :: 0 <= i < |rows| ==> c < |rows[i]|
  }

  function JoinAll(l: Row, rs: seq<Row>): seq<Row> {
    seq(|rs|, i requires 0 <= i < |rs| => l + rs[i])
  }

  /** What a hash joiner without pending rows still yields. */
  function Hashed(left: seq<Row>, leftColumn: nat, right: map<Value, seq<Row>>, columns: nat, outer: bool): seq<Row>
    requires HasColumn(left, leftColumn)
  {
    if left == [] then []
    else
      var l := left[0];
      (if l[leftColumn] in right then JoinAll(l, right[l[leftColumn]]) else if outer then [l + Nulls(columns)] else [])
      + Hashed(left[1..], leftColumn, right, columns, outer)
  }

  /** The rows with a value in a column, in order. */
  function Having(rows: seq<Row>, c: nat, v: Value): seq<Row>
    requires HasColumn(rows, c)
  {
    if rows == [] then []
    else
      var init, last := rows[..|rows| - 1], rows[|rows| - 1];
      Having(init, c, v) + if last[c] == v then [last] else []
  }

  /** The table holds, under each defined value that occurs, the rows that have it. */
  ghost predicate IsTable(table: map<Value, seq<Row>>, rows: seq<Row>, c: nat)
    requires HasColumn(rows, c)
  {
    && (forall v :: v in table ==> !Undefined(v) && table[v] == Having(rows, c, v) && table[v] != [])
    && (forall v :: !Undefined(v) && v !in table ==> Having(rows, c, v) == [])
  }

  class HashJoiner {
    var left: seq<Row>
    const leftColumn: nat
    const right: map<Value, seq<Row>>
    const rightColumns: nat
    const outer: bool
    var pending: seq<Row>

    ghost predicate Valid()
      reads this
    {
      HasColumn(left, leftColumn) && forall v :: v in right ==> right[v] != []
    }

    ghost function Pending(): seq<Row>
      requires Valid()
      reads this
    {
      pending + Hashed(left, leftColumn, right, rightColumns, outer)
    }

    /** Builds the table of the right rows. */
    constructor (left: seq<Row>, leftColumn: nat, rows: seq<Row>, rightColumn: nat, rightColumns: nat, outer: bool)
      requires HasColumn(left, leftColumn) && HasColumn(rows, rightColumn)
      ensures Valid() && IsTable(right, rows, rightColumn)
      ensures Pending() == Hashed(left, leftColumn, right, rightColumns, outer)
    {
      this.left, this.leftColumn, this.rightColumns, this.outer := left, leftColumn, rightColumns, outer;
      var table: map<Value, seq<Row>> := map[];
      for i := 0 to |rows|
        invariant HasColumn(rows[..i], rightColumn) && IsTable(table, rows[..i], rightColumn)
      {
        var v := rows[i][rightColumn];
        assert rows[..i + 1][..i] == rows[..i];
        if !Undefined(v) {
          table := table[v := (if v in table then table[v] else []) + [rows[i]]];
        }
      }
      assert rows[..|rows|] == rows;
      right := table;
      pending := [];
    }

    /** The next joined row. */
    method TryNext() returns (item: Item)
      requires Valid()
      modifies this
      ensures Valid()
      ensures match item
              case Joined(row) => old(Pending()) == [row] + Pending()
              case End => old(Pending()) == []
              case Error => false
    {
      if pending != [] {
        var row := pending[0];
        pending := pending[1..];
        return Joined(row);
      }
      while left != []
        invariant Valid() && pending == [] && Pending() == old(Pending())
        decreases |left|
      {
        var l := left[0];
        left := left[1..];
        if l[leftColumn] in right {
          pending := JoinAll(l, right[l[leftColumn]]);
          var row := pending[0];
          pending := pending[1..];
          return Joined(row);
        } else if outer {
          return Joined(l + Nulls(rightColumns));
        }
      }
      return End;
    }
  }

  // ---------------------------------------------------------------- the same rows

  /** The joined rows of one left row, under a match relation. */
  function Matches(l: Row, lc: nat, rs: seq<Row>, rc: nat, m: (Value, Value) -> bool): seq<Row>
    requires lc < |l| && HasColumn(rs, rc)
  {
    if rs == [] then []
    else (if m(l[lc], rs[0][rc]) then [l + rs[0]] else []) + Matches(l, lc, rs[1..], rc, m)
  }

  function RowsOf(l: Row, lc: nat, rs: seq<Row>, rc: nat, m: (Value, Value) -> bool, columns: nat, outer: bool)
    : seq<Row>
    requires lc < |l| && HasColumn(rs, rc)
  {
    var found := Matches(l, lc, rs, rc, m);
    if found == [] && outer then [l + Nulls(columns)] else found
  }

  /** The join: each left row with its matches, or with nulls in an outer join. */
  function Join(left: seq<Row>, lc: nat, rs: seq<Row>, rc: nat, m: (Value, Value) -> bool, columns: nat, outer: bool)
    : seq<Row>
    requires HasColumn(left, lc) && HasColumn(rs, rc)
  {
    if left == [] then []
    else RowsOf(left[0], lc, rs, rc, m, columns, outer) + Join(left[1..], lc, rs, rc, m, columns, outer)
  }

  predicate HashMatch(a: Value, b: Value) {
    a == b && !Undefined(b)
  }

  predicate EqualMatch(a: Value, b: Value) {
    Equals(a, b) == Yes
  }

  /** The predicate that compares a left column with a right one, given the left width. */
  function OnColumns(width: nat, lc: nat, rc: nat): Row -> Truth {
    row => if lc < |row| && width + rc < |row| then Equals(row[lc], row[width + rc]) else Fails
  }

  /** Every left row has the same number of columns. */
  predicate Width(left: seq<Row>, width: nat) {
    forall i :: 0 <= i < |left| ==> |left[i]| == width
  }

  lemma {:induction false} HavingMatches(l: Row, lc: nat, rs: seq<Row>, rc: nat)
    requires lc < |l| && HasColumn(rs, rc)
    ensures Matches(l, lc, rs, rc, HashMatch) == if Undefined(l[lc]) then [] else JoinAll(l, Having(rs, rc, l[lc]))
    decreases |rs|
  {
    if rs != [] {
      var init, last := rs[..|rs| - 1], rs[|rs| - 1];
      HavingMatches(l, lc, init, rc);
      MatchesLast(l, lc, rs, rc, HashMatch);
    }
  }

  lemma {:induction false} MatchesLast(l: Row, lc: nat, rs: seq<Row>, rc: nat, m: (Value, Value) -> bool)
    requires lc < |l| && HasColumn(rs, rc) && rs != []
    ensures var init, last := rs[..|rs| - 1], rs[|rs| - 1];
            Matches(l, lc, rs, rc, m) == Matches(l, lc, init, rc, m) + if m(l[lc], last[rc]) then [l + last] else []
    decreases |rs|
  {
    var init, last := rs[..|rs| - 1], rs[|rs| - 1];
    if |rs| > 1 {
      MatchesLast(l, lc, rs[1..], rc, m);
      assert rs[1..][..|rs| - 2] == init[1..];
    }
  }

  /** The hash joiner computes the join under equality of keys. */
  lemma {:induction false} HashIsJoin(left: seq<Row>, lc: nat, rs: seq<Row>, rc: nat, table: map<Value, seq<Row>>,
      columns: nat, outer: bool)
    requires HasColumn(left, lc) && HasColumn(rs, rc) && IsTable(table, rs, rc)
    ensures Hashed(left, lc, table, columns, outer) == Join(left, lc, rs, rc, HashMatch, columns, outer)
  {
    if left != [] {
      HavingMatches(left[0], lc, rs, rc);
      HashIsJoin(left[1..], lc, rs, rc, table, columns, outer);
    }
  }

  /** Some pair cannot be compared. */
  ghost predicate Incomparable(left: seq<Row>, lc: nat, rs: seq<Row>, rc: nat)
    requires HasColumn(left, lc) && HasColumn(rs, rc)
  {
    exists i, j :: 0 <= i < |left| && 0 <= j < |rs| && Equals(left[i][lc], rs[j][rc]) == Fails
  }

  lemma NestedOne(left: seq<Row>, right: seq<Row>, original: seq<Row>, matched: bool, columns: nat, on: Row -> Truth,
      outer: bool)
    requires left != [] && right != []
    ensures var row := left[0] + right[0];
            Nested(left, right, original, matched, columns, on, outer) ==
              match on(row)
              case Yes => Then(row, Nested(left, right[1..], original, true, columns, on, outer))
              case No => Nested(left, right[1..], original, matched, columns, on, outer)
              case Fails => Output([], true)
  {
  }

  lemma NestedEnd(left: seq<Row>, original: seq<Row>, matched: bool, columns: nat, on: Row -> Truth, outer: bool)
    requires left != []
    ensures Nested(left, [], original, matched, columns, on, outer) ==
              Before(if !matched && outer then [left[0] + Nulls(columns)]
                  else [], Nested(left[1..], original, original, false, columns, on, outer))
  {
    assert Nested(left, [], original, true, columns, on, outer) ==
        Nested(left[1..], original, original, false, columns, on, outer);
  }

  /** The rows of one left row: its matches, or a row of nulls if it needs one. */
  function WithNulls(found: seq<Row>, needed: bool, nulls: Row): seq<Row> {
    found + if found == [] && needed then [nulls] else []
  }

  /** The rest of one left row, when every comparison succeeds. */
  lemma {:induction false} NestedRow(left: seq<Row>, lc: nat, right: seq<Row>, rc: nat, original: seq<Row>,
      matched: bool, columns: nat, width: nat, outer: bool)
    requires left != [] && HasColumn(left, lc) && HasColumn(right, rc) && |left[0]| == width
    requires forall j :: 0 <= j < |right| ==> Equals(left[0][lc], right[j][rc]) != Fails
    ensures Nested(left, right, original, matched, columns, OnColumns(width, lc, rc), outer) ==
              Before(WithNulls(Matches(left[0], lc, right, rc, EqualMatch), !matched &&
                  outer, left[0] + Nulls(columns)),
                     Nested(left[1..], original, original, false, columns, OnColumns(width, lc, rc), outer))
    decreases |right|
  {
    var on := OnColumns(width, lc, rc);
    if right == [] {
      hide Nested, Equals;
      NestedEnd(left, original, matched, columns, on, outer);
    } else {
      var row := left[0] + right[0];
      assert on(row) == Equals(left[0][lc], right[0][rc]);
      TailCompares(left[0][lc], right, rc);
      hide *;
      MatchesFirst(left[0], lc, right, rc);
      NestedOne(left, right, original, matched, columns, on, outer);
      NestedRow(left, lc, right[1..], rc, original, matched || on(row) == Yes, columns, width, outer);
      var rest := Matches(left[0], lc, right[1..], rc, EqualMatch);
      var after := Nested(left[1..], original, original, false, columns, on, outer);
      if on(row) == Yes {
        ThenRest(row, rest, left[0] + Nulls(columns), !matched && outer, after);
      } else {
        assert [] + rest == rest;
      }
    }
  }

  lemma TailCompares(x: Value, rows: seq<Row>, c: nat)
    requires rows != [] && HasColumn(rows, c) && forall j :: 0 <= j < |rows| ==> Equals(x, rows[j][c]) != Fails
    ensures HasColumn(rows[1..], c) && c < |rows[0]| && Equals(x, rows[0][c]) != Fails
    ensures forall j :: 0 <= j < |rows[1..]| ==> Equals(x, rows[1..][j][c]) != Fails
  {
    hide Equals;
  }

  /** A match comes first, and then no row of nulls is needed. */
  lemma ThenRest(row: Row, rest: seq<Row>, nulls: Row, needed: bool, o: Output)
    ensures Then(row, Before(WithNulls(rest, false, nulls), o)) == Before(WithNulls([row] + rest, needed, nulls), o)
    ensures [] + rest == rest
  {
  }

  /** The first right row is a match, or makes no difference. */
  lemma MatchesFirst(l: Row, lc: nat, rs: seq<Row>, rc: nat)
    requires rs != [] && lc < |l| && HasColumn(rs, rc)
    ensures Matches(l, lc, rs, rc, EqualMatch)
         == (if Equals(l[lc], rs[0][rc]) == Yes then [l + rs[0]] else []) + Matches(l, lc, rs[1..], rc, EqualMatch)
  {
  }

  /** A comparison that fails ends the iteration. */
  lemma {:induction false} NestedRowFails(left: seq<Row>, lc: nat, right: seq<Row>, rc: nat, original: seq<Row>,
      matched: bool, columns: nat, width: nat, outer: bool, j: nat)
    requires left != [] && HasColumn(left, lc) && HasColumn(right, rc) && |left[0]| == width
    requires j < |right| && Equals(left[0][lc], right[j][rc]) == Fails
    ensures Nested(left, right, original, matched, columns, OnColumns(width, lc, rc), outer).failed
    decreases |right|
  {
    var on, row := OnColumns(width, lc, rc), left[0] + right[0];
    assert on(row) == Equals(left[0][lc], right[0][rc]);
    if j > 0 && on(row) != Fails {
      NestedRowFails(left, lc, right[1..], rc, original, matched || on(row) == Yes, columns, width, outer, j - 1);
    }
  }

  /** The nested-loop joiner computes the join under evaluated equality, or fails. */
  lemma {:induction false} NestedIsJoin(left: seq<Row>, lc: nat, rs: seq<Row>, rc: nat, columns: nat, width: nat,
      outer: bool)
    requires HasColumn(left, lc) && HasColumn(rs, rc) && Width(left, width)
    ensures var o := Nested(left, rs, rs, false, columns, OnColumns(width, lc, rc), outer);
            && (o.failed <==> Incomparable(left, lc, rs, rc))
            && (!o.failed ==> o.rows == Join(left, lc, rs, rc, EqualMatch, columns, outer))
  {
    hide Equals, OnColumns, Matches;
    if left != [] {
      if j :| 0 <= j < |rs| && Equals(left[0][lc], rs[j][rc]) == Fails {
        hide Nested;
        NestedRowFails(left, lc, rs, rc, rs, false, columns, width, outer, j);
      } else {
        hide Nested;
        NestedRow(left, lc, rs, rc, rs, false, columns, width, outer);
        NestedIsJoin(left[1..], lc, rs, rc, columns, width, outer);
        IncomparableTail(left, lc, rs, rc);
      }
    }
  }

  lemma IncomparableTail(left: seq<Row>, lc: nat, rs: seq<Row>, rc: nat)
    requires left != [] && HasColumn(left, lc) && HasColumn(rs, rc)
    requires forall j :: 0 <= j < |rs| ==> Equals(left[0][lc], rs[j][rc]) != Fails
    ensures Incomparable(left, lc, rs, rc) <==> Incomparable(left[1..], lc, rs, rc)
  {
    hide Equals;
    if Incomparable(left, lc, rs, rc) {
      var i, j :| 0 <= i < |left| && 0 <= j < |rs| && Equals(left[i][lc], rs[j][rc]) == Fails;
      assert left[1..][i - 1] == left[i];
    }
    if Incomparable(left[1..], lc, rs, rc) {
      var i, j :| 0 <= i < |left[1..]| && 0 <= j < |rs| && Equals(left[1..][i][lc], rs[j][rc]) == Fails;
      assert left[1..][i] == left[i + 1];
    }
  }

  /** The two relations agree on a pair of values. */
  predicate Agree(a: Value, b: Value) {
    Equals(a, b) != Fails && (EqualMatch(a, b) <==> HashMatch(a, b))
  }

  predicate Numeric(v: Value) {
    v.Integer? || v.Float?
  }

  predicate SameType(a: Value, b: Value) {
    (a.Boolean? && b.Boolean?) || (a.Integer? && b.Integer?) || (a.Float? && b.Float?) || (a.Text? && b.Text?)
  }

  /** Which pairs: unless a value is NULL or the types are the same, they must be an integer
      and a float that are different numbers. */
  lemma AgreeExactly(a: Value, b: Value)
    ensures Agree(a, b) <==>
              a.Null? || b.Null? || SameType(a, b) || (Numeric(a) && Numeric(b) && Equals(a, b) == No)
  {
  }

  /** Every pair of rows agrees. */
  ghost predicate AllAgree(left: seq<Row>, lc: nat, rs: seq<Row>, rc: nat)
    requires HasColumn(left, lc) && HasColumn(rs, rc)
  {
    forall i, j :: 0 <= i < |left| && 0 <= j < |rs| ==> Agree(left[i][lc], rs[j][rc])
  }

  lemma {:induction false} SameMatches(l: Row, lc: nat, rs: seq<Row>, rc: nat)
    requires lc < |l| && HasColumn(rs, rc) && forall j :: 0 <= j < |rs| ==> Agree(l[lc], rs[j][rc])
    ensures Matches(l, lc, rs, rc, EqualMatch) == Matches(l, lc, rs, rc, HashMatch)
  {
    if rs != [] { SameMatches(l, lc, rs[1..], rc); }
  }

  lemma {:induction false} SameJoin(left: seq<Row>, lc: nat, rs: seq<Row>, rc: nat, columns: nat, outer: bool)
    requires HasColumn(left, lc) && HasColumn(rs, rc) && AllAgree(left, lc, rs, rc)
    ensures Join(left, lc, rs, rc, EqualMatch, columns, outer) == Join(left, lc, rs, rc, HashMatch, columns, outer)
  {
    if left != [] {
      SameMatches(left[0], lc, rs, rc);
      SameJoin(left[1..], lc, rs, rc, columns, outer);
    }
  }

  /** Equality of keys finds no more rows, and as many only if it finds the same. */
  lemma {:induction false} FewerMatches(l: Row, lc: nat, rs: seq<Row>, rc: nat)
    requires lc < |l| && HasColumn(rs, rc)
    ensures var h, e := Matches(l, lc, rs, rc, HashMatch), Matches(l, lc, rs, rc, EqualMatch);
            && |h| <= |e|
            && (|h| == |e| ==> forall j :: 0 <= j < |rs| ==>
                (EqualMatch(l[lc], rs[j][rc]) <==> HashMatch(l[lc], rs[j][rc])))
  {
    if rs != [] {
      FewerMatches(l, lc, rs[1..], rc);
      assert HashMatch(l[lc], rs[0][rc]) ==> EqualMatch(l[lc], rs[0][rc]);
      var h, e := Matches(l, lc, rs, rc, HashMatch), Matches(l, lc, rs, rc, EqualMatch);
      if |h| == |e| {
        forall j | 0 <= j < |rs| ensures EqualMatch(l[lc], rs[j][rc]) <==> HashMatch(l[lc], rs[j][rc]) {
          if j > 0 { assert rs[1..][j - 1] == rs[j]; }
        }
      }
    }
  }

  /** A match never looks like a row of nulls. */
  lemma {:induction false} MatchesNotNull(l: Row, lc: nat, rs: seq<Row>, rc: nat, columns: nat)
    requires lc < |l| && HasColumn(rs, rc)
    ensures l + Nulls(columns) !in Matches(l, lc, rs, rc, EqualMatch)
  {
    if rs != [] {
      MatchesNotNull(l, lc, rs[1..], rc, columns);
      if l + rs[0] == l + Nulls(columns) {
        assert (l + rs[0])[|l| + rc] == rs[0][rc] && (l + Nulls(columns))[|l| + rc] == Null;
      }
    }
  }

  lemma SameRows(l: Row, lc: nat, rs: seq<Row>, rc: nat, columns: nat, outer: bool)
    requires lc < |l| && HasColumn(rs, rc)
    ensures var h, e := RowsOf(l, lc, rs, rc, HashMatch, columns, outer),
        RowsOf(l, lc, rs, rc, EqualMatch, columns, outer);
            && |h| <= |e|
            && (h == e ==> forall j :: 0 <= j < |rs| ==>
                (EqualMatch(l[lc], rs[j][rc]) <==> HashMatch(l[lc], rs[j][rc])))
  {
    FewerMatches(l, lc, rs, rc);
    MatchesNotNull(l, lc, rs, rc, columns);
    var h, e := RowsOf(l, lc, rs, rc, HashMatch, columns, outer), RowsOf(l, lc, rs, rc, EqualMatch, columns, outer);
  }

  lemma {:induction false} JoinsApart(left: seq<Row>, lc: nat, rs: seq<Row>, rc: nat, columns: nat, outer: bool)
    requires HasColumn(left, lc) && HasColumn(rs, rc)
    ensures var h, e := Join(left, lc, rs, rc, HashMatch, columns, outer),
        Join(left, lc, rs, rc, EqualMatch, columns, outer);
            && |h| <= |e|
            && (h == e ==> forall i, j :: 0 <= i < |left| && 0 <= j < |rs| ==>
                (EqualMatch(left[i][lc], rs[j][rc]) <==> HashMatch(left[i][lc], rs[j][rc])))
  {
    if left != [] {
      SameRows(left[0], lc, rs, rc, columns, outer);
      JoinsApart(left[1..], lc, rs, rc, columns, outer);
      var h0, e0 := RowsOf(left[0], lc, rs, rc, HashMatch, columns, outer),
          RowsOf(left[0], lc, rs, rc, EqualMatch, columns, outer);
      var h1, e1 := Join(left[1..], lc, rs, rc, HashMatch, columns, outer),
          Join(left[1..], lc, rs, rc, EqualMatch, columns, outer);
      if h0 + h1 == e0 + e1 {
        SplitEqual(h0, h1, e0, e1);
        forall i, j | 0 <= i < |left| && 0 <= j < |rs| ensures EqualMatch(left[i][lc], rs[j][rc]) <==>
            HashMatch(left[i][lc], rs[j][rc]) {
          if i > 0 { assert left[1..][i - 1] == left[i]; }
        }
      }
    }
  }

  lemma SplitEqual(a: seq<Row>, b: seq<Row>, c: seq<Row>, d: seq<Row>)
    requires a + b == c + d && |a| <= |c| && |b| <= |d|
    ensures a == c && b == d
  {
    assert |a| == |c|;
    assert a == (a + b)[..|a|] == (c + d)[..|c|] == c;
    assert b == (a + b)[|a|..] == (c + d)[|c|..] == d;
  }

  /** Join equivalence: draining the hash joiner gives the same as draining the nested-loop
      joiner with the column-equality predicate exactly if key equality and evaluated equality
      agree on every pair of rows. */
  lemma JoinsEquivalent(left: seq<Row>, lc: nat, rs: seq<Row>, rc: nat, table: map<Value, seq<Row>>, columns: nat,
      width: nat, outer: bool)
    requires HasColumn(left, lc) && HasColumn(rs, rc) && Width(left, width) && IsTable(table, rs, rc)
    ensures var nested := Nested(left, rs, rs, false, columns, OnColumns(width, lc, rc), outer);
            nested == Output(Hashed(left, lc, table, columns, outer), false) <==> AllAgree(left, lc, rs, rc)
  {
    NestedIsJoin(left, lc, rs, rc, columns, width, outer);
    HashIsJoin(left, lc, rs, rc, table, columns, outer);
    JoinsApart(left, lc, rs, rc, columns, outer);
    if AllAgree(left, lc, rs, rc) { SameJoin(left, lc, rs, rc, columns, outer); }
    hide Nested, Hashed, Join;
  }

  /** An integer and an equal float: the nested-loop joiner joins them, the hash joiner does
      not. */
  lemma MixedNumbersDiffer(table: map<Value, seq<Row>>)
    requires IsTable(table, [[Float(Finite(1.0))]], 0)
    ensures Nested([[Integer(1)]], [[Float(Finite(1.0))]], [[Float(Finite(1.0))]], false, 1, OnColumns(1, 0, 0),
        false).rows
            != Hashed([[Integer(1)]], 0, table, 1, false)
  {
    var left, rs: seq<Row> := [[Integer(1)]], [[Float(Finite(1.0))]];
    JoinsEquivalent(left, 0, rs, 0, table, 1, 1, false);
    NestedIsJoin(left, 0, rs, 0, 1, 1, false);
    assert !Agree(left[0][0], rs[0][0]);
  }
}
