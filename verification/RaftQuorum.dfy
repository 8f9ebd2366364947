/** The quorum value (src/raft/node.rs, `quorum_value`): the element at the quorum's position
    from the top is the greatest value that a quorum reaches. */
module RaftQuorum {
  import opened RaftMessage
  import opened RaftNode

  /** How many values are at least `v`. */
  function CountAtLeast(values: seq<nat>, v: nat): nat {
    if values == [] then 0 else (if values[0] >= v then 1 else 0) + CountAtLeast(values[1..], v)
  }

  predicate Descending(values: seq<nat>) {
    forall i, j :: 0 <= i < j < |values| ==> values[i] >= values[j]
  }

  function Insert(x: nat, sorted: seq<nat>): (r: seq<nat>)
    requires Descending(sorted)
    ensures Descending(r) && |r| == |sorted| + 1
    ensures forall y :: y in r ==> y == x || y in sorted
  {
    if sorted == [] || x >= sorted[0] then [x] + sorted
    else
      var rest := Insert(x, sorted[1..]);
      Prepended(sorted[0], rest);
      [sorted[0]] + rest
  }

  lemma {:induction false} InsertPermutes(x: nat, sorted: seq<nat>)
    requires Descending(sorted)
    ensures multiset(Insert(x, sorted)) == multiset(sorted) + multiset{x}
  {
    if sorted != [] && x < sorted[0] {
      InsertPermutes(x, sorted[1..]);
      assert sorted == [sorted[0]] + sorted[1..];
    }
  }

  lemma Prepended(x: nat, rest: seq<nat>)
    requires Descending(rest) && forall y :: y in rest ==> y <= x
    ensures Descending([x] + rest)
  {
    var r := [x] + rest;
    forall i, j | 0 <= i < j < |r| ensures r[i] >= r[j] {
      assert r[j] == rest[j - 1] && r[j] in rest;
    }
  }

  /** The values from the greatest down. */
  function SortDown(values: seq<nat>): (r: seq<nat>)
    ensures Descending(r) && |r| == |values|
  {
    if values == [] then [] else Insert(values[0], SortDown(values[1..]))
  }

  lemma {:induction false} SortPermutes(values: seq<nat>)
    ensures multiset(SortDown(values)) == multiset(values)
  {
    if values != [] {
      SortPermutes(values[1..]);
      InsertPermutes(values[0], SortDown(values[1..]));
      assert values == [values[0]] + values[1..];
    }
  }

  /** Partitions the values around the quorum's position and takes the one there. */
  function SelectQuorum(values: seq<nat>, quorum: nat): nat
    requires 0 < quorum <= |values|
  {
    SortDown(values)[quorum - 1]
  }

  lemma {:induction false} CountSplit(a: seq<nat>, b: seq<nat>, v: nat)
    ensures CountAtLeast(a + b, v) == CountAtLeast(a, v) + CountAtLeast(b, v)
  {
    if a == [] {
      assert a + b == b;
    } else {
      assert (a + b)[1..] == a[1..] + b;
      CountSplit(a[1..], b, v);
    }
  }

  /** Counts do not depend on the order. */
  lemma {:induction false} CountPermuted(a: seq<nat>, b: seq<nat>, v: nat)
    requires multiset(a) == multiset(b)
    ensures CountAtLeast(a, v) == CountAtLeast(b, v)
    decreases |a|
  {
    if a == [] {
      assert |multiset(b)| == 0;
    } else {
      var k := RemoveOne(a, b);
      CountPermuted(a[1..], b[..k] + b[k + 1..], v);
      CountMiddle(b, k, v);
    }
  }

  lemma RemoveOne(a: seq<nat>, b: seq<nat>) returns (k: nat)
    requires a != [] && multiset(a) == multiset(b)
    ensures k < |b| && b[k] == a[0] && multiset(b[..k] + b[k + 1..]) == multiset(a[1..])
  {
    assert a == [a[0]] + a[1..];
    assert a[0] in multiset(b);
    k :| 0 <= k < |b| && b[k] == a[0];
    assert b == b[..k] + [b[k]] + b[k + 1..];
    assert multiset(b[..k] + b[k + 1..]) == multiset(b) - multiset{a[0]};
  }

  lemma CountMiddle(b: seq<nat>, k: nat, v: nat)
    requires k < |b|
    ensures CountAtLeast(b, v) == CountAtLeast(b[..k] + b[k + 1..], v) + if b[k] >= v then 1 else 0
  {
    var front, back := b[..k], b[k + 1..];
    assert b == front + ([b[k]] + back);
    assert ([b[k]] + back)[1..] == back;
    CountSplit(front, back, v);
    CountSplit(front, [b[k]] + back, v);
  }

  lemma {:induction false} CountAll(values: seq<nat>, v: nat)
    requires forall k :: 0 <= k < |values| ==> values[k] >= v
    ensures CountAtLeast(values, v) == |values|
  {
    if values != [] { CountAll(values[1..], v); }
  }

  lemma {:induction false} CountNone(values: seq<nat>, v: nat)
    requires forall k :: 0 <= k < |values| ==> values[k] < v
    ensures CountAtLeast(values, v) == 0
  {
    if values != [] { CountNone(values[1..], v); }
  }

  lemma {:induction false} CountBound(values: seq<nat>, v: nat)
    ensures CountAtLeast(values, v) <= |values|
  {
    if values != [] { CountBound(values[1..], v); }
  }

  /** A quorum reaches the value, and no quorum reaches a greater one. */
  ghost predicate Selects(values: seq<nat>, quorum: nat, v: nat) {
    CountAtLeast(values, v) >= quorum && CountAtLeast(values, v + 1) < quorum
  }

  lemma SelectedIsReached(values: seq<nat>, quorum: nat)
    requires 0 < quorum <= |values|
    ensures Selects(values, quorum, SelectQuorum(values, quorum))
  {
    var sorted := SortDown(values);
    var v := sorted[quorum - 1];
    assert SelectQuorum(values, quorum) == v;
    hide *;
    TopReached(sorted, quorum);
    TopBounded(sorted, quorum);
    CountSorted(values, v);
    CountSorted(values, v + 1);
    SelectsFrom(values, quorum, v);
  }

  lemma SelectsFrom(values: seq<nat>, quorum: nat, v: nat)
    requires CountAtLeast(values, v) >= quorum && CountAtLeast(values, v + 1) < quorum
    ensures Selects(values, quorum, v)
  {
  }

  lemma CountSorted(values: seq<nat>, v: nat)
    ensures CountAtLeast(SortDown(values), v) == CountAtLeast(values, v)
  {
    hide CountAtLeast;
    SortPermutes(values);
    CountPermuted(SortDown(values), values, v);
  }

  lemma TopReached(sorted: seq<nat>, quorum: nat)
    requires Descending(sorted) && 0 < quorum <= |sorted|
    ensures CountAtLeast(sorted, sorted[quorum - 1]) >= quorum
  {
    var top := sorted[..quorum];
    assert sorted == top + sorted[quorum..];
    CountSplit(top, sorted[quorum..], sorted[quorum - 1]);
    hide CountAtLeast;
    CountAll(top, sorted[quorum - 1]);
  }

  lemma TopBounded(sorted: seq<nat>, quorum: nat)
    requires Descending(sorted) && 0 < quorum <= |sorted|
    ensures CountAtLeast(sorted, sorted[quorum - 1] + 1) < quorum
  {
    hide CountAtLeast;
    var top, rest, v := sorted[..quorum - 1], sorted[quorum - 1..], sorted[quorum - 1] + 1;
    assert sorted == top + rest;
    CountSplit(top, rest, v);
    CountBound(top, v);
    CountNone(rest, v);
  }

  // ---------------------------------------------------------------- values of a cluster

  /** The values of a map, listed by distinct keys. */
  ghost predicate Lists(keys: seq<NodeID>, values: seq<nat>, m: map<NodeID, nat>) {
    && |keys| == |values|
    && (forall i, j :: 0 <= i < j < |keys| ==> keys[i] != keys[j])
    && (forall i :: 0 <= i < |keys| ==> keys[i] in m && m[keys[i]] == values[i])
    && (forall p :: p in m ==> p in keys)
  }

  lemma {:induction false} CountIsReached(keys: seq<NodeID>, values: seq<nat>, m: map<NodeID, nat>, v: nat)
    requires Lists(keys, values, m)
    ensures CountAtLeast(values, v) == |ReachedBy(m, v)|
    decreases |keys|
  {
    if keys == [] {
      assert ReachedBy(m, v) == {};
    } else {
      var p, rest := keys[0], m - {keys[0]};
      ListsRest(keys, values, m);
      ReachedRest(m, p, v);
      hide Lists, ReachedBy;
      CountIsReached(keys[1..], values[1..], rest, v);
    }
  }

  lemma ReachedRest(m: map<NodeID, nat>, p: NodeID, v: nat)
    requires p in m
    ensures |ReachedBy(m, v)| == |ReachedBy(m - {p}, v)| + if m[p] >= v then 1 else 0
  {
    var rest := ReachedBy(m - {p}, v);
    assert ReachedBy(m, v) == rest + if m[p] >= v then {p} else {};
  }

  lemma ListsRest(keys: seq<NodeID>, values: seq<nat>, m: map<NodeID, nat>)
    requires Lists(keys, values, m) && keys != []
    ensures values != [] && keys[0] in m && m[keys[0]] == values[0]
    ensures Lists(keys[1..], values[1..], m - {keys[0]})
  {
    forall q | q in m - {keys[0]} ensures q in keys[1..] {
      var i :| 0 <= i < |keys| && keys[i] == q;
      assert keys[1..][i - 1] == q;
    }
  }

  /** The selected value is the greatest that a quorum of the cluster reaches. */
  lemma SelectIsQuorumValue(keys: seq<NodeID>, values: seq<nat>, m: map<NodeID, nat>, quorum: nat)
    requires Lists(keys, values, m) && 0 < quorum <= |m|
    ensures |values| == |m| && SelectQuorum(values, quorum) == QuorumValue(m, quorum)
  {
    KeysCount(keys, values, m);
    var v := SelectQuorum(values, quorum);
    SelectedIsReached(values, quorum);
    CountIsReached(keys, values, m, v);
    CountIsReached(keys, values, m, v + 1);
    QuorumValueUnique(m, quorum, v, QuorumValue(m, quorum));
  }

  lemma KeysCount(keys: seq<NodeID>, values: seq<nat>, m: map<NodeID, nat>)
    requires Lists(keys, values, m)
    ensures |values| == |m|
  {
    CountIsReached(keys, values, m, 0);
    CountAll(values, 0);
    assert ReachedBy(m, 0) == m.Keys;
  }
}
