/** Change detection between two runs (lineagekit/store.py:162-216) and the
    choice of the latest run (lineagekit/store.py:218-222).

    The `column_stats` table is given as the sequence of its rows in table
    order and the `runs` table as the sequence of its rows; SQLite itself,
    the connection and the JSON rendering of `detail` are not modelled. */
module Store {
  import opened Text
  import opened Tracker
  import opened Severities

  /** `(dataset_id, column)`, the key `load_stats` files a row under. */
  type StatsKey = (string, string)

  function KeyOf(s: ColumnStats): StatsKey {
    (s.datasetId, s.column)
  }

  /** What `load_stats(run)` returns after reading `rows` in order: the rows
      of `run`, each filed under its key, a later row replacing an earlier
      one with the same key. */
  function Loaded(rows: seq<ColumnStats>, run: string): map<StatsKey, ColumnStats> {
    if rows == [] then map[]
    else
      var last := rows[|rows| - 1];
      var before := Loaded(rows[..|rows| - 1], run);
      if last.runId == run then before[KeyOf(last) := last] else before
  }

  /** `load_stats(run)`. */
  method LoadStats(rows: seq<ColumnStats>, run: string) returns (out: map<StatsKey, ColumnStats>)
    ensures out == Loaded(rows, run)
  {
    out := map[];
    for i := 0 to |rows|
      invariant out == Loaded(rows[..i], run)
    {
      assert rows[..i + 1][..i] == rows[..i];
      if rows[i].runId == run {
        out := out[KeyOf(rows[i]) := rows[i]];
      }
    }
    assert rows[..|rows|] == rows;
  }

  /** A key is loaded exactly when some row of the run carries it. */
  lemma {:induction false} LoadedKeys(rows: seq<ColumnStats>, run: string, key: StatsKey)
    ensures key in Loaded(rows, run) <==>
      exists i :: 0 <= i < |rows| && rows[i].runId == run && KeyOf(rows[i]) == key
  {
    if rows != [] {
      var n := |rows| - 1;
      LoadedKeys(rows[..n], run, key);
      assert forall i :: 0 <= i < n ==> rows[..n][i] == rows[i];
    }
  }

  /** A loaded key holds the run's last row with that key: a later row
      replaces an earlier one. */
  lemma {:induction false} LoadedLastWins(rows: seq<ColumnStats>, run: string, key: StatsKey)
    requires key in Loaded(rows, run)
    ensures exists i :: 0 <= i < |rows| && rows[i] == Loaded(rows, run)[key] && LastOfKey(rows, run, key, i)
  {
    var n := |rows| - 1;
    var init := rows[..n];
    if rows[n].runId == run && KeyOf(rows[n]) == key {
      assert LastOfKey(rows, run, key, n);
    } else {
      LoadedLastWins(init, run, key);
      var i :| 0 <= i < n && init[i] == Loaded(init, run)[key] && LastOfKey(init, run, key, i);
      assert rows[i] == Loaded(rows, run)[key];
      assert LastOfKey(rows, run, key, i);
    }
  }

  /** `rows[i]` is the last row of `run` filed under `key`. */
  ghost predicate LastOfKey(rows: seq<ColumnStats>, run: string, key: StatsKey, i: nat)
    requires i < |rows|
  {
    && rows[i].runId == run && KeyOf(rows[i]) == key
    && forall j :: i < j < |rows| ==> !(rows[j].runId == run && KeyOf(rows[j]) == key)
  }

  /** Every loaded row belongs to the run and is filed under its own key. */
  lemma {:induction false} LoadedWellFiled(rows: seq<ColumnStats>, run: string)
    ensures forall key :: key in Loaded(rows, run) ==>
      Loaded(rows, run)[key].runId == run && KeyOf(Loaded(rows, run)[key]) == key
  {
    if rows != [] {
      LoadedWellFiled(rows[..|rows| - 1], run);
    }
  }

  /** The default thresholds of `detect_changes`. */
  datatype Thresholds = Thresholds(nullSpike: real, meanTol: real, stdTol: real)

  const DefaultThresholds := Thresholds(0.1, 0.2, 0.3)

  /** The `1e-9` below which `rel` divides by 1. */
  const Tiny: real := 0.000000001

  function Abs(x: real): (r: real)
    ensures r >= 0.0 && (r == x || r == -x)
  {
    if x < 0.0 then -x else x
  }

  /** `rel(old, new)` with `before` for `old` and `after` for `new`: the
      change relative to the old value, or the absolute change when the old
      value is within `1e-9` of zero. */
  function Rel(before: real, after: real): (r: real)
    ensures r >= 0.0
    ensures r == 0.0 <==> before == after
    ensures Abs(before) <= Tiny ==> r == Abs(after - before)
  {
    var denom := if Abs(before) > Tiny then Abs(before) else 1.0;
    Abs(after - before) / denom
  }

  /** `(nulls or 0) / (count or 1)`. */
  function NullFraction(s: ColumnStats): (r: real)
    ensures 0 <= s.nulls <= s.count ==> 0.0 <= r <= 1.0
    ensures s.count == 0 ==> r == s.nulls as real
    ensures s.count != 0 && s.nulls == 0 ==> r == 0.0
  {
    var d := if s.count == 0 then 1 else s.count;
    FractionBounds(s.nulls as real, d as real);
    (s.nulls as real) / (d as real)
  }

  lemma FractionBounds(n: real, d: real)
    requires d != 0.0
    ensures 0.0 <= n <= d ==> 0.0 <= n / d <= 1.0
  {
    if 0.0 <= n <= d {
      assert (n / d) * d == n;
    }
  }

  /** The `value_shift` test: both means present, and the mean moved by at
      least `meanTol`, or both standard deviations present and the standard
      deviation moved by at least `stdTol`. */
  predicate ValueShifted(a: ColumnStats, b: ColumnStats, th: Thresholds) {
    && a.mean.Some? && b.mean.Some?
    && (|| Rel(a.mean.value, b.mean.value) >= th.meanTol
        || (a.std.Some? && b.std.Some? && Rel(a.std.value, b.std.value) >= th.stdTol))
  }

  /** The `detail` of a change, before it is rendered as JSON. */
  datatype Detail =
    | Where(datasetId: string, column: string)
    | DtypeMoved(dtypeFrom: string, dtypeTo: string)
    | NullsMoved(nullsFrom: real, nullsTo: real)
    | ValuesMoved(meanFrom: Option<real>, meanTo: Option<real>, stdFrom: Option<real>, stdTo: Option<real>)

  /** A row of the `changes` table. */
  datatype Change = Change(
    runId: string, nodeKind: string, nodeId: string,
    changeType: ChangeType, severity: Level, detail: Detail)

  /** The severity `detect_changes` gives each kind of change. */
  function SeverityOf(t: ChangeType): Level {
    match t
    case SchemaDrop => Critical
    case TypeChange => High
    case NullSpike => Medium
    case SchemaAdd => Low
    case ValueShift => Low
  }

  /** The node id of a change: `f"{ds_id}|{col}"`. */
  function NodeId(ds: string, col: string): (id: string)
    ensures '|' in Chars(id)
  {
    assert (ds + "|" + col)[|ds|] == '|';
    ds + "|" + col
  }

  /** `(ds_id, col)`: the key when the current run has it, otherwise the
      base row's own dataset id and column. */
  function Location(key: StatsKey, a: Option<ColumnStats>, b: Option<ColumnStats>): StatsKey
    requires a.Some? || b.Some?
  {
    if b.Some? then key else (a.value.datasetId, a.value.column)
  }

  function Types(cs: seq<Change>): (ts: seq<ChangeType>)
    ensures |ts| == |cs|
    ensures forall i :: 0 <= i < |cs| ==> ts[i] == cs[i].changeType
  {
    seq(|cs|, i requires 0 <= i < |cs| => cs[i].changeType)
  }

  lemma TypesAppend(x: seq<Change>, y: seq<Change>)
    ensures Types(x + y) == Types(x) + Types(y)
  {
  }

  /** `[c]` when `cond` holds, otherwise nothing. */
  function RecordIf(cond: bool, c: Change): (r: seq<Change>)
    ensures Types(r) == if cond then [c.changeType] else []
    ensures forall d :: d in r ==> d == c
  {
    if cond then [c] else []
  }

  /** A change of run `curr` about the column node `id`, with the severity
      its kind carries. */
  predicate Stamped(c: Change, curr: string, id: string) {
    c.runId == curr && c.nodeKind == "column" && c.nodeId == id && c.severity == SeverityOf(c.changeType)
  }

  lemma StampedAppend(x: seq<Change>, y: seq<Change>, curr: string, id: string)
    requires forall c :: c in x ==> Stamped(c, curr, id)
    requires forall c :: c in y ==> Stamped(c, curr, id)
    ensures forall c :: c in x + y ==> Stamped(c, curr, id)
  {
  }

  /** No change type is listed twice. */
  predicate NoRepeats(ts: seq<ChangeType>) {
    forall i, j :: 0 <= i < j < |ts| ==> ts[i] != ts[j]
  }

  /** The change types of a comparison: each of the three at most once. */
  lemma ComparedTypes(p: bool, q: bool, s: bool)
    ensures var ts := (if p then [TypeChange] else []) + (if q then [NullSpike] else []) + (if s then [ValueShift] else []);
      && |ts| <= 3
      && SchemaDrop !in ts && SchemaAdd !in ts
      && (TypeChange in ts <==> p) && (NullSpike in ts <==> q) && (ValueShift in ts <==> s)
      && NoRepeats(ts)
  {
  }

  /** The changes of a key both runs have, filed under `id`: a
      `type_change`, a `null_spike` and a `value_shift`, each when its test
      holds, in that order. */
  function ComparedChanges(id: string, x: ColumnStats, y: ColumnStats, curr: string, th: Thresholds)
    : (r: seq<Change>)
    ensures forall c :: c in r ==> Stamped(c, curr, id)
    ensures |r| <= 3
    ensures SchemaDrop !in Types(r) && SchemaAdd !in Types(r)
    ensures TypeChange in Types(r) <==> x.dtype != y.dtype
    ensures NullSpike in Types(r) <==> NullFraction(y) - NullFraction(x) >= th.nullSpike
    ensures ValueShift in Types(r) <==> ValueShifted(x, y, th)
    ensures NoRepeats(Types(r))
  {
    var xNull, yNull := NullFraction(x), NullFraction(y);
    var p, q, s := x.dtype != y.dtype, yNull - xNull >= th.nullSpike, ValueShifted(x, y, th);
    var typed := RecordIf(p, Change(curr, "column", id, TypeChange, High, DtypeMoved(x.dtype, y.dtype)));
    var nulls := RecordIf(q, Change(curr, "column", id, NullSpike, Medium, NullsMoved(xNull, yNull)));
    var shifted := RecordIf(s, Change(curr, "column", id, ValueShift, Low, ValuesMoved(x.mean, y.mean, x.std, y.std)));
    StampedAppend(typed, nulls, curr, id);
    StampedAppend(typed + nulls, shifted, curr, id);
    TypesAppend(typed, nulls);
    TypesAppend(typed + nulls, shifted);
    ComparedTypes(p, q, s);
    typed + nulls + shifted
  }

  /** The changes one key contributes, `a` and `b` being its base and
      current rows. */
  function ChangesFor(key: StatsKey, a: Option<ColumnStats>, b: Option<ColumnStats>, curr: string, th: Thresholds)
    : (r: seq<Change>)
    requires a.Some? || b.Some?
    ensures forall c :: c in r ==> Stamped(c, curr, NodeId(Location(key, a, b).0, Location(key, a, b).1))
    ensures a.Some? && b.None? ==>
      Types(r) == [SchemaDrop] && r[0].detail == Where(a.value.datasetId, a.value.column)
    ensures a.None? && b.Some? ==>
      Types(r) == [SchemaAdd] && r[0].detail == Where(key.0, key.1)
    ensures a.Some? && b.Some? ==>
      r == ComparedChanges(NodeId(key.0, key.1), a.value, b.value, curr, th)
  {
    var loc := Location(key, a, b);
    var id := NodeId(loc.0, loc.1);
    if a.Some? && b.None? then
      [Change(curr, "column", id, SchemaDrop, Critical, Where(loc.0, loc.1))]
    else if b.Some? && a.None? then
      [Change(curr, "column", id, SchemaAdd, Low, Where(loc.0, loc.1))]
    else
      ComparedChanges(id, a.value, b.value, curr, th)
  }

  /** `A.get(key)`. */
  function Lookup(m: map<StatsKey, ColumnStats>, key: StatsKey): (r: Option<ColumnStats>)
    ensures r.Some? <==> key in m
  {
    if key in m then Some(m[key]) else None
  }

  /** The changes of one key of `A` or `B` (none for a key of neither). */
  function KeyChanges(A: map<StatsKey, ColumnStats>, B: map<StatsKey, ColumnStats>, curr: string, th: Thresholds)
    : StatsKey -> seq<Change>
  {
    k => if k in A || k in B then ChangesFor(k, Lookup(A, k), Lookup(B, k), curr, th) else []
  }

  /** `f(k)` for each `k` of `order`, concatenated in that order. */
  function Concat<K, T>(order: seq<K>, f: K -> seq<T>): seq<T> {
    if order == [] then [] else Concat(order[..|order| - 1], f) + f(order[|order| - 1])
  }

  /** `order` lists every key of `keys` exactly once: one iteration order of
      a Python set. */
  ghost predicate Enumerates<K>(order: seq<K>, keys: set<K>) {
    && (forall i, j :: 0 <= i < j < |order| ==> order[i] != order[j])
    && (forall k :: k in order ==> k in keys)
    && (forall k :: k in keys ==> k in order)
  }

  /** `detect_changes(db, base_run, curr_run, ...)` over the rows of
      `column_stats`: the changes of every key of either run, the keys
      taken in some order (Python's set order is not specified). */
  method DetectChanges(rows: seq<ColumnStats>, baseRun: string, currRun: string, th: Thresholds)
    returns (changes: seq<Change>)
    ensures exists order ::
      && Enumerates(order, Loaded(rows, baseRun).Keys + Loaded(rows, currRun).Keys)
      && changes == Concat(order, KeyChanges(Loaded(rows, baseRun), Loaded(rows, currRun), currRun, th))
  {
    var A := LoadStats(rows, baseRun);
    var B := LoadStats(rows, currRun);
    changes := CompareKeys(A, B, currRun, th);
  }

  /** The loop of `detect_changes` over `set(A.keys()) | set(B.keys())`. */
  method CompareKeys(A: map<StatsKey, ColumnStats>, B: map<StatsKey, ColumnStats>, currRun: string, th: Thresholds)
    returns (changes: seq<Change>)
    ensures exists order :: Enumerates(order, A.Keys + B.Keys) && changes == Concat(order, KeyChanges(A, B, currRun, th))
  {
    var keys := A.Keys + B.Keys;
    var remaining := keys;
    changes := [];
    ghost var order: seq<StatsKey> := [];
    ghost var f := KeyChanges(A, B, currRun, th);
    while remaining != {}
      invariant remaining <= keys
      invariant Enumerates(order, keys - remaining)
      invariant changes == Concat(order, f)
      decreases |remaining|
    {
      var key :| key in remaining;
      var a, b := Lookup(A, key), Lookup(B, key);
      CompareStep(order, keys - remaining, key, changes, A, B, currRun, th);
      changes := changes + ChangesFor(key, a, b, currRun, th);
      order := order + [key];
      assert keys - (remaining - {key}) == (keys - remaining) + {key};
      remaining := remaining - {key};
    }
  }

  /** One turn of the key loop: the next key is enumerated and its changes
      appended. */
  lemma CompareStep(order: seq<StatsKey>, done: set<StatsKey>, key: StatsKey, changes: seq<Change>,
      A: map<StatsKey, ColumnStats>, B: map<StatsKey, ColumnStats>, curr: string, th: Thresholds)
    requires Enumerates(order, done) && key !in done && (key in A || key in B)
    requires changes == Concat(order, KeyChanges(A, B, curr, th))
    ensures Enumerates(order + [key], done + {key})
    ensures changes + ChangesFor(key, Lookup(A, key), Lookup(B, key), curr, th)
      == Concat(order + [key], KeyChanges(A, B, curr, th))
  {
    EnumeratesExtend(order, done, key);
    assert (order + [key])[..|order|] == order;
  }

  lemma {:induction false} ConcatAppend<K, T>(x: seq<K>, y: seq<K>, f: K -> seq<T>)
    ensures Concat(x + y, f) == Concat(x, f) + Concat(y, f)
  {
    if y != [] {
      var n := |y| - 1;
      assert (x + y)[..|x + y| - 1] == x + y[..n];
      assert (x + y)[|x + y| - 1] == y[n];
      ConcatAppend(x, y[..n], f);
    } else {
      assert x + y == x;
    }
  }

  /** Concatenating over two enumerations of the same keys gives the same
      elements, as a multiset. */
  lemma {:induction false} ConcatOrderIndependent<K, T>(o1: seq<K>, o2: seq<K>, keys: set<K>, f: K -> seq<T>)
    requires Enumerates(o1, keys) && Enumerates(o2, keys)
    ensures multiset(Concat(o1, f)) == multiset(Concat(o2, f))
    decreases |o1|
  {
    EnumerationLength(o1, keys);
    EnumerationLength(o2, keys);
    if o1 != [] {
      var n := |o1| - 1;
      var k := o1[n];
      assert k in o2;
      var m :| 0 <= m < |o2| && o2[m] == k;
      EnumeratesWithout(o1, keys, n);
      EnumeratesWithout(o2, keys, m);
      ConcatOrderIndependent(o1[..n] + o1[n + 1..], o2[..m] + o2[m + 1..], keys - {k}, f);
      ConcatRemove(o1, n, f);
      ConcatRemove(o2, m, f);
    }
  }

  /** Concatenating over `o` is concatenating over `o` without its `m`-th
      key, plus that key's elements. */
  lemma ConcatRemove<K, T>(o: seq<K>, m: nat, f: K -> seq<T>)
    requires m < |o|
    ensures multiset(Concat(o, f)) == multiset(Concat(o[..m] + o[m + 1..], f)) + multiset(f(o[m]))
  {
    var p, s := o[..m], o[m + 1..];
    assert o == p + [o[m]] + s;
    ConcatAppend(p + [o[m]], s, f);
    ConcatAppend(p, [o[m]], f);
    ConcatAppend(p, s, f);
    assert Concat([o[m]], f) == f(o[m]) by {
      assert [o[m]][..0] == [];
    }
  }

  /** An enumeration has one element per key. */
  lemma {:induction false} EnumerationLength<K>(order: seq<K>, keys: set<K>)
    requires Enumerates(order, keys)
    ensures |order| == |keys|
  {
    if order != [] {
      var n := |order| - 1;
      EnumeratesWithout(order, keys, n);
      assert order[..n] + order[n + 1..] == order[..n];
      EnumerationLength(order[..n], keys - {order[n]});
    }
  }

  /** Listing one more key enumerates one more key. */
  lemma EnumeratesExtend<K>(order: seq<K>, keys: set<K>, k: K)
    requires Enumerates(order, keys) && k !in keys
    ensures Enumerates(order + [k], keys + {k})
  {
  }

  /** Taking one key out of an enumeration enumerates the other keys. */
  lemma EnumeratesWithout<K>(order: seq<K>, keys: set<K>, m: nat)
    requires Enumerates(order, keys) && m < |order|
    ensures Enumerates(order[..m] + order[m + 1..], keys - {order[m]})
  {
    var k := order[m];
    var p, s := order[..m], order[m + 1..];
    var rest := p + s;
    assert order == p + [k] + s;
    forall i, j | 0 <= i < j < |rest| ensures rest[i] != rest[j] {
      var i2 := if i < m then i else i + 1;
      var j2 := if j < m then j else j + 1;
      assert rest[i] == order[i2] && rest[j] == order[j2];
    }
    forall x ensures x in rest <==> x in keys - {k} {
      assert x in order <==> x in p || x == k || x in s;
      if x in p { var i :| 0 <= i < |p| && p[i] == x; assert order[i] == x; }
      if x in s { var i :| 0 <= i < |s| && s[i] == x; assert order[m + 1 + i] == x; }
    }
  }

  /** An element of the concatenation comes from some key, and every key's
      elements are in it. */
  lemma {:induction false} ConcatMembers<K, T>(order: seq<K>, f: K -> seq<T>, c: T)
    ensures c in Concat(order, f) <==> exists k :: k in order && c in f(k)
  {
    if order != [] {
      var n := |order| - 1;
      ConcatMembers(order[..n], f, c);
      assert forall k :: k in order <==> k in order[..n] || k == order[n];
    }
  }

  lemma {:induction false} ConcatOfNothing<K, T>(order: seq<K>, f: K -> seq<T>)
    requires forall k :: k in order ==> f(k) == []
    ensures Concat(order, f) == []
  {
    if order != [] {
      ConcatOfNothing(order[..|order| - 1], f);
    }
  }

  /** The changes `detect_changes` finds do not depend on the order the
      keys are taken in: any two orders report the same changes, as a
      multiset. */
  lemma DetectChangesOrderIndependent(o1: seq<StatsKey>, o2: seq<StatsKey>,
      A: map<StatsKey, ColumnStats>, B: map<StatsKey, ColumnStats>, curr: string, th: Thresholds)
    requires Enumerates(o1, A.Keys + B.Keys) && Enumerates(o2, A.Keys + B.Keys)
    ensures multiset(Concat(o1, KeyChanges(A, B, curr, th))) == multiset(Concat(o2, KeyChanges(A, B, curr, th)))
  {
    ConcatOrderIndependent(o1, o2, A.Keys + B.Keys, KeyChanges(A, B, curr, th));
  }

  /** A change is reported exactly when some key of either run contributes
      it; in particular every reported change is stamped with the current
      run, is about a column, and is critical exactly when it is a drop. */
  lemma ReportedChanges(order: seq<StatsKey>,
      A: map<StatsKey, ColumnStats>, B: map<StatsKey, ColumnStats>, curr: string, th: Thresholds, c: Change)
    requires Enumerates(order, A.Keys + B.Keys)
    ensures c in Concat(order, KeyChanges(A, B, curr, th)) <==>
      exists k :: (k in A || k in B) && c in ChangesFor(k, Lookup(A, k), Lookup(B, k), curr, th)
    ensures c in Concat(order, KeyChanges(A, B, curr, th)) ==>
      && c.runId == curr && c.nodeKind == "column"
      && (c.severity == Critical <==> c.changeType == SchemaDrop)
  {
    var f := KeyChanges(A, B, curr, th);
    ConcatMembers(order, f, c);
    if c in Concat(order, f) {
      var k :| k in order && c in f(k);
      var a, b := Lookup(A, k), Lookup(B, k);
      assert c in ChangesFor(k, a, b, curr, th);
      assert Stamped(c, curr, NodeId(Location(k, a, b).0, Location(k, a, b).1));
      assert c.severity == Critical <==> c.changeType == SchemaDrop by {
        match c.changeType
        case SchemaDrop =>
        case SchemaAdd =>
        case TypeChange =>
        case NullSpike =>
        case ValueShift =>
      }
    }
  }

  /** Comparing a run's statistics with themselves finds nothing, whenever
      the thresholds are positive. */
  lemma NoChangesAgainstItself(order: seq<StatsKey>, A: map<StatsKey, ColumnStats>, curr: string, th: Thresholds)
    requires th.nullSpike > 0.0 && th.meanTol > 0.0 && th.stdTol > 0.0
    requires Enumerates(order, A.Keys + A.Keys)
    ensures Concat(order, KeyChanges(A, A, curr, th)) == []
  {
    var f := KeyChanges(A, A, curr, th);
    forall k | k in order ensures f(k) == [] {
      var r := ChangesFor(k, Lookup(A, k), Lookup(A, k), curr, th);
      assert Types(r) == [] by {
        assert TypeChange !in Types(r) && NullSpike !in Types(r) && ValueShift !in Types(r);
        assert forall t :: t in Types(r) ==> t == TypeChange || t == NullSpike || t == ValueShift;
      }
    }
    ConcatOfNothing(order, f);
  }

  /** Changes produced from loaded statistics are filed under their key:
      the node id is the key's dataset id and column joined by `|`. */
  lemma ChangeNodeIsKey(rows: seq<ColumnStats>, baseRun: string, currRun: string, key: StatsKey,
      th: Thresholds, c: Change)
    requires key in Loaded(rows, baseRun) || key in Loaded(rows, currRun)
    requires c in ChangesFor(key, Lookup(Loaded(rows, baseRun), key), Lookup(Loaded(rows, currRun), key), currRun, th)
    ensures c.nodeId == NodeId(key.0, key.1)
  {
    LoadedWellFiled(rows, baseRun);
  }

  /** A row of the `runs` table. */
  datatype RunRow = RunRow(runId: string, createdAt: real)

  /** The position of the row `ORDER BY created_at DESC LIMIT 1` returns;
      among rows with the same newest time, the first one. */
  function NewestIndex(runs: seq<RunRow>): (i: nat)
    requires runs != []
    ensures i < |runs|
    ensures forall j :: 0 <= j < |runs| ==> runs[j].createdAt <= runs[i].createdAt
    ensures forall j :: 0 <= j < i ==> runs[j].createdAt < runs[i].createdAt
  {
    if |runs| == 1 then 0
    else
      var i := NewestIndex(runs[..|runs| - 1]);
      if runs[|runs| - 1].createdAt > runs[i].createdAt then |runs| - 1 else i
  }

  /** `latest_run_id(conn)`: the id of the newest run, or "" when there is
      none. */
  function LatestRunId(runs: seq<RunRow>): (id: string)
    ensures runs == [] ==> id == ""
    ensures runs != [] ==>
      exists i :: 0 <= i < |runs| && runs[i].runId == id
        && (forall j :: 0 <= j < |runs| ==> runs[j].createdAt <= runs[i].createdAt)
  {
    if runs == [] then "" else runs[NewestIndex(runs)].runId
  }
}
