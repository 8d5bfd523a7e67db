/** What one call of a function decorated with `@transform(...)` records
    (lineagekit/transform.py). The wrapper finds the input frame, registers
    it, runs the function, registers the output dataset, its columns and
    their statistics, the transform node, the dataset-level edges and the
    column-level edges of the passthrough, rename and derive loops.

    The derive loop is modelled as the code is written: `eff_derives` is
    built from the same two rename maps as `eff_rename`, so the loop walks
    the rename entries, points an edge at the output column named by the
    OLD name and, iterating the characters of the new name, one edge from
    each single-character input column. The declared `derives` only enter
    the parameter hash. */
module Transforms {
  import opened Text
  import opened OrderedDicts
  import opened Identity
  import opened Tracker

  /** One column of a pandas frame: its name, dtype, dtype kind letter,
      size, null count and the summaries pandas computes for it (mean and
      sample standard deviation, most frequent value and its count). */
  datatype FrameColumn = FrameColumn(
    name: string, dtype: string, kind: char, size: nat, nulls: nat,
    mean: real, std: real, top: Option<string>, topFreq: Option<int>)

  /** A frame: its columns in order, its length and `attrs["__ds_id__"]`. */
  datatype Frame = Frame(columns: seq<FrameColumn>, rows: nat, dsIdAttr: Option<string>)

  /** A positional or keyword argument of the decorated function. */
  datatype Arg = FrameArg(frame: Frame) | OtherArg

  /** The decorator's arguments (after `x or []` / `x or {}`) and what
      `inspect` finds about the decorated function. */
  datatype TransformDecl = TransformDecl(
    name: string, produces: string, passthrough: seq<string>,
    rename: Dict<string>, derives: Dict<seq<string>>,
    sourceFile: Option<string>, sourceLine: Option<nat>)

  /** The dictionary whose rendering `_params_hash` digests. */
  datatype Config = Config(passthrough: seq<string>, rename: Dict<string>, derives: Dict<seq<string>>)

  /** The two maps `analyze_transform_source` returns. */
  datatype Hints = Hints(rename: Dict<string>, derives: Dict<seq<string>>)

  /** One invocation: the arguments (positional then keyword values), what
      the function returned (`None` when it is not a frame), the labels of
      the input frame's columns once the function has returned (the
      function may add or drop columns of its argument in place), the
      static analysis result (`None` when it raised), and the clock at the
      start of the call and when an unregistered input frame is registered. */
  datatype Call = Call(
    args: seq<Arg>, result: Option<Frame>, inputColumnsAfter: seq<string>, hints: Option<Hints>,
    startedAt: real, inputSeenAt: real)

  datatype Outcome =
    | NoFrameArgument                          // ValueError raised
    | ReturnedNonFrame(inDsId: string)         // returned as is, input registered
    | Recorded(inDsId: string, outDsId: string)

  // ---------------------------------------------------------------------
  // Finding the input frame (transform.py:27-33)

  /** The first frame among the arguments. */
  function FirstFrame(args: seq<Arg>): (r: Option<Frame>)
    ensures r.None? <==> forall i :: 0 <= i < |args| ==> args[i].OtherArg?
    ensures r.Some? ==> exists i :: (0 <= i < |args| && args[i] == FrameArg(r.value)
      && forall j :: 0 <= j < i ==> args[j].OtherArg?)
  {
    if args == [] then None
    else if args[0].FrameArg? then Some(args[0].frame)
    else
      var rest := FirstFrame(args[1..]);
      if rest.Some? then
        var i :| 0 <= i < |args[1..]| && args[1..][i] == FrameArg(rest.value)
          && forall j :: 0 <= j < i ==> args[1..][j].OtherArg?;
        assert args[i + 1] == FrameArg(rest.value);
        rest
      else
        assert forall i :: 1 <= i < |args| ==> args[1..][i - 1] == args[i];
        rest
  }

  /** The loop that stops at the first frame argument. */
  method FindFrame(args: seq<Arg>) returns (df: Option<Frame>)
    ensures df == FirstFrame(args)
  {
    var i := 0;
    while i < |args|
      invariant 0 <= i <= |args|
      invariant FirstFrame(args) == FirstFrame(args[i..])
    {
      if args[i].FrameArg? {
        return Some(args[i].frame);
      }
      assert args[i..][1..] == args[i + 1..];
      i := i + 1;
    }
    return None;
  }

  // ---------------------------------------------------------------------
  // Nodes and ids (lineage_tracker.py:92-127, transform.py:19-21, 41-61, 81-88)

  /** `inspect.getsourcefile(func) or "<unknown>"`. */
  function SourceFile(decl: TransformDecl): string {
    match decl.sourceFile
    case Some(f) => if f == "" then "<unknown>" else f
    case None => "<unknown>"
  }

  /** `str(source_line)`. */
  function LineText(line: Option<nat>): string {
    match line
    case None => "None"
    case Some(n) => NatToString(n)
  }

  function CodeLine(line: Option<nat>): Option<int> {
    match line
    case None => None
    case Some(n) => Some(n)
  }

  function ParamsHashOf(digest: Digest, render: Config -> string, decl: TransformDecl): string {
    ParamsHash(digest, render, Config(decl.passthrough, decl.rename, decl.derives))
  }

  function TransformKey(digest: Digest, render: Config -> string, decl: TransformDecl): seq<Option<string>> {
    [Some("tr"), Some(decl.name), Some(SourceFile(decl)), Some(LineText(decl.sourceLine)),
     Some(ParamsHashOf(digest, render, decl))]
  }

  function OutputKey(decl: TransformDecl): seq<Option<string>> {
    [Some("ds"), Some(decl.produces), Some(SourceFile(decl)), Some(LineText(decl.sourceLine))]
  }

  function AnonKey(fallback: string): seq<Option<string>> {
    [Some("anon"), Some(fallback)]
  }

  /** The transform id: from the name, the source location and the
      parameter hash, never from the run or the clock. */
  function TransformId(digest: Digest, render: Config -> string, decl: TransformDecl): string {
    GetId(digest, TransformKey(digest, render, decl))
  }

  /** The output dataset id: from the produced name and the source location. */
  function OutputDatasetId(digest: Digest, decl: TransformDecl): string {
    GetId(digest, OutputKey(decl))
  }

  /** The first character of a joined key is the first character of its
      first part. */
  lemma KeyStart(parts: seq<Option<string>>)
    requires |parts| > 0 && |Normalize(parts[0])| > 0
    ensures |Key(parts)| > 0 && Key(parts)[0] == Normalize(parts[0])[0]
  {
    var n := NormalizeAll(parts);
    if |n| == 1 {
      assert Join(Separator, n) == n[0];
    } else {
      assert Join(Separator, n) == n[0] + [Separator] + Join(Separator, n[1..]);
    }
  }

  /** The keys of a transform, of an output dataset and of an anonymous
      input dataset never coincide ("tr|…", "ds|…", "anon|…"): different
      kinds of node can share an id only through a digest collision. */
  lemma KeyKindsDistinct(digest: Digest, render: Config -> string, d1: TransformDecl, d2: TransformDecl, fallback: string)
    ensures Key(TransformKey(digest, render, d1)) != Key(OutputKey(d2))
    ensures Key(TransformKey(digest, render, d1)) != Key(AnonKey(fallback))
    ensures Key(OutputKey(d2)) != Key(AnonKey(fallback))
  {
    KeyStart(TransformKey(digest, render, d1));
    KeyStart(OutputKey(d2));
    KeyStart(AnonKey(fallback));
  }

  function ColumnNames(cols: seq<FrameColumn>): (names: seq<string>)
    ensures |names| == |cols|
    ensures forall i :: 0 <= i < |cols| ==> names[i] == cols[i].name
  {
    seq(|cols|, i requires 0 <= i < |cols| => cols[i].name)
  }

  /** The column nodes of a frame registered as dataset `ds`. */
  function ColumnNodes(digest: Digest, ds: string, cols: seq<FrameColumn>, run: string): (r: seq<ColumnNode>)
    ensures |r| == |cols|
    ensures forall i :: 0 <= i < |cols| ==>
      r[i] == ColumnNode(ColId(digest, ds, cols[i].name), cols[i].name, ds, cols[i].dtype, run)
  {
    seq(|cols|, i requires 0 <= i < |cols| =>
      ColumnNode(ColId(digest, ds, cols[i].name), cols[i].name, ds, cols[i].dtype, run))
  }

  /** `if ds_id:` — a missing or empty attribute counts as absent. */
  predicate Registered(df: Frame) {
    df.dsIdAttr.Some? && df.dsIdAttr.value != ""
  }

  /** `_ensure_dataset_node_from_df`: the new graph and the frame's id. */
  function EnsureInput(g: Graph, run: string, digest: Digest, df: Frame, fallback: string, seenAt: real): (r: (Graph, string))
    requires g.Valid()
    ensures r.0.Valid()
    ensures Registered(df) ==> r == (g, df.dsIdAttr.value)
    ensures !Registered(df) ==> r.1 == GetId(digest, AnonKey(fallback))
    // An unregistered frame becomes a temporary "<runtime>" dataset at line
    // 0 with the frame's length, and its columns are registered under it.
    ensures !Registered(df) ==>
      && r.1 in r.0.datasets.items
      && r.0.datasets.items[r.1] == DatasetNode(r.1, fallback, Temp, None, None, "<runtime>", Some(0), Some(df.rows), run, seenAt)
      && (forall k :: k in g.datasets.items && k != r.1 ==> k in r.0.datasets.items && r.0.datasets.items[k] == g.datasets.items[k])
      && r.0.datasets.items.Keys == g.datasets.items.Keys + {r.1}
      && r.0.datasets.keys == (if r.1 in g.datasets.items then g.datasets.keys else g.datasets.keys + [r.1])
      && r.0.columns == g.columns + ColumnNodes(digest, r.1, df.columns, run)
      && r.0.transforms == g.transforms && r.0.columnStats == g.columnStats
      && r.0.colToTransform == g.colToTransform && r.0.transformToCol == g.transformToCol
      && r.0.datasetToTransform == g.datasetToTransform && r.0.transformToDataset == g.transformToDataset
  {
    if Registered(df) then (g, df.dsIdAttr.value)
    else
      var id := GetId(digest, AnonKey(fallback));
      var node := DatasetNode(id, fallback, Temp, None, None, "<runtime>", Some(0), Some(df.rows), run, seenAt);
      var g1 := WithDataset(g, node);
      (g1.(columns := g1.columns + ColumnNodes(digest, id, df.columns, run)), id)
  }

  method EnsureDatasetNode(t: LineageTracker, digest: Digest, df: Frame, fallback: string, seenAt: real)
    returns (dsId: string)
    requires t.Valid()
    modifies t
    ensures t.Valid()
    ensures (t.State(), dsId) == EnsureInput(old(t.State()), t.runId, digest, df, fallback, seenAt)
  {
    if Registered(df) {
      return df.dsIdAttr.value;
    }
    dsId := GetId(digest, AnonKey(fallback));
    t.InsertDataset(DatasetNode(dsId, fallback, Temp, None, None, "<runtime>", Some(0), Some(df.rows), t.runId, seenAt));
    t.InsertColumns(ColumnNodes(digest, dsId, df.columns, t.runId));
  }

  // ---------------------------------------------------------------------
  // Column statistics (lineage_tracker.py:112-127)

  /** `s.dtype.kind in "biufc"`. */
  predicate Numeric(c: FrameColumn) {
    c.kind in "biufc"
  }

  /** The statistics row of one column: mean and standard deviation for a
      numeric column (absent for an empty one, the deviation also for a
      single value), the most frequent value otherwise. */
  function StatsRow(ds: string, c: FrameColumn, run: string): (s: ColumnStats)
    ensures s.datasetId == ds && s.column == c.name && s.dtype == c.dtype && s.runId == run
    ensures s.count == c.size && s.nulls == c.nulls
    ensures Numeric(c) ==> (s.top.None? && s.topFreq.None?
      && (s.mean.Some? <==> c.size > 0) && (s.std.Some? <==> c.size > 1))
    ensures !Numeric(c) ==> s.mean.None? && s.std.None? && s.top == c.top && s.topFreq == c.topFreq
  {
    if Numeric(c) then
      ColumnStats(ds, c.name, c.dtype, c.size, c.nulls,
        if c.size > 0 then Some(c.mean) else None,
        if c.size > 1 then Some(c.std) else None,
        None, None, run)
    else
      ColumnStats(ds, c.name, c.dtype, c.size, c.nulls, None, None, c.top, c.topFreq, run)
  }

  function StatsRows(ds: string, cols: seq<FrameColumn>, run: string): (r: seq<ColumnStats>)
    ensures |r| == |cols|
    ensures forall i :: 0 <= i < |cols| ==> r[i] == StatsRow(ds, cols[i], run)
  {
    seq(|cols|, i requires 0 <= i < |cols| => StatsRow(ds, cols[i], run))
  }

  /** `_stats_for(df, ds_id)`: one row per column, in column order. */
  method RecordStats(t: LineageTracker, df: Frame, ds: string)
    requires t.Valid()
    modifies t
    ensures t.Valid()
    ensures t.State() == old(t.State()).(columnStats := old(t.columnStats) + StatsRows(ds, df.columns, t.runId))
  {
    var i := 0;
    while i < |df.columns|
      invariant 0 <= i <= |df.columns|
      invariant t.Valid()
      invariant t.State() == old(t.State()).(columnStats := old(t.columnStats) + StatsRows(ds, df.columns[..i], t.runId))
    {
      assert StatsRows(ds, df.columns[..i + 1], t.runId) == StatsRows(ds, df.columns[..i], t.runId) + [StatsRow(ds, df.columns[i], t.runId)];
      t.AppendStats([StatsRow(ds, df.columns[i], t.runId)]);
      i := i + 1;
    }
    assert df.columns[..i] == df.columns;
  }

  // ---------------------------------------------------------------------
  // Effective maps and passthrough (transform.py:63-79)

  /** Analysis results are Python dictionaries. */
  ghost predicate ValidHints(hints: Option<Hints>) {
    hints.Some? ==> hints.value.rename.Valid()
  }

  /** `static_rename`, `{}` when the analysis raised. */
  function StaticRename(hints: Option<Hints>): (d: Dict<string>)
    requires ValidHints(hints)
    ensures d.Valid()
    ensures hints.None? ==> d.items == map[] && d.keys == []
    ensures hints.Some? ==> d == hints.value.rename
  {
    match hints
    case Some(h) => h.rename
    case None => Empty()
  }

  /** `{**static_rename, **rename}`. */
  function EffRename(hints: Option<Hints>, rename: Dict<string>): (eff: Dict<string>)
    requires ValidHints(hints) && rename.Valid()
    ensures eff.Valid()
    ensures eff.items.Keys == StaticRename(hints).items.Keys + rename.items.Keys
    ensures forall k :: k in rename.items ==> eff.items[k] == rename.items[k]
    ensures forall k :: k in StaticRename(hints).items && k !in rename.items ==>
      eff.items[k] == StaticRename(hints).items[k]
  {
    Merge(StaticRename(hints), rename)
  }

  /** Without analysis results the effective rename map is the declared
      one, entries and order. (That the declared map wins on shared keys
      and inferred entries are kept otherwise is `Merge`'s contract.) */
  lemma EffRenameWithoutHints(hints: Option<Hints>, rename: Dict<string>)
    requires ValidHints(hints) && rename.Valid()
    requires StaticRename(hints).items == map[]
    ensures EffRename(hints, rename) == rename
  {
    MergeIntoEmpty(StaticRename(hints), rename);
  }

  /** The inferred passthrough: the declared list when it is not empty;
      otherwise the columns in both frames that the effective maps do not
      mention, sorted. */
  function InferPassthrough(inCols: seq<string>, outCols: seq<string>, eff: Dict<string>, given: seq<string>): (pt: seq<string>)
    ensures given != [] ==> pt == given
    ensures given == [] ==> (StrictlySorted(pt)
      && forall c :: c in pt <==> c in inCols && c in outCols && c !in eff.items)
  {
    if given != [] then given
    else
      var kept := Filter(inCols, outCols, eff);
      var pt := SortedDistinct(kept);
      assert forall c :: c in pt <==> c in Elements(pt);
      assert forall c :: c in kept <==> c in Elements(kept);
      pt
  }

  /** The input columns also present in the output and not in `eff`. */
  function Filter(inCols: seq<string>, outCols: seq<string>, eff: Dict<string>): (r: seq<string>)
    ensures forall c :: c in r <==> c in inCols && c in outCols && c !in eff.items
  {
    if inCols == [] then []
    else
      var rest := Filter(inCols[1..], outCols, eff);
      assert forall c :: c in inCols <==> c == inCols[0] || c in inCols[1..];
      if inCols[0] in outCols && inCols[0] !in eff.items then [inCols[0]] + rest else rest
  }

  // ---------------------------------------------------------------------
  // Column-level edges (transform.py:93-110)

  /** One edge from each named column of `ds` into the transform. */
  function InEdges(digest: Digest, ds: string, tr: string, run: string, names: seq<string>): (es: seq<ColToTransformEdge>)
    ensures |es| == |names|
  {
    if names == [] then []
    else
      InEdges(digest, ds, tr, run, names[..|names| - 1])
        + [ColToTransformEdge(ColId(digest, ds, names[|names| - 1]), tr, run)]
  }
  lemma {:induction false} InEdgesAt(digest: Digest, ds: string, tr: string, run: string, names: seq<string>, i: nat)
    requires i < |names|
    ensures InEdges(digest, ds, tr, run, names)[i] == ColToTransformEdge(ColId(digest, ds, names[i]), tr, run)
  {
    if i < |names| - 1 {
      InEdgesAt(digest, ds, tr, run, names[..|names| - 1], i);
    }
  }


  /** One edge from the transform into each named column of `ds`. */
  function OutEdges(digest: Digest, ds: string, tr: string, run: string, names: seq<string>): (es: seq<TransformToColEdge>)
    ensures |es| == |names|
  {
    if names == [] then []
    else
      OutEdges(digest, ds, tr, run, names[..|names| - 1])
        + [TransformToColEdge(tr, ColId(digest, ds, names[|names| - 1]), run)]
  }
  lemma {:induction false} OutEdgesAt(digest: Digest, ds: string, tr: string, run: string, names: seq<string>, i: nat)
    requires i < |names|
    ensures OutEdges(digest, ds, tr, run, names)[i] == TransformToColEdge(tr, ColId(digest, ds, names[i]), run)
  {
    if i < |names| - 1 {
      OutEdgesAt(digest, ds, tr, run, names[..|names| - 1], i);
    }
  }


  /** Iterating a string gives its one-character strings. */
  function CharNames(s: string): (r: seq<string>)
    ensures |r| == |s|
    ensures forall i :: 0 <= i < |s| ==> r[i] == [s[i]]
  {
    seq(|s|, i requires 0 <= i < |s| => [s[i]])
  }

  /** The in-edges of the derive loop, given the values of the map it
      walks in key order: for each value, one edge per character. */
  function DeriveInEdges(digest: Digest, ds: string, tr: string, run: string, vs: seq<string>): seq<ColToTransformEdge>
  {
    if vs == [] then []
    else
      DeriveInEdges(digest, ds, tr, run, vs[..|vs| - 1])
        + InEdges(digest, ds, tr, run, CharNames(vs[|vs| - 1]))
  }

  lemma DeriveInEdgesSnoc(digest: Digest, ds: string, tr: string, run: string, vs: seq<string>, i: nat)
    requires i < |vs|
    ensures DeriveInEdges(digest, ds, tr, run, vs[..i + 1])
      == DeriveInEdges(digest, ds, tr, run, vs[..i]) + InEdges(digest, ds, tr, run, CharNames(vs[i]))
  {
    assert vs[..i + 1][..i] == vs[..i];
  }

  /** The derive loop adds one in-edge per character of the values. */
  lemma {:induction false} DeriveInEdgesCount(digest: Digest, ds: string, tr: string, run: string, vs: seq<string>)
    ensures |DeriveInEdges(digest, ds, tr, run, vs)| == TotalLength(vs)
  {
    if vs != [] {
      TotalLengthSnoc(vs);
      DeriveInEdgesCount(digest, ds, tr, run, vs[..|vs| - 1]);
    }
  }

  lemma {:induction false} TotalLengthSnoc(vs: seq<string>)
    requires vs != []
    ensures TotalLength(vs) == TotalLength(vs[..|vs| - 1]) + |vs[|vs| - 1]|
  {
    if |vs| > 1 {
      assert vs[1..][..|vs[1..]| - 1] == vs[..|vs| - 1][1..];
      TotalLengthSnoc(vs[1..]);
    } else {
      assert vs[1..] == [];
    }
  }

  /** Every character of every value gives an edge from the input column
      whose name is that single character. */
  lemma {:induction false} DeriveInEdgesFromCharacters(digest: Digest, ds: string, tr: string, run: string, vs: seq<string>, n: nat, j: nat)
    requires n < |vs| && j < |vs[n]|
    ensures ColToTransformEdge(ColId(digest, ds, [vs[n][j]]), tr, run) in DeriveInEdges(digest, ds, tr, run, vs)
  {
    var init := vs[..|vs| - 1];
    var here := InEdges(digest, ds, tr, run, CharNames(vs[|vs| - 1]));
    assert DeriveInEdges(digest, ds, tr, run, vs) == DeriveInEdges(digest, ds, tr, run, init) + here;
    if n < |vs| - 1 {
      assert init[n] == vs[n];
      DeriveInEdgesFromCharacters(digest, ds, tr, run, init, n, j);
    } else {
      InEdgesAt(digest, ds, tr, run, CharNames(vs[n]), j);
    }
  }

  /** Conversely, every derive in-edge comes from a one-character column
      name taken from some value, and carries the transform and the run. */
  lemma {:induction false} DeriveInEdgesOnlyFromCharacters(digest: Digest, ds: string, tr: string, run: string, vs: seq<string>, e: ColToTransformEdge)
    requires e in DeriveInEdges(digest, ds, tr, run, vs)
    ensures e.transformId == tr && e.runId == run
    ensures exists n, j :: 0 <= n < |vs| && 0 <= j < |vs[n]| && e.srcColId == ColId(digest, ds, [vs[n][j]])
  {
    var init := vs[..|vs| - 1];
    var here := InEdges(digest, ds, tr, run, CharNames(vs[|vs| - 1]));
    assert DeriveInEdges(digest, ds, tr, run, vs) == DeriveInEdges(digest, ds, tr, run, init) + here;
    if e in here {
      var j :| 0 <= j < |here| && here[j] == e;
      InEdgesAt(digest, ds, tr, run, CharNames(vs[|vs| - 1]), j);
    } else {
      DeriveInEdgesOnlyFromCharacters(digest, ds, tr, run, init, e);
      var n, j :| 0 <= n < |init| && 0 <= j < |init[n]| && e.srcColId == ColId(digest, ds, [init[n][j]]);
      assert init[n] == vs[n];
    }
  }

  /** All in-edges one call appends: passthrough, rename, derive. */
  function PlanIn(digest: Digest, inDs: string, tr: string, run: string, pt: seq<string>, eff: Dict<string>): seq<ColToTransformEdge>
    requires eff.Valid()
  {
    InEdges(digest, inDs, tr, run, pt)
      + InEdges(digest, inDs, tr, run, eff.keys)
      + DeriveInEdges(digest, inDs, tr, run, eff.Values())
  }

  /** All out-edges one call appends: passthrough, rename (to the new
      name), derive (to the entry's key, the old name). */
  function PlanOut(digest: Digest, outDs: string, tr: string, run: string, pt: seq<string>, eff: Dict<string>): seq<TransformToColEdge>
    requires eff.Valid()
  {
    OutEdges(digest, outDs, tr, run, pt)
      + OutEdges(digest, outDs, tr, run, eff.Values())
      + OutEdges(digest, outDs, tr, run, eff.keys)
  }

  // ---------------------------------------------------------------------
  // The whole call (transform.py:24-112)

  function OutputNode(digest: Digest, decl: TransformDecl, df: Frame, run: string, t0: real): DatasetNode {
    DatasetNode(OutputDatasetId(digest, decl), decl.produces, Temp, None, None,
      SourceFile(decl), CodeLine(decl.sourceLine), Some(df.rows), run, t0)
  }

  function TransformNodeOf(digest: Digest, render: Config -> string, decl: TransformDecl, run: string, t0: real): TransformNode {
    TransformNode(TransformId(digest, render, decl), decl.name, SourceFile(decl),
      CodeLine(decl.sourceLine), ParamsHashOf(digest, render, decl), run, t0)
  }

  /** The passthrough list a call uses. */
  /** `df_in.columns` is read after the function ran, so the input side of
      the inferred passthrough is `inAfter`, not the columns registered for
      the input dataset before the call. */
  function CallPassthrough(decl: TransformDecl, hints: Option<Hints>, inAfter: seq<string>, dfOut: Frame): seq<string>
    requires ValidHints(hints) && decl.rename.Valid()
  {
    InferPassthrough(inAfter, ColumnNames(dfOut.columns), EffRename(hints, decl.rename), decl.passthrough)
  }

  /** Registering the output dataset, its columns and their statistics. */
  function OutputRegistered(g: Graph, run: string, digest: Digest, decl: TransformDecl, dfOut: Frame, t0: real): (r: Graph)
    requires g.Valid()
    ensures r.Valid()
  {
    var outDs := OutputDatasetId(digest, decl);
    var g1 := WithDataset(g, OutputNode(digest, decl, dfOut, run, t0));
    g1.(columns := g1.columns + ColumnNodes(digest, outDs, dfOut.columns, run),
        columnStats := g1.columnStats + StatsRows(outDs, dfOut.columns, run))
  }

  /** Registering the transform node and its two dataset-level edges. */
  function TransformRegistered(g: Graph, run: string, digest: Digest, render: Config -> string, decl: TransformDecl,
                               inDs: string, t0: real): (r: Graph)
    requires g.Valid()
    ensures r.Valid()
  {
    var tr := TransformId(digest, render, decl);
    var g1 := WithTransform(g, TransformNodeOf(digest, render, decl, run, t0));
    g1.(datasetToTransform := g1.datasetToTransform + [DatasetToTransformEdge(inDs, tr, run)],
        transformToDataset := g1.transformToDataset + [TransformToDatasetEdge(tr, OutputDatasetId(digest, decl), run)])
  }

  /** Appending the column-level edges of the three loops. */
  function ColumnEdgesAdded(g: Graph, run: string, digest: Digest, inDs: string, outDs: string, tr: string,
                            pt: seq<string>, eff: Dict<string>): Graph
    requires eff.Valid()
  {
    g.(colToTransform := g.colToTransform + PlanIn(digest, inDs, tr, run, pt, eff),
       transformToCol := g.transformToCol + PlanOut(digest, outDs, tr, run, pt, eff))
  }

  /** What a call that returned a frame adds after the input is registered. */
  function Produce(g: Graph, run: string, digest: Digest, render: Config -> string, decl: TransformDecl,
                   hints: Option<Hints>, inAfter: seq<string>, inDs: string, dfOut: Frame, t0: real): (r: Graph)
    requires g.Valid() && decl.rename.Valid() && ValidHints(hints)
    ensures r.Valid()
  {
    var g1 := OutputRegistered(g, run, digest, decl, dfOut, t0);
    var g2 := TransformRegistered(g1, run, digest, render, decl, inDs, t0);
    ColumnEdgesAdded(g2, run, digest, inDs, OutputDatasetId(digest, decl), TransformId(digest, render, decl),
      CallPassthrough(decl, hints, inAfter, dfOut), EffRename(hints, decl.rename))
  }

  /** The graph after one call, and what the call did. */
  function AfterCall(g: Graph, run: string, digest: Digest, render: Config -> string, decl: TransformDecl, call: Call): (r: (Graph, Outcome))
    requires g.Valid() && decl.rename.Valid() && ValidHints(call.hints)
    ensures r.0.Valid()
  {
    match FirstFrame(call.args)
    case None => (g, NoFrameArgument)
    case Some(dfIn) =>
      var (g1, inDs) := EnsureInput(g, run, digest, dfIn, decl.name + "_input", call.inputSeenAt);
      match call.result
      case None => (g1, ReturnedNonFrame(inDs))
      case Some(dfOut) =>
        (Produce(g1, run, digest, render, decl, call.hints, call.inputColumnsAfter, inDs, dfOut, call.startedAt),
         Recorded(inDs, OutputDatasetId(digest, decl)))
  }

  /** One iteration of the passthrough or rename loop: an edge from the
      input column into the transform, one from the transform into the
      output column. */
  method EmitPair(t: LineageTracker, inCol: string, outCol: string, tr: string)
    requires t.Valid()
    modifies t
    ensures t.Valid()
    ensures t.State() == old(t.State()).(
      colToTransform := old(t.colToTransform) + [ColToTransformEdge(inCol, tr, t.runId)],
      transformToCol := old(t.transformToCol) + [TransformToColEdge(tr, outCol, t.runId)])
  {
    t.InsertColToTransform([ColToTransformEdge(inCol, tr, t.runId)]);
    t.InsertTransformToCol([TransformToColEdge(tr, outCol, t.runId)]);
  }

  /** The state after the first `i` pairs `olds[j] -> news[j]`. */
  ghost predicate PairsDone(g: Graph, g0: Graph, digest: Digest, inDs: string, outDs: string, tr: string, run: string,
                            olds: seq<string>, news: seq<string>, i: nat)
    requires i <= |olds| && i <= |news|
  {
    g == g0.(colToTransform := g0.colToTransform + InEdges(digest, inDs, tr, run, olds[..i]),
             transformToCol := g0.transformToCol + OutEdges(digest, outDs, tr, run, news[..i]))
  }

  /** Pair `i` of the passthrough or rename loop. */
  method EmitPairStep(t: LineageTracker, digest: Digest, inDs: string, outDs: string, tr: string,
                      olds: seq<string>, news: seq<string>, i: nat, ghost g0: Graph)
    requires t.Valid() && |olds| == |news| && i < |olds|
    requires PairsDone(t.State(), g0, digest, inDs, outDs, tr, t.runId, olds, news, i)
    modifies t
    ensures t.Valid()
    ensures PairsDone(t.State(), g0, digest, inDs, outDs, tr, t.runId, olds, news, i + 1)
  {
    ghost var g := t.State();
    EmitPair(t, ColId(digest, inDs, olds[i]), ColId(digest, outDs, news[i]), tr);
    InEdgesSnoc(digest, inDs, tr, t.runId, olds, i);
    OutEdgesSnoc(digest, outDs, tr, t.runId, news, i);
    EdgesAppendedTwice(g0, g, t.State(),
      InEdges(digest, inDs, tr, t.runId, olds[..i]), [ColToTransformEdge(ColId(digest, inDs, olds[i]), tr, t.runId)],
      OutEdges(digest, outDs, tr, t.runId, news[..i]), [TransformToColEdge(tr, ColId(digest, outDs, news[i]), t.runId)]);
  }

  lemma InEdgesSnoc(digest: Digest, ds: string, tr: string, run: string, names: seq<string>, i: nat)
    requires i < |names|
    ensures InEdges(digest, ds, tr, run, names[..i + 1])
      == InEdges(digest, ds, tr, run, names[..i]) + [ColToTransformEdge(ColId(digest, ds, names[i]), tr, run)]
  {
    assert names[..i + 1][..i] == names[..i];
  }

  /** `for c in inferred_passthrough`: the same name on both sides. */
  method EmitPassthrough(t: LineageTracker, digest: Digest, inDs: string, outDs: string, tr: string, pt: seq<string>)
    requires t.Valid()
    modifies t
    ensures t.Valid()
    ensures t.State() == old(t.State()).(
      colToTransform := old(t.colToTransform) + InEdges(digest, inDs, tr, t.runId, pt),
      transformToCol := old(t.transformToCol) + OutEdges(digest, outDs, tr, t.runId, pt))
  {
    ghost var g0 := t.State();
    var i := 0;
    while i < |pt|
      invariant 0 <= i <= |pt|
      invariant t.Valid()
      invariant PairsDone(t.State(), g0, digest, inDs, outDs, tr, t.runId, pt, pt, i)
    {
      EmitPairStep(t, digest, inDs, outDs, tr, pt, pt, i, g0);
      i := i + 1;
    }
    assert pt[..i] == pt;
  }

  /** `for old, new in eff_rename.items()`, the entries given as the keys
      `olds` and the values `news` in order. */
  method EmitRenames(t: LineageTracker, digest: Digest, inDs: string, outDs: string, tr: string, olds: seq<string>, news: seq<string>)
    requires t.Valid() && |olds| == |news|
    modifies t
    ensures t.Valid()
    ensures t.State() == old(t.State()).(
      colToTransform := old(t.colToTransform) + InEdges(digest, inDs, tr, t.runId, olds),
      transformToCol := old(t.transformToCol) + OutEdges(digest, outDs, tr, t.runId, news))
  {
    ghost var g0 := t.State();
    var i := 0;
    while i < |olds|
      invariant 0 <= i <= |olds|
      invariant t.Valid()
      invariant PairsDone(t.State(), g0, digest, inDs, outDs, tr, t.runId, olds, news, i)
    {
      EmitPairStep(t, digest, inDs, outDs, tr, olds, news, i, g0);
      i := i + 1;
    }
    assert olds[..i] == olds;
    assert news[..i] == news;
  }

  /** The derive loop as written, over the entries `ks[i] -> vs[i]` of
      `eff_derives`, whose values are strings: an edge into the output
      column `ks[i]`, then one from the input column named by each
      character of `vs[i]`. */
  method EmitDerives(t: LineageTracker, digest: Digest, inDs: string, outDs: string, tr: string, ks: seq<string>, vs: seq<string>)
    requires t.Valid() && |ks| == |vs|
    modifies t
    ensures t.Valid()
    ensures t.State() == old(t.State()).(
      colToTransform := old(t.colToTransform) + DeriveInEdges(digest, inDs, tr, t.runId, vs),
      transformToCol := old(t.transformToCol) + OutEdges(digest, outDs, tr, t.runId, ks))
  {
    ghost var g0 := t.State();
    var i := 0;
    while i < |ks|
      invariant 0 <= i <= |ks|
      invariant t.Valid()
      invariant DerivesDone(t.State(), g0, digest, inDs, outDs, tr, t.runId, ks, vs, i)
    {
      EmitDerive(t, digest, inDs, outDs, tr, ks, vs, i, g0);
      i := i + 1;
    }
    assert ks[..i] == ks;
    assert vs[..i] == vs;
  }

  /** The state after the first `i` iterations of the derive loop. */
  ghost predicate DerivesDone(g: Graph, g0: Graph, digest: Digest, inDs: string, outDs: string, tr: string, run: string,
                              ks: seq<string>, vs: seq<string>, i: nat)
    requires i <= |ks| && i <= |vs|
  {
    g == g0.(colToTransform := g0.colToTransform + DeriveInEdges(digest, inDs, tr, run, vs[..i]),
             transformToCol := g0.transformToCol + OutEdges(digest, outDs, tr, run, ks[..i]))
  }

  /** Iteration `i` of the derive loop. */
  method EmitDerive(t: LineageTracker, digest: Digest, inDs: string, outDs: string, tr: string,
                    ks: seq<string>, vs: seq<string>, i: nat, ghost g0: Graph)
    requires t.Valid() && |ks| == |vs| && i < |ks|
    requires DerivesDone(t.State(), g0, digest, inDs, outDs, tr, t.runId, ks, vs, i)
    modifies t
    ensures t.Valid()
    ensures DerivesDone(t.State(), g0, digest, inDs, outDs, tr, t.runId, ks, vs, i + 1)
  {
    ghost var g := t.State();
    var e := TransformToColEdge(tr, ColId(digest, outDs, ks[i]), t.runId);
    t.InsertTransformToCol([e]);
    EmitCharacterEdges(t, digest, inDs, tr, vs[i]);
    DeriveStep(g0, g, t.State(), digest, inDs, outDs, tr, t.runId, ks, vs, i);
  }

  lemma DeriveStep(g0: Graph, g: Graph, g': Graph, digest: Digest, inDs: string, outDs: string, tr: string, run: string,
                   ks: seq<string>, vs: seq<string>, i: nat)
    requires |ks| == |vs| && i < |ks|
    requires DerivesDone(g, g0, digest, inDs, outDs, tr, run, ks, vs, i)
    requires g' == g.(colToTransform := g.colToTransform + InEdges(digest, inDs, tr, run, CharNames(vs[i])),
                      transformToCol := g.transformToCol + [TransformToColEdge(tr, ColId(digest, outDs, ks[i]), run)])
    ensures DerivesDone(g', g0, digest, inDs, outDs, tr, run, ks, vs, i + 1)
  {
    DeriveInEdgesSnoc(digest, inDs, tr, run, vs, i);
    OutEdgesSnoc(digest, outDs, tr, run, ks, i);
    EdgesAppendedTwice(g0, g, g',
      DeriveInEdges(digest, inDs, tr, run, vs[..i]), InEdges(digest, inDs, tr, run, CharNames(vs[i])),
      OutEdges(digest, outDs, tr, run, ks[..i]), [TransformToColEdge(tr, ColId(digest, outDs, ks[i]), run)]);
  }

  lemma OutEdgesSnoc(digest: Digest, ds: string, tr: string, run: string, names: seq<string>, i: nat)
    requires i < |names|
    ensures OutEdges(digest, ds, tr, run, names[..i + 1])
      == OutEdges(digest, ds, tr, run, names[..i]) + [TransformToColEdge(tr, ColId(digest, ds, names[i]), run)]
  {
    assert names[..i + 1][..i] == names[..i];
  }

  /** `for src in inputs` where `inputs` is a string. */
  method EmitCharacterEdges(t: LineageTracker, digest: Digest, inDs: string, tr: string, inputs: string)
    requires t.Valid()
    modifies t
    ensures t.Valid()
    ensures t.State() == old(t.State()).(
      colToTransform := old(t.colToTransform) + InEdges(digest, inDs, tr, t.runId, CharNames(inputs)))
  {
    var srcs := CharNames(inputs);
    var j := 0;
    while j < |inputs|
      invariant 0 <= j <= |inputs|
      invariant t.Valid()
      invariant t.State() == old(t.State()).(
        colToTransform := old(t.colToTransform) + InEdges(digest, inDs, tr, t.runId, srcs[..j]))
    {
      assert srcs[..j + 1][..j] == srcs[..j];
      t.InsertColToTransform([ColToTransformEdge(ColId(digest, inDs, [inputs[j]]), tr, t.runId)]);
      j := j + 1;
    }
    assert srcs[..j] == srcs;
  }

  method RegisterOutput(t: LineageTracker, digest: Digest, decl: TransformDecl, dfOut: Frame, t0: real)
    returns (outDs: string)
    requires t.Valid()
    modifies t
    ensures t.Valid()
    ensures outDs == OutputDatasetId(digest, decl)
    ensures t.State() == OutputRegistered(old(t.State()), t.runId, digest, decl, dfOut, t0)
  {
    outDs := OutputDatasetId(digest, decl);
    t.InsertDataset(OutputNode(digest, decl, dfOut, t.runId, t0));
    t.InsertColumns(ColumnNodes(digest, outDs, dfOut.columns, t.runId));
    RecordStats(t, dfOut, outDs);
  }

  method RegisterTransform(t: LineageTracker, digest: Digest, render: Config -> string, decl: TransformDecl, inDs: string, t0: real)
    returns (tr: string)
    requires t.Valid()
    modifies t
    ensures t.Valid()
    ensures tr == TransformId(digest, render, decl)
    ensures t.State() == TransformRegistered(old(t.State()), t.runId, digest, render, decl, inDs, t0)
  {
    tr := TransformId(digest, render, decl);
    t.InsertTransform(TransformNodeOf(digest, render, decl, t.runId, t0));
    t.InsertDatasetToTransform([DatasetToTransformEdge(inDs, tr, t.runId)]);
    t.InsertTransformToDataset([TransformToDatasetEdge(tr, OutputDatasetId(digest, decl), t.runId)]);
  }

  /** The passthrough, rename and derive loops; `eff_derives` is the same
      map as `eff_rename`. */
  method EmitColumnEdges(t: LineageTracker, digest: Digest, inDs: string, outDs: string, tr: string,
                         pt: seq<string>, effRename: Dict<string>, effDerives: Dict<string>)
    requires t.Valid() && effRename.Valid() && effDerives == effRename
    modifies t
    ensures t.Valid()
    ensures t.State() == ColumnEdgesAdded(old(t.State()), t.runId, digest, inDs, outDs, tr, pt, effRename)
  {
    ghost var g0 := t.State();
    EmitPassthrough(t, digest, inDs, outDs, tr, pt);
    ghost var g1 := t.State();
    EmitRenames(t, digest, inDs, outDs, tr, effRename.keys, effRename.Values());
    EdgesAppendedTwice(g0, g1, t.State(),
      InEdges(digest, inDs, tr, t.runId, pt), InEdges(digest, inDs, tr, t.runId, effRename.keys),
      OutEdges(digest, outDs, tr, t.runId, pt), OutEdges(digest, outDs, tr, t.runId, effRename.Values()));
    ghost var g2 := t.State();
    EmitDerives(t, digest, inDs, outDs, tr, effDerives.keys, effDerives.Values());
    EdgesAppendedTwice(g0, g2, t.State(),
      InEdges(digest, inDs, tr, t.runId, pt) + InEdges(digest, inDs, tr, t.runId, effRename.keys),
      DeriveInEdges(digest, inDs, tr, t.runId, effDerives.Values()),
      OutEdges(digest, outDs, tr, t.runId, pt) + OutEdges(digest, outDs, tr, t.runId, effRename.Values()),
      OutEdges(digest, outDs, tr, t.runId, effDerives.keys));
  }

  /** `wrapper(*args, **kwargs)` for one call. */
  method Wrapper(t: LineageTracker, digest: Digest, render: Config -> string, decl: TransformDecl, call: Call)
    returns (outcome: Outcome)
    requires t.Valid() && decl.rename.Valid() && ValidHints(call.hints)
    modifies t
    ensures t.Valid()
    ensures (t.State(), outcome) == AfterCall(old(t.State()), t.runId, digest, render, decl, call)
  {
    var found := FindFrame(call.args);
    if found.None? {
      return NoFrameArgument;
    }
    var dfIn := found.value;
    var inDs := EnsureDatasetNode(t, digest, dfIn, decl.name + "_input", call.inputSeenAt);
    if call.result.None? {
      return ReturnedNonFrame(inDs);
    }
    var dfOut := call.result.value;
    var t0 := call.startedAt;
    var outDs := RegisterOutput(t, digest, decl, dfOut, t0);
    var effRename := EffRename(call.hints, decl.rename);
    var effDerives := EffRename(call.hints, decl.rename);
    var pt := InferPassthrough(call.inputColumnsAfter, ColumnNames(dfOut.columns), effRename, decl.passthrough);
    var tr := RegisterTransform(t, digest, render, decl, inDs, t0);
    EmitColumnEdges(t, digest, inDs, outDs, tr, pt, effRename, effDerives);
    return Recorded(inDs, outDs);
  }

  // ---------------------------------------------------------------------
  // Properties of the recorded edges

  /** How many column edges one call appends: one in and one out per
      passthrough column, one in and one out per rename entry, and for the
      derive loop one out per rename entry and one in per character of the
      new names. The declared `derives` count nowhere. */
  lemma {:induction false} PlanCounts(digest: Digest, inDs: string, outDs: string, tr: string, run: string, pt: seq<string>, eff: Dict<string>)
    requires eff.Valid()
    ensures |PlanIn(digest, inDs, tr, run, pt, eff)| == |pt| + |eff.items| + TotalLength(eff.Values())
    ensures |PlanOut(digest, outDs, tr, run, pt, eff)| == |pt| + 2 * |eff.items|
  {
    ValuesCount(eff);
    DeriveInEdgesCount(digest, inDs, tr, run, eff.Values());
  }

  /** Each passthrough column `c` is linked from `c` of the input dataset
      into the transform and from the transform to `c` of the output. */
  lemma {:induction false} PassthroughLineage(digest: Digest, inDs: string, outDs: string, tr: string, run: string,
                                              pt: seq<string>, eff: Dict<string>, c: string)
    requires eff.Valid() && c in pt
    ensures ColToTransformEdge(ColId(digest, inDs, c), tr, run) in PlanIn(digest, inDs, tr, run, pt, eff)
    ensures TransformToColEdge(tr, ColId(digest, outDs, c), run) in PlanOut(digest, outDs, tr, run, pt, eff)
  {
    var i :| 0 <= i < |pt| && pt[i] == c;
    InEdgesAt(digest, inDs, tr, run, pt, i);
    OutEdgesAt(digest, outDs, tr, run, pt, i);
  }

  /** Each entry `old -> new` of the effective rename map links `old` of
      the input into the transform and the transform to `new` of the
      output. */
  lemma {:induction false} RenameLineage(digest: Digest, inDs: string, outDs: string, tr: string, run: string,
                                         pt: seq<string>, eff: Dict<string>, oldName: string)
    requires eff.Valid() && oldName in eff.items
    ensures ColToTransformEdge(ColId(digest, inDs, oldName), tr, run) in PlanIn(digest, inDs, tr, run, pt, eff)
    ensures TransformToColEdge(tr, ColId(digest, outDs, eff.items[oldName]), run) in PlanOut(digest, outDs, tr, run, pt, eff)
  {
    var i :| 0 <= i < |eff.keys| && eff.keys[i] == oldName;
    InEdgesAt(digest, inDs, tr, run, eff.keys, i);
    OutEdgesAt(digest, outDs, tr, run, eff.Values(), i);
  }

  /** The derive loop as written: for each rename entry `old -> new` it
      links the transform to the output column named `old` and, for each
      character `ch` of `new`, the input column named `[ch]` into the
      transform. */
  lemma {:induction false} DeriveLineageAsWritten(digest: Digest, inDs: string, outDs: string, tr: string, run: string,
                                                  pt: seq<string>, eff: Dict<string>, oldName: string, j: nat)
    requires eff.Valid() && oldName in eff.items && j < |eff.items[oldName]|
    ensures TransformToColEdge(tr, ColId(digest, outDs, oldName), run) in PlanOut(digest, outDs, tr, run, pt, eff)
    ensures ColToTransformEdge(ColId(digest, inDs, [eff.items[oldName][j]]), tr, run) in PlanIn(digest, inDs, tr, run, pt, eff)
  {
    var i :| 0 <= i < |eff.keys| && eff.keys[i] == oldName;
    OutEdgesAt(digest, outDs, tr, run, eff.keys, i);
    DeriveInEdgesFromCharacters(digest, inDs, tr, run, eff.Values(), i, j);
  }

  /** Every appended in-edge carries the transform and the run, and starts
      at an input column that is a passthrough column, a renamed column or
      a single character of a new name. */
  lemma {:induction false} PlanInSources(digest: Digest, inDs: string, tr: string, run: string,
                                         pt: seq<string>, eff: Dict<string>, e: ColToTransformEdge)
    requires eff.Valid() && e in PlanIn(digest, inDs, tr, run, pt, eff)
    ensures e.transformId == tr && e.runId == run
    ensures exists c :: (e.srcColId == ColId(digest, inDs, c)
      && (c in pt || c in eff.items || exists k, j :: k in eff.items && 0 <= j < |eff.items[k]| && c == [eff.items[k][j]]))
  {
    var a := InEdges(digest, inDs, tr, run, pt);
    var b := InEdges(digest, inDs, tr, run, eff.keys);
    var vs := eff.Values();
    if e in a {
      var i :| 0 <= i < |a| && a[i] == e;
      InEdgesAt(digest, inDs, tr, run, pt, i);
      var c := pt[i];
      assert e.srcColId == ColId(digest, inDs, c) && c in pt;
      InSource(digest, inDs, e, pt, eff, c);
    } else if e in b {
      var i :| 0 <= i < |b| && b[i] == e;
      InEdgesAt(digest, inDs, tr, run, eff.keys, i);
      var c := eff.keys[i];
      assert e.srcColId == ColId(digest, inDs, c) && c in eff.items;
      InSource(digest, inDs, e, pt, eff, c);
    } else {
      DeriveInEdgesOnlyFromCharacters(digest, inDs, tr, run, vs, e);
      var n, j :| 0 <= n < |vs| && 0 <= j < |vs[n]| && e.srcColId == ColId(digest, inDs, [vs[n][j]]);
      var k := eff.keys[n];
      assert k in eff.items && vs[n] == eff.items[k];
      var c := [eff.items[k][j]];
      assert e.srcColId == ColId(digest, inDs, c);
      assert k in eff.items && 0 <= j < |eff.items[k]| && c == [eff.items[k][j]];
      InSource(digest, inDs, e, pt, eff, c);
    }
  }

  lemma InSource(digest: Digest, inDs: string, e: ColToTransformEdge, pt: seq<string>, eff: Dict<string>, c: string)
    requires e.srcColId == ColId(digest, inDs, c)
    requires c in pt || c in eff.items || exists k, j :: k in eff.items && 0 <= j < |eff.items[k]| && c == [eff.items[k][j]]
    ensures exists c :: (e.srcColId == ColId(digest, inDs, c)
      && (c in pt || c in eff.items || exists k, j :: k in eff.items && 0 <= j < |eff.items[k]| && c == [eff.items[k][j]]))
  {
  }

  /** Every appended out-edge carries the transform and the run, and ends
      at an output column named by a passthrough column, a rename key or a
      rename value. */
  lemma {:induction false} PlanOutTargets(digest: Digest, outDs: string, tr: string, run: string,
                                          pt: seq<string>, eff: Dict<string>, e: TransformToColEdge)
    requires eff.Valid() && e in PlanOut(digest, outDs, tr, run, pt, eff)
    ensures e.transformId == tr && e.runId == run
    ensures exists c :: (e.destColId == ColId(digest, outDs, c)
      && (c in pt || c in eff.items || exists k :: k in eff.items && c == eff.items[k]))
  {
    var a := OutEdges(digest, outDs, tr, run, pt);
    var b := OutEdges(digest, outDs, tr, run, eff.Values());
    var d := OutEdges(digest, outDs, tr, run, eff.keys);
    if e in a {
      var i :| 0 <= i < |a| && a[i] == e;
      OutEdgesAt(digest, outDs, tr, run, pt, i);
      assert e.destColId == ColId(digest, outDs, pt[i]);
    } else if e in b {
      var i :| 0 <= i < |b| && b[i] == e;
      OutEdgesAt(digest, outDs, tr, run, eff.Values(), i);
      assert e.destColId == ColId(digest, outDs, eff.items[eff.keys[i]]);
    } else {
      assert e in d;
      var i :| 0 <= i < |d| && d[i] == e;
      OutEdgesAt(digest, outDs, tr, run, eff.keys, i);
      assert e.destColId == ColId(digest, outDs, eff.keys[i]);
    }
  }

  /** A declared derived column that is neither passed through nor named
      by a rename entry gets no incoming edge, whatever `derives` says,
      as long as its id differs from the ids of those columns (ids are
      16-character digest prefixes, so only this call's names are
      assumed not to collide). */
  lemma DerivedColumnUnlinked(digest: Digest, outDs: string, tr: string, run: string,
                              pt: seq<string>, eff: Dict<string>, derived: string)
    requires eff.Valid()
    requires forall n :: n in pt ==> ColId(digest, outDs, n) != ColId(digest, outDs, derived)
    requires forall n :: n in eff.items ==> ColId(digest, outDs, n) != ColId(digest, outDs, derived)
    requires forall k :: k in eff.items ==> ColId(digest, outDs, eff.items[k]) != ColId(digest, outDs, derived)
    ensures TransformToColEdge(tr, ColId(digest, outDs, derived), run) !in PlanOut(digest, outDs, tr, run, pt, eff)
  {
    if TransformToColEdge(tr, ColId(digest, outDs, derived), run) in PlanOut(digest, outDs, tr, run, pt, eff) {
      PlanOutTargets(digest, outDs, tr, run, pt, eff, TransformToColEdge(tr, ColId(digest, outDs, derived), run));
    }
  }

  /** The outcome of a call (the ids it reports) does not depend on the
      run, the clock or the graph recorded so far. */
  lemma IdsIndependentOfRun(g1: Graph, g2: Graph, run1: string, run2: string, digest: Digest, render: Config -> string,
                            decl: TransformDecl, call: Call, t0: real, seen: real)
    requires g1.Valid() && g2.Valid() && decl.rename.Valid() && ValidHints(call.hints)
    ensures AfterCall(g1, run1, digest, render, decl, call).1
         == AfterCall(g2, run2, digest, render, decl, call.(startedAt := t0, inputSeenAt := seen)).1
  {
  }

  /** With no frame argument nothing is recorded. With a result that is
      not a frame only the input dataset is registered (nothing at all when
      the input frame already carries an id). */
  lemma {:induction false} EarlyExits(g: Graph, run: string, digest: Digest, render: Config -> string, decl: TransformDecl, call: Call)
    requires g.Valid() && decl.rename.Valid() && ValidHints(call.hints)
    ensures FirstFrame(call.args).None? ==> AfterCall(g, run, digest, render, decl, call) == (g, NoFrameArgument)
    ensures FirstFrame(call.args).Some? && call.result.None? ==>
      var df := FirstFrame(call.args).value;
      var (g1, inDs) := EnsureInput(g, run, digest, df, decl.name + "_input", call.inputSeenAt);
      && AfterCall(g, run, digest, render, decl, call) == (g1, ReturnedNonFrame(inDs))
      && g1.transforms == g.transforms
      && g1.colToTransform == g.colToTransform && g1.transformToCol == g.transformToCol
      && g1.datasetToTransform == g.datasetToTransform && g1.transformToDataset == g.transformToDataset
      && g1.columnStats == g.columnStats
      && (Registered(df) ==> g1 == g)
  {
  }

  /** A recorded call registers its output dataset and its transform under
      their ids, and ends the dataset-level edge lists with the edge from
      the input dataset and the edge to the output dataset; all of them
      carry the run id. */
  lemma {:induction false} RecordedCall(g: Graph, run: string, digest: Digest, render: Config -> string, decl: TransformDecl, call: Call)
    requires g.Valid() && decl.rename.Valid() && ValidHints(call.hints)
    requires AfterCall(g, run, digest, render, decl, call).1.Recorded?
    ensures var (g', out) := AfterCall(g, run, digest, render, decl, call);
      var tr := TransformId(digest, render, decl);
      && out.outDsId == OutputDatasetId(digest, decl)
      && out.outDsId in g'.datasets.items && g'.datasets.items[out.outDsId].runId == run
      && tr in g'.transforms.items && g'.transforms.items[tr].runId == run
      && |g'.datasetToTransform| > 0 && g'.datasetToTransform[|g'.datasetToTransform| - 1] == DatasetToTransformEdge(out.inDsId, tr, run)
      && |g'.transformToDataset| > 0 && g'.transformToDataset[|g'.transformToDataset| - 1] == TransformToDatasetEdge(tr, out.outDsId, run)
  {
  }

  /** With no declared passthrough, a column the output shares with the
      input frame as it stands after the call, and that the effective
      rename map does not name, is linked in and out; this includes a
      column the function added to its argument in place. */
  lemma {:induction false} PassthroughAfterCall(g: Graph, run: string, digest: Digest, render: Config -> string,
                                                decl: TransformDecl, call: Call, c: string)
    requires g.Valid() && decl.rename.Valid() && ValidHints(call.hints)
    requires AfterCall(g, run, digest, render, decl, call).1.Recorded?
    requires decl.passthrough == []
    requires c in call.inputColumnsAfter && c in ColumnNames(call.result.value.columns)
    requires c !in EffRename(call.hints, decl.rename).items
    ensures var (g', out) := AfterCall(g, run, digest, render, decl, call);
      var tr := TransformId(digest, render, decl);
      && ColToTransformEdge(ColId(digest, out.inDsId, c), tr, run) in g'.colToTransform
      && TransformToColEdge(tr, ColId(digest, out.outDsId, c), run) in g'.transformToCol
  {
    var dfIn := FirstFrame(call.args).value;
    var (g1, inDs) := EnsureInput(g, run, digest, dfIn, decl.name + "_input", call.inputSeenAt);
    var dfOut := call.result.value;
    var eff := EffRename(call.hints, decl.rename);
    var pt := CallPassthrough(decl, call.hints, call.inputColumnsAfter, dfOut);
    var outDs := OutputDatasetId(digest, decl);
    var tr := TransformId(digest, render, decl);
    var g2 := TransformRegistered(OutputRegistered(g1, run, digest, decl, dfOut, call.startedAt), run, digest, render, decl, inDs, call.startedAt);
    assert AfterCall(g, run, digest, render, decl, call) == (ColumnEdgesAdded(g2, run, digest, inDs, outDs, tr, pt, eff), Recorded(inDs, outDs));
    assert c in pt;
    PassthroughLineage(digest, inDs, outDs, tr, run, pt, eff, c);
  }
}
