/** The in-memory lineage graph of one run (lineagekit/lineage_tracker.py):
    the node, edge and statistics records, and `LineageTracker`, which keeps
    datasets and transforms in dictionaries keyed by id (insert or replace)
    and columns, edges and statistics in append-only lists. */
module Tracker {
  import opened Text
  import opened OrderedDicts

  datatype DatasetKind = Source | Temp | Sink

  datatype DatasetNode = DatasetNode(
    id: string, name: string, kind: DatasetKind, fmt: Option<string>, path: Option<string>,
    codeFile: string, codeLine: Option<int>, rows: Option<int>, runId: string, createdAt: real)

  datatype ColumnNode = ColumnNode(id: string, name: string, datasetId: string, dtype: string, runId: string)

  datatype TransformNode = TransformNode(
    id: string, name: string, codeFile: string, codeLine: Option<int>,
    paramsHash: string, runId: string, createdAt: real)

  datatype ColToTransformEdge = ColToTransformEdge(srcColId: string, transformId: string, runId: string)
  datatype TransformToColEdge = TransformToColEdge(transformId: string, destColId: string, runId: string)
  datatype DatasetToTransformEdge = DatasetToTransformEdge(srcDsId: string, transformId: string, runId: string)
  datatype TransformToDatasetEdge = TransformToDatasetEdge(transformId: string, destDsId: string, runId: string)

  /** One column's statistics in one run; `mean`/`std` for numeric columns,
      `top`/`topFreq` for the others. */
  datatype ColumnStats = ColumnStats(
    datasetId: string, column: string, dtype: string, count: int, nulls: int,
    mean: Option<real>, std: Option<real>, top: Option<string>, topFreq: Option<int>, runId: string)

  /** `ChangeType`, with the string value each member stands for. */
  datatype ChangeType = SchemaAdd | SchemaDrop | TypeChange | NullSpike | ValueShift {
    function Name(): string {
      match this
      case SchemaAdd => "schema_add"
      case SchemaDrop => "schema_drop"
      case TypeChange => "type_change"
      case NullSpike => "null_spike"
      case ValueShift => "value_shift"
    }
  }

  /** Everything a tracker holds besides its run id. */
  datatype Graph = Graph(
    datasets: Dict<DatasetNode>,
    transforms: Dict<TransformNode>,
    columns: seq<ColumnNode>,
    colToTransform: seq<ColToTransformEdge>,
    transformToCol: seq<TransformToColEdge>,
    datasetToTransform: seq<DatasetToTransformEdge>,
    transformToDataset: seq<TransformToDatasetEdge>,
    columnStats: seq<ColumnStats>)
  {
    ghost predicate Valid() {
      datasets.Valid() && transforms.Valid()
    }
  }

  function EmptyGraph(): (g: Graph)
    ensures g.Valid()
  {
    Graph(Empty(), Empty(), [], [], [], [], [], [])
  }

  // The effect of each tracker operation on the graph.

  function WithDataset(g: Graph, node: DatasetNode): Graph
    requires g.Valid()
  {
    g.(datasets := g.datasets.Put(node.id, node))
  }

  function WithTransform(g: Graph, node: TransformNode): Graph
    requires g.Valid()
  {
    g.(transforms := g.transforms.Put(node.id, node))
  }

  /** Appending to the column edge lists twice is appending the
      concatenations once. */
  lemma EdgesAppendedTwice(g0: Graph, g: Graph, g': Graph,
                           a: seq<ColToTransformEdge>, x: seq<ColToTransformEdge>,
                           b: seq<TransformToColEdge>, y: seq<TransformToColEdge>)
    requires g == g0.(colToTransform := g0.colToTransform + a, transformToCol := g0.transformToCol + b)
    requires g' == g.(colToTransform := g.colToTransform + x, transformToCol := g.transformToCol + y)
    ensures g' == g0.(colToTransform := g0.colToTransform + (a + x), transformToCol := g0.transformToCol + (b + y))
  {
  }

  /** The document `export_json` returns. */
  datatype ExportNodes = ExportNodes(datasets: seq<DatasetNode>, columns: seq<ColumnNode>, transforms: seq<TransformNode>)
  datatype ExportEdges = ExportEdges(
    datasetToTransform: seq<DatasetToTransformEdge>,
    transformToDataset: seq<TransformToDatasetEdge>,
    columnToTransform: seq<ColToTransformEdge>,
    transformToColumn: seq<TransformToColEdge>)
  datatype ExportDoc = ExportDoc(runId: string, nodes: ExportNodes, edges: ExportEdges)

  /** The export of a graph: dictionaries by their values in key order,
      lists as they are. */
  function Export(runId: string, g: Graph): ExportDoc
    requires g.Valid()
  {
    ExportDoc(runId,
      ExportNodes(g.datasets.Values(), g.columns, g.transforms.Values()),
      ExportEdges(g.datasetToTransform, g.transformToDataset, g.colToTransform, g.transformToCol))
  }

  /** `f"run_{int(time.time())}"` for a clock reading of `seconds`. */
  function RunIdAt(seconds: nat): (r: string)
    ensures |r| > 4 && r[..4] == "run_"
  {
    "run_" + NatToString(seconds)
  }

  /** Trackers started in different seconds get different run ids. */
  lemma RunIdsDistinct(s1: nat, s2: nat)
    requires s1 != s2
    ensures RunIdAt(s1) != RunIdAt(s2)
  {
    if RunIdAt(s1) == RunIdAt(s2) {
      assert NatToString(s1) == RunIdAt(s1)[4..] == RunIdAt(s2)[4..] == NatToString(s2);
      NatToStringInjective(s1, s2);
    }
  }

  /** Registering a dataset: one export entry per distinct id; a new id is
      listed last, an existing id's entry is replaced where it stands, and
      every other part of the export is unchanged. */
  lemma {:induction false} ExportAfterDataset(runId: string, g: Graph, node: DatasetNode)
    requires g.Valid()
    ensures var before, after := Export(runId, g), Export(runId, WithDataset(g, node));
      && |after.nodes.datasets| == |WithDataset(g, node).datasets.items|
      && (node.id !in g.datasets.items ==> after.nodes.datasets == before.nodes.datasets + [node])
      && (node.id in g.datasets.items ==>
            exists i :: 0 <= i < |before.nodes.datasets| && g.datasets.keys[i] == node.id
                      && after.nodes.datasets == before.nodes.datasets[i := node])
      && after.nodes.columns == before.nodes.columns
      && after.nodes.transforms == before.nodes.transforms
      && after.edges == before.edges
  {
    ValuesAfterPut(g.datasets, node.id, node);
    ValuesCount(g.datasets.Put(node.id, node));
    if node.id in g.datasets.items {
      var i :| 0 <= i < |g.datasets.keys| && g.datasets.keys[i] == node.id
        && g.datasets.Put(node.id, node).Values() == g.datasets.Values()[i := node];
      assert Export(runId, WithDataset(g, node)).nodes.datasets == Export(runId, g).nodes.datasets[i := node];
    }
  }

  /** Registering the same transform twice is registering it once. */
  lemma TransformTwiceIsOnce(g: Graph, node: TransformNode)
    requires g.Valid()
    ensures WithTransform(WithTransform(g, node), node) == WithTransform(g, node)
  {
    PutIdempotent(g.transforms, node.id, node);
  }

  /** Registering a transform: one export entry per distinct id, a new id
      listed last, an existing one replaced in place, nothing else changed. */
  lemma {:induction false} ExportAfterTransform(runId: string, g: Graph, node: TransformNode)
    requires g.Valid()
    ensures var before, after := Export(runId, g), Export(runId, WithTransform(g, node));
      && |after.nodes.transforms| == |WithTransform(g, node).transforms.items|
      && (node.id !in g.transforms.items ==> after.nodes.transforms == before.nodes.transforms + [node])
      && (node.id in g.transforms.items ==>
            exists i :: 0 <= i < |before.nodes.transforms| && g.transforms.keys[i] == node.id
                      && after.nodes.transforms == before.nodes.transforms[i := node])
      && after.nodes.datasets == before.nodes.datasets
      && after.nodes.columns == before.nodes.columns
      && after.edges == before.edges
  {
    ValuesAfterPut(g.transforms, node.id, node);
    ValuesCount(g.transforms.Put(node.id, node));
    if node.id in g.transforms.items {
      var i :| 0 <= i < |g.transforms.keys| && g.transforms.keys[i] == node.id
        && g.transforms.Put(node.id, node).Values() == g.transforms.Values()[i := node];
      assert Export(runId, WithTransform(g, node)).nodes.transforms == Export(runId, g).nodes.transforms[i := node];
    }
  }

  class LineageTracker {
    const runId: string
    var datasets: Dict<DatasetNode>
    var transforms: Dict<TransformNode>
    var columns: seq<ColumnNode>
    var colToTransform: seq<ColToTransformEdge>
    var transformToCol: seq<TransformToColEdge>
    var datasetToTransform: seq<DatasetToTransformEdge>
    var transformToDataset: seq<TransformToDatasetEdge>
    var columnStats: seq<ColumnStats>

    ghost function State(): Graph
      reads this
    {
      Graph(datasets, transforms, columns, colToTransform, transformToCol,
            datasetToTransform, transformToDataset, columnStats)
    }

    ghost predicate Valid()
      reads this
    {
      State().Valid()
    }

    /** `LineageTracker()` started at `clockSeconds` (= `int(time.time())`). */
    constructor (clockSeconds: nat)
      ensures Valid()
      ensures runId == RunIdAt(clockSeconds)
      ensures State() == EmptyGraph()
    {
      runId := RunIdAt(clockSeconds);
      datasets, transforms := Empty(), Empty();
      columns, colToTransform, transformToCol := [], [], [];
      datasetToTransform, transformToDataset, columnStats := [], [], [];
    }

    /** `insert_dataset`: insert or replace by id. */
    method InsertDataset(node: DatasetNode)
      requires Valid()
      modifies this
      ensures Valid()
      ensures State() == WithDataset(old(State()), node)
    {
      datasets := datasets.Put(node.id, node);
    }

    /** `insert_columns`: append the batch, no deduplication. */
    method InsertColumns(cols: seq<ColumnNode>)
      requires Valid()
      modifies this
      ensures Valid()
      ensures State() == old(State()).(columns := old(columns) + cols)
    {
      columns := columns + cols;
    }

    /** `insert_transform`: insert or replace by id. */
    method InsertTransform(node: TransformNode)
      requires Valid()
      modifies this
      ensures Valid()
      ensures State() == WithTransform(old(State()), node)
    {
      transforms := transforms.Put(node.id, node);
    }

    method InsertColToTransform(e: seq<ColToTransformEdge>)
      requires Valid()
      modifies this
      ensures Valid()
      ensures State() == old(State()).(colToTransform := old(colToTransform) + e)
    {
      colToTransform := colToTransform + e;
    }

    method InsertTransformToCol(e: seq<TransformToColEdge>)
      requires Valid()
      modifies this
      ensures Valid()
      ensures State() == old(State()).(transformToCol := old(transformToCol) + e)
    {
      transformToCol := transformToCol + e;
    }

    method InsertDatasetToTransform(e: seq<DatasetToTransformEdge>)
      requires Valid()
      modifies this
      ensures Valid()
      ensures State() == old(State()).(datasetToTransform := old(datasetToTransform) + e)
    {
      datasetToTransform := datasetToTransform + e;
    }

    method InsertTransformToDataset(e: seq<TransformToDatasetEdge>)
      requires Valid()
      modifies this
      ensures Valid()
      ensures State() == old(State()).(transformToDataset := old(transformToDataset) + e)
    {
      transformToDataset := transformToDataset + e;
    }

    /** `tracker.column_stats.append(...)`, one row after the other. */
    method AppendStats(rows: seq<ColumnStats>)
      requires Valid()
      modifies this
      ensures Valid()
      ensures State() == old(State()).(columnStats := old(columnStats) + rows)
    {
      columnStats := columnStats + rows;
    }

    /** `export_json()`. */
    function ExportJson(): (doc: ExportDoc)
      requires Valid()
      reads this
      ensures doc == Export(runId, State())
    {
      ExportDoc(runId,
        ExportNodes(datasets.Values(), columns, transforms.Values()),
        ExportEdges(datasetToTransform, transformToDataset, colToTransform, transformToCol))
    }
  }
}
