/** The decision logic of the `impact` and `guard` commands
    (lineagekit/cli.py:64-107): which run they read, how `impact` orders
    and cuts its listing, and when `guard` fails. */
module Cli {
  import opened Text
  import opened Tracker
  import opened Severities
  import opened Store
  import opened Impact

  /** The tables of a lineage database the two commands read. */
  datatype Tables = Tables(
    stats: seq<ColumnStats>,
    runs: seq<RunRow>,
    colEdges: seq<ColToTransformEdge>,
    trEdges: seq<TransformToColEdge>,
    transforms: seq<TransformNode>)

  /** An empty `--run`/`--curr` means the newest run
      (lineagekit/cli.py:69-72 and 83-86). */
  function ResolveRun(given: string, runs: seq<RunRow>): (run: string)
    ensures given != "" ==> run == given
    ensures given == "" && runs == [] ==> run == ""
    ensures given == "" && runs != [] ==>
      exists i :: 0 <= i < |runs| && runs[i].runId == run
        && forall j :: 0 <= j < |runs| ==> runs[j].createdAt <= runs[i].createdAt
  {
    if given == "" then LatestRunId(runs) else given
  }

  /** The hits `impact_bfs(db, run, start, change_type)` returns. */
  function ImpactOf(db: Tables, run: string, start: string, changeType: string): seq<Hit> {
    Walk(RunGraph(db.colEdges, db.trEdges, LoadedTags(db.transforms, run), run), start, changeType)
  }

  // ----- the `impact` command -----

  /** The hits of rank `k`, in their order. */
  function AtRank(hits: seq<Hit>, k: nat): seq<Hit> {
    if hits == [] then []
    else
      var h := hits[|hits| - 1];
      AtRank(hits[..|hits| - 1], k) + (if h.severity.Rank() == k then [h] else [])
  }

  /** Filtering keeps only hits of rank `k`, and at most all of them. */
  lemma {:induction false} AtRankRanks(hits: seq<Hit>, k: nat)
    ensures var r := AtRank(hits, k);
      |r| <= |hits| && forall i :: 0 <= i < |r| ==> r[i].severity.Rank() == k
  {
    if hits != [] {
      AtRankRanks(hits[..|hits| - 1], k);
    }
  }

  /** `hits.sort(key=lambda x: SEV_RANK[x[2]], reverse=True)`: a stable
      sort on descending rank (lineagekit/cli.py:74). */
  function SortedByRank(hits: seq<Hit>): seq<Hit> {
    AtRank(hits, 4) + AtRank(hits, 3) + AtRank(hits, 2) + AtRank(hits, 1)
  }

  /** `hits[:50]` of the sorted hits (lineagekit/cli.py:75). */
  function Listing(hits: seq<Hit>): (r: seq<Hit>)
    ensures |r| == if |hits| < 50 then |hits| else 50
    ensures |r| <= |SortedByRank(hits)| && r == SortedByRank(hits)[..|r|]
  {
    SortedLength(hits);
    var sorted := SortedByRank(hits);
    if |sorted| <= 50 then sorted else sorted[..50]
  }

  /** Every hit has one of the four ranks. */
  lemma {:induction false} SortedLength(hits: seq<Hit>)
    ensures |SortedByRank(hits)| == |hits|
  {
    if hits != [] {
      SortedLength(hits[..|hits| - 1]);
    }
  }

  lemma {:induction false} AtRankAppend(a: seq<Hit>, b: seq<Hit>, k: nat)
    ensures AtRank(a + b, k) == AtRank(a, k) + AtRank(b, k)
    decreases |b|
  {
    if b == [] {
      assert a + b == a;
    } else {
      assert (a + b)[..|a + b| - 1] == a + b[..|b| - 1];
      assert (a + b)[|a + b| - 1] == b[|b| - 1];
      AtRankAppend(a, b[..|b| - 1], k);
    }
  }

  /** Filtering a filtered sequence again by the same rank keeps it, by
      another rank empties it. */
  lemma {:induction false} AtRankTwice(hits: seq<Hit>, j: nat, k: nat)
    ensures AtRank(AtRank(hits, j), k) == if j == k then AtRank(hits, j) else []
  {
    if hits != [] {
      var h := hits[|hits| - 1];
      AtRankTwice(hits[..|hits| - 1], j, k);
      AtRankAppend(AtRank(hits[..|hits| - 1], j), if h.severity.Rank() == j then [h] else [], k);
    }
  }

  /** The sort lists higher ranks first. */
  lemma SortedDescending(hits: seq<Hit>)
    ensures var s := SortedByRank(hits);
      forall i, j :: 0 <= i < j < |s| ==> s[i].severity.Rank() >= s[j].severity.Rank()
  {
    var a, b, c, d := AtRank(hits, 4), AtRank(hits, 3), AtRank(hits, 2), AtRank(hits, 1);
    AtRankRanks(hits, 4);
    AtRankRanks(hits, 3);
    AtRankRanks(hits, 2);
    AtRankRanks(hits, 1);
    var s := SortedByRank(hits);
    forall i | 0 <= i < |s|
      ensures s[i].severity.Rank() == (if i < |a| then 4 else if i < |a| + |b| then 3
        else if i < |a| + |b| + |c| then 2 else 1)
    {
      if i < |a| { assert s[i] == a[i]; }
      else if i < |a| + |b| { assert s[i] == b[i - |a|]; }
      else if i < |a| + |b| + |c| { assert s[i] == c[i - |a| - |b|]; }
      else { assert s[i] == d[i - |a| - |b| - |c|]; }
    }
  }

  /** The sort neither loses nor adds a hit. */
  lemma SortedPermutation(hits: seq<Hit>)
    ensures multiset(SortedByRank(hits)) == multiset(hits)
  {
    RanksCover(hits);
  }

  lemma RanksCover(hits: seq<Hit>)
    ensures multiset(AtRank(hits, 4)) + multiset(AtRank(hits, 3)) + multiset(AtRank(hits, 2))
      + multiset(AtRank(hits, 1)) == multiset(hits)
  {
    var lhs := multiset(AtRank(hits, 4)) + multiset(AtRank(hits, 3)) + multiset(AtRank(hits, 2))
      + multiset(AtRank(hits, 1));
    forall x: Hit ensures lhs[x] == multiset(hits)[x] {
      AtRankCount(hits, 1, x);
      AtRankCount(hits, 2, x);
      AtRankCount(hits, 3, x);
      AtRankCount(hits, 4, x);
    }
    assert lhs == multiset(hits);
  }

  /** Filtering by rank `k` keeps every copy of a hit of that rank and no
      copy of any other. */
  lemma {:induction false} AtRankCount(hits: seq<Hit>, k: nat, x: Hit)
    ensures multiset(AtRank(hits, k))[x] == if x.severity.Rank() == k then multiset(hits)[x] else 0
  {
    if hits != [] {
      var init := hits[..|hits| - 1];
      AtRankCount(init, k, x);
      assert hits == init + [hits[|hits| - 1]];
    }
  }

  /** The sort is stable: the hits of each rank keep their order. */
  lemma SortedStable(hits: seq<Hit>, k: nat)
    ensures AtRank(SortedByRank(hits), k) == AtRank(hits, k)
  {
    var a, b, c, d := AtRank(hits, 4), AtRank(hits, 3), AtRank(hits, 2), AtRank(hits, 1);
    var a', b', c', d' := AtRank(a, k), AtRank(b, k), AtRank(c, k), AtRank(d, k);
    assert AtRank(SortedByRank(hits), k) == a' + b' + c' + d' by { AtRankConcat(a, b, c, d, k); }
    assert a' == (if k == 4 then a else []) by { AtRankTwice(hits, 4, k); }
    assert b' == (if k == 3 then b else []) by { AtRankTwice(hits, 3, k); }
    assert c' == (if k == 2 then c else []) by { AtRankTwice(hits, 2, k); }
    assert d' == (if k == 1 then d else []) by { AtRankTwice(hits, 1, k); }
    if k == 4 {
      assert a' + b' + c' + d' == a;
    } else if k == 3 {
      assert a' + b' + c' + d' == b;
    } else if k == 2 {
      assert a' + b' + c' + d' == c;
    } else if k == 1 {
      assert a' + b' + c' + d' == d;
    } else {
      AtRankNone(hits, k);
    }
  }

  lemma AtRankConcat(a: seq<Hit>, b: seq<Hit>, c: seq<Hit>, d: seq<Hit>, k: nat)
    ensures AtRank(a + b + c + d, k) == AtRank(a, k) + AtRank(b, k) + AtRank(c, k) + AtRank(d, k)
  {
    AtRankAppend(a + b + c, d, k);
    AtRankAppend(a + b, c, k);
    AtRankAppend(a, b, k);
  }

  lemma {:induction false} AtRankNone(hits: seq<Hit>, k: nat)
    requires k == 0 || k > 4
    ensures AtRank(hits, k) == []
  {
    if hits != [] {
      AtRankNone(hits[..|hits| - 1], k);
    }
  }

  /** The `impact` command (lineagekit/cli.py:64-76): the run defaults to
      the newest, and the listing is the hits, highest rank first, cut at
      50. */
  method ImpactCommand(db: Tables, columnId: string, change: string, givenRun: string)
    returns (shown: seq<Hit>)
    ensures shown == Listing(ImpactOf(db, ResolveRun(givenRun, db.runs), columnId, change))
  {
    var run := if givenRun == "" then LatestRunId(db.runs) else givenRun;
    var hits := ImpactBfs(db.colEdges, db.trEdges, db.transforms, run, columnId, change);
    var sorted := SortedByRank(hits);
    shown := if |sorted| <= 50 then sorted else sorted[..50];
  }

  // ----- the `guard` command -----

  /** `max([SEV_RANK.get(s, 1) for _, _, s in sev_hits], default=0)`
      (lineagekit/cli.py:97). */
  function MaxRank(hits: seq<Hit>): (m: nat)
    ensures m <= 4
    ensures m == 0 <==> hits == []
    ensures forall i :: 0 <= i < |hits| ==> hits[i].severity.Rank() <= m
    ensures hits != [] ==> exists i :: 0 <= i < |hits| && hits[i].severity.Rank() == m
  {
    if hits == [] then 0
    else
      var m := MaxRank(hits[..|hits| - 1]);
      var r := hits[|hits| - 1].severity.Rank();
      assert forall i | 0 <= i < |hits| - 1 :: hits[..|hits| - 1][i] == hits[i];
      if r > m then r else m
  }

  /** `max_sev` of a change: the maximum rank over the hits of
      `impact_bfs(db, curr, ch["node_id"], ch["change_type"])`
      (lineagekit/cli.py:95-97). */
  function ChangeRank(db: Tables, curr: string, ch: Change): nat {
    MaxRank(ImpactOf(db, curr, ch.nodeId, ch.changeType.Name()))
  }

  function RankingIn(db: Tables, curr: string): Change -> nat {
    ch => ChangeRank(db, curr, ch)
  }

  /** The changes whose rank reaches `threshold`, each with its rank, in
      the order of `changes`. */
  function FlaggedBy(changes: seq<Change>, rank: Change -> nat, threshold: nat): (bad: seq<(Change, nat)>)
    ensures |bad| <= |changes|
  {
    if changes == [] then []
    else
      var ch := changes[|changes| - 1];
      FlaggedBy(changes[..|changes| - 1], rank, threshold)
        + (if rank(ch) >= threshold then [(ch, rank(ch))] else [])
  }

  /** The changes `guard` flags, each with its maximum rank, in the order
      of the detected changes (lineagekit/cli.py:93-99). */
  function Flags(db: Tables, curr: string, changes: seq<Change>, threshold: nat): seq<(Change, nat)> {
    FlaggedBy(changes, RankingIn(db, curr), threshold)
  }

  /** How a `guard` run ends. */
  datatype Outcome =
    | NoChanges
    | Passed
    | Failed(bad: seq<(Change, nat)>)
    | UnknownThreshold
  {
    /** The process exit status: `typer.Exit(0)`/`typer.Exit(1)`, and an
        uncaught `KeyError` exits with status 1. */
    function ExitCode(): (code: nat)
      ensures code == 0 <==> NoChanges? || Passed?
    {
      if NoChanges? || Passed? then 0 else 1
    }

    /** The changes printed under "Guard failed": `bad[:10]`. */
    function Listed(): (r: seq<(Change, nat)>)
      requires Failed?
      ensures |r| <= 10 && |r| <= |bad| && r == bad[..|r|]
      ensures |bad| <= 10 ==> r == bad
      ensures |bad| > 10 ==> |r| == 10
    {
      if |bad| <= 10 then bad else bad[..10]
    }
  }

  /** What `guard` decides for the detected changes (lineagekit/cli.py:88-107):
      no changes end the run before any lookup of the threshold; otherwise
      an unknown threshold name is a `KeyError`, and the run fails when a
      change is flagged. */
  function Decide(db: Tables, curr: string, changes: seq<Change>, threshold: string): (o: Outcome)
    ensures o.NoChanges? <==> changes == []
    ensures o.UnknownThreshold? <==> changes != [] && RankOfName(threshold).None?
    // A pass means no change's impact reaches the threshold; a failure
    // lists only detected changes that reach it, and at least one.
    ensures o.Passed? ==> RankOfName(threshold).Some? && forall i :: 0 <= i < |changes| ==>
      MaxRank(ImpactOf(db, curr, changes[i].nodeId, changes[i].changeType.Name())) < RankOfName(threshold).value
    ensures o.Failed? ==> RankOfName(threshold).Some? && o.bad != [] && forall p :: p in o.bad ==>
      p.0 in changes && p.1 >= RankOfName(threshold).value
  {
    if changes == [] then NoChanges
    else match RankOfName(threshold)
      case None => UnknownThreshold
      case Some(t) =>
        var bad := Flags(db, curr, changes, t);
        FlagsReachThreshold(db, curr, changes, t);
        if bad == [] then Passed else Failed(bad)
  }

  /** Every flagged change is a detected one at or above the threshold,
      and with nothing flagged every change stays below it. */
  lemma FlagsReachThreshold(db: Tables, curr: string, changes: seq<Change>, t: nat)
    ensures forall p :: p in Flags(db, curr, changes, t) ==> p.0 in changes && p.1 >= t
    ensures Flags(db, curr, changes, t) == [] ==> forall i :: 0 <= i < |changes| ==>
      MaxRank(ImpactOf(db, curr, changes[i].nodeId, changes[i].changeType.Name())) < t
  {
    forall p | p in Flags(db, curr, changes, t)
      ensures p.0 in changes && p.1 >= t
    {
      FlagsMembers(db, curr, changes, t, p.0, p.1);
    }
    if Flags(db, curr, changes, t) == [] {
      forall i | 0 <= i < |changes|
        ensures MaxRank(ImpactOf(db, curr, changes[i].nodeId, changes[i].changeType.Name())) < t
      {
        var m := MaxRank(ImpactOf(db, curr, changes[i].nodeId, changes[i].changeType.Name()));
        FlagsMembers(db, curr, changes, t, changes[i], m);
      }
    }
  }

  /** The `guard` command (lineagekit/cli.py:78-107) with the default
      detection thresholds of `detect_changes`. */
  method Guard(db: Tables, base: string, givenCurr: string, threshold: string) returns (outcome: Outcome)
    ensures var curr := ResolveRun(givenCurr, db.runs);
      exists order ::
        && Enumerates(order, Loaded(db.stats, base).Keys + Loaded(db.stats, curr).Keys)
        && outcome == Decide(db, curr,
             Concat(order, KeyChanges(Loaded(db.stats, base), Loaded(db.stats, curr), curr, DefaultThresholds)),
             threshold)
  {
    var curr := if givenCurr == "" then LatestRunId(db.runs) else givenCurr;
    assert curr == ResolveRun(givenCurr, db.runs);
    var changes := DetectChanges(db.stats, base, curr, DefaultThresholds);
    ghost var order :| Enumerates(order, Loaded(db.stats, base).Keys + Loaded(db.stats, curr).Keys)
      && changes == Concat(order, KeyChanges(Loaded(db.stats, base), Loaded(db.stats, curr), curr, DefaultThresholds));
    outcome := Judge(db, curr, changes, threshold);
  }

  /** Lines 88-107 of lineagekit/cli.py, once the changes are detected. */
  method Judge(db: Tables, curr: string, changes: seq<Change>, threshold: string) returns (outcome: Outcome)
    ensures outcome == Decide(db, curr, changes, threshold)
  {
    if changes == [] {
      return NoChanges;
    }
    var t := RankOfName(threshold);
    if t.None? {
      return UnknownThreshold;
    }
    ghost var rank := RankingIn(db, curr);
    var bad: seq<(Change, nat)> := [];
    for i := 0 to |changes|
      invariant bad == FlaggedBy(changes[..i], rank, t.value)
    {
      var ch := changes[i];
      assert changes[..i + 1][..i] == changes[..i] && changes[..i + 1][i] == ch;
      var hits := ImpactBfs(db.colEdges, db.trEdges, db.transforms, curr, ch.nodeId, ch.changeType.Name());
      var m := MaxRank(hits);
      assert m == rank(ch);
      if m >= t.value {
        bad := bad + [(ch, m)];
      }
    }
    assert changes[..|changes|] == changes;
    outcome := if bad == [] then Passed else Failed(bad);
  }

  // ----- what `guard` promises -----

  /** A change is flagged exactly when its maximum rank reaches the
      threshold. */
  lemma FlagsMembers(db: Tables, curr: string, changes: seq<Change>, t: nat, ch: Change, m: nat)
    ensures (ch, m) in Flags(db, curr, changes, t) <==>
      ch in changes && m == MaxRank(ImpactOf(db, curr, ch.nodeId, ch.changeType.Name())) && m >= t
  {
    FlaggedByMembers(changes, RankingIn(db, curr), t, ch, m);
  }

  lemma {:induction false} FlaggedByMembers(changes: seq<Change>, rank: Change -> nat, t: nat, ch: Change, m: nat)
    ensures (ch, m) in FlaggedBy(changes, rank, t) <==> ch in changes && m == rank(ch) && m >= t
  {
    if changes != [] {
      var init, last := changes[..|changes| - 1], changes[|changes| - 1];
      FlaggedByMembers(init, rank, t, ch, m);
      assert changes == init + [last];
    }
  }

  /** Flagged changes keep the order of the detected changes: the flags
      of a longer list extend those of its prefix. */
  lemma {:induction false} FlaggedByPrefix(changes: seq<Change>, rank: Change -> nat, t: nat, n: nat)
    requires n <= |changes|
    ensures var short := FlaggedBy(changes[..n], rank, t);
      |short| <= |FlaggedBy(changes, rank, t)| && short == FlaggedBy(changes, rank, t)[..|short|]
  {
    if n < |changes| {
      var init := changes[..|changes| - 1];
      FlaggedByPrefix(init, rank, t, n);
      assert init[..n] == changes[..n];
    } else {
      assert changes[..n] == changes;
    }
  }

  /** `guard` exits 1 exactly when some change is flagged, or when there
      are changes and the threshold names no level. */
  lemma {:induction false} DecideExit(db: Tables, curr: string, changes: seq<Change>, threshold: string)
    ensures Decide(db, curr, changes, threshold).ExitCode() == 1 <==>
      && changes != []
      && (RankOfName(threshold).None? ||
          exists ch :: ch in changes &&
            MaxRank(ImpactOf(db, curr, ch.nodeId, ch.changeType.Name())) >= RankOfName(threshold).value)
  {
    if changes != [] && RankOfName(threshold).Some? {
      var t := RankOfName(threshold).value;
      var bad := Flags(db, curr, changes, t);
      if bad != [] {
        FlagsMembers(db, curr, changes, t, bad[0].0, bad[0].1);
      }
      forall ch | ch in changes && MaxRank(ImpactOf(db, curr, ch.nodeId, ch.changeType.Name())) >= t
        ensures bad != []
      {
        FlagsMembers(db, curr, changes, t, ch, MaxRank(ImpactOf(db, curr, ch.nodeId, ch.changeType.Name())));
      }
    }
  }

  /** A change with no impact hits is never flagged, whatever the
      threshold, since every level ranks at least 1 (lineagekit/cli.py:97-98). */
  lemma QuietNeverFlagged(db: Tables, curr: string, ch: Change, threshold: string)
    requires ImpactOf(db, curr, ch.nodeId, ch.changeType.Name()) == []
    requires RankOfName(threshold).Some?
    ensures MaxRank(ImpactOf(db, curr, ch.nodeId, ch.changeType.Name())) < RankOfName(threshold).value
  {
    var l: Level :| l.Name() == threshold;
  }

  /** Since no transform is tagged, a change reaches the threshold exactly
      when it is a schema_drop or type_change whose node feeds a transform
      in the current run: everything else has no hits at all. */
  lemma FlaggedIff(db: Tables, curr: string, ch: Change, l: Level)
    ensures var hits := ImpactOf(db, curr, ch.nodeId, ch.changeType.Name());
      MaxRank(hits) >= l.Rank() <==> IsCriticalType(ch.changeType.Name()) && hits != []
  {
    var hits := ImpactOf(db, curr, ch.nodeId, ch.changeType.Name());
    RunImpact(db.colEdges, db.trEdges, db.transforms, curr, ch.nodeId, ch.changeType.Name());
    if hits != [] && IsCriticalType(ch.changeType.Name()) {
      assert hits[0].severity.Rank() == 4;
    }
  }

  /** `detect_changes` names a column `"<dataset id>|<column>"`, while the
      edges of a run name columns by their hashed ids. When no
      column-to-transform edge of the run starts at an id containing `|`,
      no change has hits, and `guard` never fails. */
  lemma HashedIdsNeverFail(db: Tables, curr: string, changes: seq<Change>, threshold: string)
    requires forall e :: e in db.colEdges && e.runId == curr ==> '|' !in Chars(e.srcColId)
    requires forall ch :: ch in changes ==> '|' in Chars(ch.nodeId)
    ensures !Decide(db, curr, changes, threshold).Failed?
  {
    if changes != [] && RankOfName(threshold).Some? {
      var t := RankOfName(threshold).value;
      var bad := Flags(db, curr, changes, t);
      if bad != [] {
        var ch := bad[0].0;
        FlagsMembers(db, curr, changes, t, ch, bad[0].1);
        RunImpact(db.colEdges, db.trEdges, db.transforms, curr, ch.nodeId, ch.changeType.Name());
        QuietNeverFlagged(db, curr, ch, threshold);
        assert false;
      }
    }
  }

  /** Every change `detect_changes` reports names its column with a `|`. */
  lemma DetectedIdsHavePipe(rows: seq<ColumnStats>, base: string, curr: string, th: Thresholds,
      order: seq<StatsKey>)
    requires Enumerates(order, Loaded(rows, base).Keys + Loaded(rows, curr).Keys)
    ensures forall ch :: ch in Concat(order, KeyChanges(Loaded(rows, base), Loaded(rows, curr), curr, th)) ==>
      '|' in Chars(ch.nodeId)
  {
    var A, B := Loaded(rows, base), Loaded(rows, curr);
    forall ch | ch in Concat(order, KeyChanges(A, B, curr, th)) ensures '|' in Chars(ch.nodeId) {
      ReportedChanges(order, A, B, curr, th, ch);
      var k :| (k in A || k in B) && ch in ChangesFor(k, Lookup(A, k), Lookup(B, k), curr, th);
      var loc := Location(k, Lookup(A, k), Lookup(B, k));
      assert Stamped(ch, curr, NodeId(loc.0, loc.1));
    }
  }
}
