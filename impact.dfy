/** Impact analysis (lineagekit/impact.py): the severity a change carries
    through a transform, and the breadth-first walk from a changed column
    through the column-to-transform and transform-to-column edges of one
    run, raising each reached node's severity at most to the highest
    severity that reaches it. */
module Impact {
  import opened Text
  import opened Tracker
  import opened Severities

  /** The change types that are critical whatever the transform does. */
  predicate IsCriticalType(changeType: string) {
    changeType == "schema_drop" || changeType == "type_change"
  }

  /** The tags that make a transform's output at least MEDIUM. */
  predicate RiskyTags(tags: seq<string>) {
    "agg" in tags || "model" in tags || "sklearn" in tags
  }

  /** `severity_for(change_type, tr_tags)` (lineagekit/impact.py:6-9). */
  function SeverityFor(changeType: string, tags: seq<string>): (l: Level)
    ensures l == Critical <==> IsCriticalType(changeType)
    ensures l == Low <==> !IsCriticalType(changeType) && !RiskyTags(tags)
    ensures l != High
  {
    if IsCriticalType(changeType) then Critical
    else if RiskyTags(tags) then Medium
    else Low
  }

  /** A `defaultdict(list)` of node ids to node ids. */
  type Adjacency = map<string, seq<string>>

  /** `m.get(k, [])`. */
  function Out(m: Adjacency, k: string): seq<string> {
    if k in m then m[k] else []
  }

  /** What one run's edges look like to `impact_bfs`. */
  datatype Lineage = Lineage(colToTr: Adjacency, trToCol: Adjacency, tags: map<string, seq<string>>)

  /** `tr_tags[tr]`: a missing transform has no tags. */
  function TagsOf(g: Lineage, tr: string): seq<string> {
    if tr in g.tags then g.tags[tr] else []
  }

  /** The severity a change of type `changeType` carries through `tr`. */
  function StepSeverity(g: Lineage, changeType: string, tr: string): Level {
    SeverityFor(changeType, TagsOf(g, tr))
  }

  /** `b` is examined when `a` is taken off the queue: it is a transform
      `a` feeds, or a column such a transform produces. */
  ghost predicate Next(g: Lineage, a: string, b: string) {
    || b in Out(g.colToTr, a)
    || exists tr :: tr in Out(g.colToTr, a) && b in Out(g.trToCol, tr)
  }

  ghost predicate IsWalk(g: Lineage, start: string, w: seq<string>) {
    && |w| >= 1 && w[0] == start
    && forall i :: 0 <= i < |w| - 1 ==> Next(g, w[i], w[i + 1])
  }

  /** `n` is `start` or lies on a walk from it. */
  ghost predicate Reachable(g: Lineage, start: string, n: string) {
    exists w :: IsWalk(g, start, w) && w[|w| - 1] == n
  }

  /** `n` lies at least one step from `start`. */
  ghost predicate ReachablePlus(g: Lineage, start: string, n: string) {
    exists w :: IsWalk(g, start, w) && |w| >= 2 && w[|w| - 1] == n
  }

  /** What kind of node a hit is about. */
  datatype HitKind = TransformHit | ColumnHit

  /** One `(node_id, kind, severity)` entry of the result. */
  datatype Hit = Hit(node: string, kind: HitKind, severity: Level)

  /** A hit is explained by a reached node `x` and a transform `tr` it
      feeds: the hit is `tr` itself or a column `tr` produces, with the
      severity the change carries through `tr`. */
  ghost predicate Justified(g: Lineage, changeType: string, start: string, h: Hit) {
    exists x, tr ::
      && Reachable(g, start, x) && tr in Out(g.colToTr, x)
      && h.severity == StepSeverity(g, changeType, tr)
      && (h.kind == TransformHit ==> h.node == tr)
      && (h.kind == ColumnHit ==> h.node in Out(g.trToCol, tr))
  }

  /** Hits about the same node come in strictly rising severity. */
  predicate Rising(hits: seq<Hit>) {
    forall i, j :: 0 <= i < j < |hits| && hits[i].node == hits[j].node ==>
      hits[i].severity.Rank() < hits[j].severity.Rank()
  }

  /** Some hit reports `n` at level `l`. */
  predicate Flagged(hits: seq<Hit>, n: string, l: Level) {
    exists i :: 0 <= i < |hits| && hits[i].node == n && hits[i].severity == l
  }

  /** The state of the walk: the queue `q`, the best severity `best` seen
      for each node and the hits so far. */
  datatype Search = Search(queue: seq<(string, Level)>, best: map<string, Level>, hits: seq<Hit>)

  /** `SEV_RANK[best.get(n, "LOW")]`. */
  function RankIn(best: map<string, Level>, n: string): (r: nat)
    ensures 1 <= r <= 4
  {
    if n in best then best[n].Rank() else Low.Rank()
  }

  /** Lines 39-42 and 45-48 of lineagekit/impact.py: when `s` ranks above
      the best severity `n` has had, `n` gets `s`, is queued and is
      reported. */
  function Offer(st: Search, n: string, kind: HitKind, s: Level): Search {
    if s.Rank() > RankIn(st.best, n) then
      Search(st.queue + [(n, s)], st.best[n := s], st.hits + [Hit(n, kind, s)])
    else st
  }

  // ----- the invariant of the walk -----

  /** Every node named by an adjacency list. */
  ghost function Targets(m: Adjacency): set<string> {
    set k, i | k in m && 0 <= i < |m[k]| :: m[k][i]
  }

  /** The nodes the walk can ever give a severity to. */
  ghost function Universe(g: Lineage, start: string): set<string> {
    {start} + Targets(g.colToTr) + Targets(g.trToCol)
  }

  lemma OutInTargets(m: Adjacency, k: string, n: string)
    requires n in Out(m, k)
    ensures n in Targets(m)
  {
    var i :| 0 <= i < |m[k]| && m[k][i] == n;
  }

  /** The severity steps still open to the nodes of `u`: the walk ends
      because every queued node closes at least one of them. */
  ghost function Headroom(u: set<string>, best: map<string, Level>): set<(string, int)> {
    set n, r | n in u && RankIn(best, n) < r <= 4 :: (n, r)
  }

  /** The queue grew by at most as many entries as steps were closed. */
  ghost predicate Progress(u: set<string>, a: Search, b: Search) {
    && |Headroom(u, b.best)| <= |Headroom(u, a.best)|
    && |b.queue| + |Headroom(u, b.best)| <= |a.queue| + |Headroom(u, a.best)|
  }

  /** No node's severity went down and no node was forgotten. */
  ghost predicate RanksGrow(a: map<string, Level>, b: map<string, Level>) {
    forall n :: RankIn(a, n) <= RankIn(b, n)
  }

  /** What holds of the walk's state at every step. */
  ghost predicate Sound(g: Lineage, ct: string, start: string, u: set<string>, st: Search) {
    && start in st.best && st.best.Keys <= u
    && (forall i :: 0 <= i < |st.queue| ==> st.queue[i].0 in st.best)
    && (forall n :: n in st.best ==> Reachable(g, start, n))
    && AllJustified(g, ct, start, st.hits)
    && HitsBelowBest(st)
    && Rising(st.hits)
    && BestFlagged(st)
  }

  ghost predicate AllJustified(g: Lineage, ct: string, start: string, hits: seq<Hit>) {
    forall i :: 0 <= i < |hits| ==> Justified(g, ct, start, hits[i])
  }

  /** Every hit is above LOW and no higher than its node's best. */
  ghost predicate HitsBelowBest(st: Search) {
    forall i :: 0 <= i < |st.hits| ==>
      st.hits[i].severity != Low && st.hits[i].severity.Rank() <= RankIn(st.best, st.hits[i].node)
  }

  /** A node raised above LOW was reported at its best severity. */
  ghost predicate BestFlagged(st: Search) {
    forall n :: n in st.best && st.best[n] != Low ==> Flagged(st.hits, n, st.best[n])
  }

  /** Every transform `tr` feeds, and every column it produces, is
      CRITICAL. */
  ghost predicate ClosedAt(g: Lineage, best: map<string, Level>, tr: string) {
    && RankIn(best, tr) == 4
    && forall c :: c in Out(g.trToCol, tr) ==> RankIn(best, c) == 4
  }

  /** Everything the expansion of `y` examines is CRITICAL. */
  ghost predicate Closed(g: Lineage, best: map<string, Level>, y: string) {
    forall tr :: tr in Out(g.colToTr, y) ==> ClosedAt(g, best, tr)
  }

  function QueueNodes(q: seq<(string, Level)>): (ns: seq<string>)
    ensures |ns| == |q| && forall i :: 0 <= i < |q| ==> ns[i] == q[i].0
  {
    seq(|q|, i requires 0 <= i < |q| => q[i].0)
  }

  /** For a critical change: expanded nodes are closed, and a CRITICAL
      node is expanded, queued, or being expanded. */
  ghost predicate Complete(g: Lineage, ct: string, start: string, st: Search, done: set<string>, cur: Option<string>) {
    IsCriticalType(ct) ==>
      && (forall y :: y in done ==> Closed(g, st.best, y))
      && (forall n :: n in st.best && st.best[n] == Critical ==>
            n in done || n in QueueNodes(st.queue) || cur == Some(n))
      && (start in done || start in QueueNodes(st.queue) || cur == Some(start))
  }

  /** The facts about one offer made while expanding `x` through `tr`. */
  ghost predicate OfferArgs(g: Lineage, st: Search, x: string, tr: string, n: string, kind: HitKind) {
    && x in st.best && tr in Out(g.colToTr, x)
    && (kind == TransformHit ==> n == tr)
    && (kind == ColumnHit ==> n in Out(g.trToCol, tr))
  }

  lemma OfferGrows(st: Search, n: string, kind: HitKind, s: Level)
    ensures RanksGrow(st.best, Offer(st, n, kind, s).best)
    ensures st.best.Keys <= Offer(st, n, kind, s).best.Keys
    ensures s.Rank() <= RankIn(Offer(st, n, kind, s).best, n)
  {
  }

  /** The offered node is one step further than a reached node. */
  lemma OfferReachable(g: Lineage, start: string, x: string, tr: string, n: string, kind: HitKind, st: Search)
    requires OfferArgs(g, st, x, tr, n, kind) && Reachable(g, start, x)
    ensures Reachable(g, start, n) && ReachablePlus(g, start, n)
  {
    var w :| IsWalk(g, start, w) && w[|w| - 1] == x;
    assert Next(g, x, n);
    var w' := w + [n];
    assert forall i | 0 <= i < |w| :: w'[i] == w[i];
    assert IsWalk(g, start, w');
  }

  lemma OfferSound(g: Lineage, ct: string, start: string, u: set<string>, st: Search,
      x: string, tr: string, n: string, kind: HitKind)
    requires Sound(g, ct, start, u, st) && OfferArgs(g, st, x, tr, n, kind) && n in u
    ensures Sound(g, ct, start, u, Offer(st, n, kind, StepSeverity(g, ct, tr)))
  {
    var s := StepSeverity(g, ct, tr);
    if s.Rank() > RankIn(st.best, n) {
      OfferReachable(g, start, x, tr, n, kind, st);
      OfferJustified(g, ct, start, st.hits, x, tr, n, kind);
      OfferBelowBest(st, n, kind, s);
      OfferRising(st, n, kind, s);
      OfferFlagged(st, n, kind, s);
    }
  }

  lemma OfferJustified(g: Lineage, ct: string, start: string, hits: seq<Hit>, x: string, tr: string, n: string, kind: HitKind)
    requires AllJustified(g, ct, start, hits) && Reachable(g, start, x) && tr in Out(g.colToTr, x)
    requires (kind == TransformHit ==> n == tr) && (kind == ColumnHit ==> n in Out(g.trToCol, tr))
    ensures AllJustified(g, ct, start, hits + [Hit(n, kind, StepSeverity(g, ct, tr))])
  {
    assert Justified(g, ct, start, Hit(n, kind, StepSeverity(g, ct, tr)));
  }

  lemma OfferBelowBest(st: Search, n: string, kind: HitKind, s: Level)
    requires HitsBelowBest(st) && s.Rank() > RankIn(st.best, n)
    ensures HitsBelowBest(Offer(st, n, kind, s))
  {
    var st' := Offer(st, n, kind, s);
    forall i | 0 <= i < |st'.hits|
      ensures st'.hits[i].severity != Low && st'.hits[i].severity.Rank() <= RankIn(st'.best, st'.hits[i].node)
    {
      if i < |st.hits| {
        assert st'.hits[i] == st.hits[i];
        assert RankIn(st.best, st.hits[i].node) <= RankIn(st'.best, st.hits[i].node);
      }
    }
  }

  lemma OfferRising(st: Search, n: string, kind: HitKind, s: Level)
    requires HitsBelowBest(st) && Rising(st.hits) && s.Rank() > RankIn(st.best, n)
    ensures Rising(Offer(st, n, kind, s).hits)
  {
    var hs := Offer(st, n, kind, s).hits;
    forall i, j | 0 <= i < j < |hs| && hs[i].node == hs[j].node
      ensures hs[i].severity.Rank() < hs[j].severity.Rank()
    {
      assert hs[i] == st.hits[i];
      if j < |st.hits| { assert hs[j] == st.hits[j]; }
    }
  }

  lemma OfferFlagged(st: Search, n: string, kind: HitKind, s: Level)
    requires BestFlagged(st) && s.Rank() > RankIn(st.best, n)
    ensures BestFlagged(Offer(st, n, kind, s))
  {
    var st' := Offer(st, n, kind, s);
    forall m | m in st'.best && st'.best[m] != Low ensures Flagged(st'.hits, m, st'.best[m]) {
      if m == n {
        assert st'.hits[|st.hits|] == Hit(n, kind, s);
      } else {
        var i :| 0 <= i < |st.hits| && st.hits[i].node == m && st.hits[i].severity == st.best[m];
        assert st'.hits[i] == st.hits[i];
      }
    }
  }

  lemma OfferComplete(g: Lineage, ct: string, start: string, st: Search, done: set<string>, cur: Option<string>,
      n: string, kind: HitKind, s: Level)
    requires Complete(g, ct, start, st, done, cur)
    ensures Complete(g, ct, start, Offer(st, n, kind, s), done, cur)
  {
    var st' := Offer(st, n, kind, s);
    if IsCriticalType(ct) && s.Rank() > RankIn(st.best, n) {
      assert QueueNodes(st'.queue) == QueueNodes(st.queue) + [n];
      forall y | y in done ensures Closed(g, st'.best, y) {
        assert Closed(g, st.best, y);
      }
    }
  }

  /** The offer closes a severity step whenever it queues `n`. */
  lemma OfferProgress(u: set<string>, st: Search, n: string, kind: HitKind, s: Level)
    requires n in u
    ensures Progress(u, st, Offer(st, n, kind, s))
  {
    var st' := Offer(st, n, kind, s);
    if s.Rank() > RankIn(st.best, n) {
      var before, after := Headroom(u, st.best), Headroom(u, st'.best);
      assert (n, s.Rank()) in before;
      assert (n, s.Rank()) !in after;
      forall p | p in after ensures p in before {
        var m, r :| m in u && RankIn(st'.best, m) < r <= 4 && p == (m, r);
        assert RankIn(st.best, m) <= RankIn(st'.best, m);
      }
      SubsetCard(after, before - {(n, s.Rank())});
    }
  }

  lemma {:induction false} SubsetCard<T>(a: set<T>, b: set<T>)
    requires a <= b
    ensures |a| <= |b|
    decreases |a|
  {
    if a != {} {
      var x :| x in a;
      SubsetCard(a - {x}, b - {x});
    }
  }

  /** One offer, with everything the walk needs to know about it. */
  lemma OfferStep(g: Lineage, ct: string, start: string, u: set<string>, st: Search, done: set<string>,
      cur: Option<string>, x: string, tr: string, n: string, kind: HitKind)
    requires Sound(g, ct, start, u, st) && Complete(g, ct, start, st, done, cur)
    requires OfferArgs(g, st, x, tr, n, kind)
    requires u == Universe(g, start)
    ensures var st' := Offer(st, n, kind, StepSeverity(g, ct, tr));
      && Sound(g, ct, start, u, st') && Complete(g, ct, start, st', done, cur)
      && Progress(u, st, st') && RanksGrow(st.best, st'.best) && x in st'.best
      && (IsCriticalType(ct) ==> RankIn(st'.best, n) == 4)
  {
    if kind == TransformHit { OutInTargets(g.colToTr, x, n); } else { OutInTargets(g.trToCol, tr, n); }
    OfferSound(g, ct, start, u, st, x, tr, n, kind);
    OfferComplete(g, ct, start, st, done, cur, n, kind, StepSeverity(g, ct, tr));
    OfferProgress(u, st, n, kind, StepSeverity(g, ct, tr));
    OfferGrows(st, n, kind, StepSeverity(g, ct, tr));
  }

  // ----- the walk -----

  /** Offering each of `ns` in turn as a column at severity `s`
      (lineagekit/impact.py:44-48 over one transform's outputs). */
  function Offers(st: Search, ns: seq<string>, s: Level): Search
    decreases |ns|
  {
    if ns == [] then st
    else Offer(Offers(st, ns[..|ns| - 1], s), ns[|ns| - 1], ColumnHit, s)
  }

  /** One transform `tr` fed by the node being expanded: offer `tr`, then
      every column it produces, whether or not `tr` itself was raised
      (lineagekit/impact.py:37-48, one turn of the outer `for`). */
  function Visit(g: Lineage, ct: string, st: Search, tr: string): Search {
    var s := StepSeverity(g, ct, tr);
    Offers(Offer(st, tr, TransformHit, s), Out(g.trToCol, tr), s)
  }

  /** Visiting each of `trs` in turn. */
  function Expand(g: Lineage, ct: string, st: Search, trs: seq<string>): Search
    decreases |trs|
  {
    if trs == [] then st
    else Visit(g, ct, Expand(g, ct, st, trs[..|trs| - 1]), trs[|trs| - 1])
  }

  method VisitTransform(g: Lineage, ct: string, st0: Search, tr: string) returns (st: Search)
    ensures st == Visit(g, ct, st0, tr)
  {
    var s := SeverityFor(ct, TagsOf(g, tr));
    var first := Offer(st0, tr, TransformHit, s);
    st := first;
    var outs := Out(g.trToCol, tr);
    for j := 0 to |outs|
      invariant st == Offers(first, outs[..j], s)
    {
      assert outs[..j + 1][..j] == outs[..j];
      st := Offer(st, outs[j], ColumnHit, s);
    }
    assert outs[..|outs|] == outs;
  }

  /** Expanding the node `x` just taken off the queue: every transform it
      feeds, in order (lineagekit/impact.py:35-48). */
  method ExpandNode(g: Lineage, ct: string, st0: Search, x: string) returns (st: Search)
    ensures st == Expand(g, ct, st0, Out(g.colToTr, x))
  {
    var trs := Out(g.colToTr, x);
    st := st0;
    for i := 0 to |trs|
      invariant st == Expand(g, ct, st0, trs[..i])
    {
      assert trs[..i + 1][..i] == trs[..i];
      st := VisitTransform(g, ct, st, trs[i]);
    }
    assert trs[..|trs|] == trs;
  }

  lemma RanksGrowTrans(a: map<string, Level>, b: map<string, Level>, c: map<string, Level>)
    requires RanksGrow(a, b) && RanksGrow(b, c)
    ensures RanksGrow(a, c)
  {
    forall n ensures RankIn(a, n) <= RankIn(c, n) {
      assert RankIn(a, n) <= RankIn(b, n);
    }
  }

  /** CRITICAL nodes stay CRITICAL. */
  lemma KeepCritical(a: map<string, Level>, b: map<string, Level>, ns: seq<string>)
    requires RanksGrow(a, b)
    requires forall k :: 0 <= k < |ns| ==> RankIn(a, ns[k]) == 4
    ensures forall k :: 0 <= k < |ns| ==> RankIn(b, ns[k]) == 4
  {
    forall k | 0 <= k < |ns| ensures RankIn(b, ns[k]) == 4 {
      assert RankIn(a, ns[k]) <= RankIn(b, ns[k]);
    }
  }

  /** Columns CRITICAL before the last offer stay CRITICAL after it. */
  lemma CriticalSnoc(a: map<string, Level>, b: map<string, Level>, init: seq<string>, ns: seq<string>)
    requires ns != [] && init == ns[..|ns| - 1] && RanksGrow(a, b)
    requires forall k :: 0 <= k < |init| ==> RankIn(a, init[k]) == 4
    requires RankIn(b, ns[|ns| - 1]) == 4
    ensures forall k :: 0 <= k < |ns| ==> RankIn(b, ns[k]) == 4
  {
    KeepCritical(a, b, init);
    forall k | 0 <= k < |ns| ensures RankIn(b, ns[k]) == 4 {
      if k < |init| {
        assert ns[k] == init[k];
      }
    }
  }

  /** Offering the columns of `tr` keeps the invariant, and for a critical
      change leaves every one of them CRITICAL. */
  lemma {:induction false} OffersKeep(g: Lineage, ct: string, start: string, u: set<string>, st: Search,
      done: set<string>, cur: Option<string>, x: string, tr: string, ns: seq<string>)
    requires u == Universe(g, start)
    requires Sound(g, ct, start, u, st) && Complete(g, ct, start, st, done, cur)
    requires x in st.best && tr in Out(g.colToTr, x)
    requires forall k :: 0 <= k < |ns| ==> ns[k] in Out(g.trToCol, tr)
    ensures var st' := Offers(st, ns, StepSeverity(g, ct, tr));
      && Sound(g, ct, start, u, st') && Complete(g, ct, start, st', done, cur)
      && Progress(u, st, st') && RanksGrow(st.best, st'.best) && x in st'.best
      && (IsCriticalType(ct) ==> forall k :: 0 <= k < |ns| ==> RankIn(st'.best, ns[k]) == 4)
    decreases |ns|
  {
    var s := StepSeverity(g, ct, tr);
    if ns == [] {
      forall n ensures RankIn(st.best, n) <= RankIn(st.best, n) { }
    } else {
      var init := ns[..|ns| - 1];
      OffersKeep(g, ct, start, u, st, done, cur, x, tr, init);
      var mid := Offers(st, init, s);
      OfferStep(g, ct, start, u, mid, done, cur, x, tr, ns[|ns| - 1], ColumnHit);
      var st' := Offers(st, ns, s);
      RanksGrowTrans(st.best, mid.best, st'.best);
      if IsCriticalType(ct) {
        CriticalSnoc(mid.best, st'.best, init, ns);
      }
    }
  }

  /** A CRITICAL transform whose columns all became CRITICAL is closed. */
  lemma ClosedAtFrom(g: Lineage, a: map<string, Level>, b: map<string, Level>, tr: string)
    requires RanksGrow(a, b) && RankIn(a, tr) == 4
    requires forall k :: 0 <= k < |Out(g.trToCol, tr)| ==> RankIn(b, Out(g.trToCol, tr)[k]) == 4
    ensures ClosedAt(g, b, tr)
  {
    var outs := Out(g.trToCol, tr);
    assert RankIn(a, tr) <= RankIn(b, tr);
    forall c | c in outs ensures RankIn(b, c) == 4 {
      var k :| 0 <= k < |outs| && outs[k] == c;
    }
  }

  /** Visiting `tr` keeps the invariant, and for a critical change closes
      `tr`. */
  lemma VisitKeeps(g: Lineage, ct: string, start: string, u: set<string>, st: Search,
      done: set<string>, cur: Option<string>, x: string, tr: string)
    requires u == Universe(g, start)
    requires Sound(g, ct, start, u, st) && Complete(g, ct, start, st, done, cur)
    requires x in st.best && tr in Out(g.colToTr, x)
    ensures var st' := Visit(g, ct, st, tr);
      && Sound(g, ct, start, u, st') && Complete(g, ct, start, st', done, cur)
      && Progress(u, st, st') && RanksGrow(st.best, st'.best) && x in st'.best
      && (IsCriticalType(ct) ==> ClosedAt(g, st'.best, tr))
  {
    var s := StepSeverity(g, ct, tr);
    OfferStep(g, ct, start, u, st, done, cur, x, tr, tr, TransformHit);
    var first := Offer(st, tr, TransformHit, s);
    var outs := Out(g.trToCol, tr);
    OffersKeep(g, ct, start, u, first, done, cur, x, tr, outs);
    var st' := Visit(g, ct, st, tr);
    RanksGrowTrans(st.best, first.best, st'.best);
    if IsCriticalType(ct) {
      ClosedAtFrom(g, first.best, st'.best, tr);
    }
  }

  /** Visiting each of `trs` keeps the invariant, and for a critical
      change closes every one of them. */
  lemma {:induction false} ExpandKeeps(g: Lineage, ct: string, start: string, u: set<string>, st: Search,
      done: set<string>, cur: Option<string>, x: string, trs: seq<string>)
    requires u == Universe(g, start)
    requires Sound(g, ct, start, u, st) && Complete(g, ct, start, st, done, cur)
    requires x in st.best
    requires forall k :: 0 <= k < |trs| ==> trs[k] in Out(g.colToTr, x)
    ensures var st' := Expand(g, ct, st, trs);
      && Sound(g, ct, start, u, st') && Complete(g, ct, start, st', done, cur)
      && Progress(u, st, st') && RanksGrow(st.best, st'.best) && x in st'.best
      && (IsCriticalType(ct) ==> forall k :: 0 <= k < |trs| ==> ClosedAt(g, st'.best, trs[k]))
    decreases |trs|
  {
    if trs == [] {
      forall n ensures RankIn(st.best, n) <= RankIn(st.best, n) { }
    } else {
      var init := trs[..|trs| - 1];
      ExpandKeeps(g, ct, start, u, st, done, cur, x, init);
      var mid := Expand(g, ct, st, init);
      VisitKeeps(g, ct, start, u, mid, done, cur, x, trs[|trs| - 1]);
      var st' := Expand(g, ct, st, trs);
      RanksGrowTrans(st.best, mid.best, st'.best);
      if IsCriticalType(ct) {
        ClosedAtSnoc(g, mid.best, st'.best, init, trs);
      }
    }
  }

  /** Expanding `x` keeps the invariant, and for a critical change closes
      `x`. */
  lemma ExpandNodeKeeps(g: Lineage, ct: string, start: string, u: set<string>, st: Search,
      done: set<string>, x: string)
    requires u == Universe(g, start)
    requires Sound(g, ct, start, u, st) && Complete(g, ct, start, st, done, Some(x))
    requires x in st.best
    ensures var st' := Expand(g, ct, st, Out(g.colToTr, x));
      && Sound(g, ct, start, u, st') && Complete(g, ct, start, st', done, Some(x))
      && Progress(u, st, st')
      && (IsCriticalType(ct) ==> Closed(g, st'.best, x))
  {
    var trs := Out(g.colToTr, x);
    ExpandKeeps(g, ct, start, u, st, done, Some(x), x, trs);
    if IsCriticalType(ct) {
      var st' := Expand(g, ct, st, trs);
      forall tr | tr in trs ensures ClosedAt(g, st'.best, tr) {
        var k :| 0 <= k < |trs| && trs[k] == tr;
      }
    }
  }

  /** Transforms closed before the last visit stay closed after it. */
  lemma ClosedAtSnoc(g: Lineage, a: map<string, Level>, b: map<string, Level>, init: seq<string>, trs: seq<string>)
    requires trs != [] && init == trs[..|trs| - 1] && RanksGrow(a, b)
    requires forall k :: 0 <= k < |init| ==> ClosedAt(g, a, init[k])
    requires ClosedAt(g, b, trs[|trs| - 1])
    ensures forall k :: 0 <= k < |trs| ==> ClosedAt(g, b, trs[k])
  {
    ClosedAtGrows(g, a, b, init, |init|);
    forall k | 0 <= k < |trs| ensures ClosedAt(g, b, trs[k]) {
      if k < |init| {
        assert trs[k] == init[k];
      }
    }
  }

  lemma ClosedAtGrows(g: Lineage, a: map<string, Level>, b: map<string, Level>, trs: seq<string>, i: nat)
    requires RanksGrow(a, b) && i <= |trs|
    requires forall k :: 0 <= k < i ==> ClosedAt(g, a, trs[k])
    ensures forall k :: 0 <= k < i ==> ClosedAt(g, b, trs[k])
  {
    forall k | 0 <= k < i ensures ClosedAt(g, b, trs[k]) {
      assert RankIn(a, trs[k]) <= RankIn(b, trs[k]);
      forall c | c in Out(g.trToCol, trs[k]) ensures RankIn(b, c) == 4 {
        assert RankIn(a, c) <= RankIn(b, c);
      }
    }
  }

  /** Taking `x` off the front of the queue. */
  lemma PopStep(g: Lineage, ct: string, start: string, u: set<string>, st: Search, done: set<string>)
    requires st.queue != []
    requires Sound(g, ct, start, u, st) && Complete(g, ct, start, st, done, None)
    ensures var st' := st.(queue := st.queue[1..]);
      && Sound(g, ct, start, u, st') && Complete(g, ct, start, st', done, Some(st.queue[0].0))
      && st.queue[0].0 in st'.best
  {
    var st' := st.(queue := st.queue[1..]);
    assert QueueNodes(st.queue) == [st.queue[0].0] + QueueNodes(st'.queue);
  }

  /** Once `x` is expanded it joins the expanded nodes. */
  lemma FinishStep(g: Lineage, ct: string, start: string, st: Search, done: set<string>, x: string)
    requires Complete(g, ct, start, st, done, Some(x))
    requires IsCriticalType(ct) ==> Closed(g, st.best, x)
    ensures Complete(g, ct, start, st, done + {x}, None)
  {
  }

  /** With nothing left to expand, a critical change has made every node
      on a walk from `start` CRITICAL, after the first. */
  lemma {:induction false} WalkCritical(g: Lineage, ct: string, start: string, st: Search, done: set<string>,
      w: seq<string>)
    requires IsCriticalType(ct) && st.queue == []
    requires Complete(g, ct, start, st, done, None)
    requires IsWalk(g, start, w) && |w| >= 2
    ensures RankIn(st.best, w[|w| - 1]) == 4
  {
    var n := |w| - 1;
    var prev := w[n - 1];
    if n == 1 {
      assert prev == start && start in done;
    } else {
      var w' := w[..n];
      assert forall i | 0 <= i < |w'| :: w'[i] == w[i];
      WalkCritical(g, ct, start, st, done, w');
      assert prev in st.best && st.best[prev] == Critical;
    }
    assert Closed(g, st.best, prev);
    assert Next(g, prev, w[n]);
    if !(w[n] in Out(g.colToTr, prev)) {
      var tr :| tr in Out(g.colToTr, prev) && w[n] in Out(g.trToCol, tr);
      assert ClosedAt(g, st.best, tr);
    }
  }

  /** Offers only ever name nodes of the universe, so each closes a
      severity step whenever it queues. */
  lemma {:induction false} OffersProgress(u: set<string>, st: Search, ns: seq<string>, s: Level)
    requires st.best.Keys <= u && forall k :: 0 <= k < |ns| ==> ns[k] in u
    ensures var st' := Offers(st, ns, s); Progress(u, st, st') && st'.best.Keys <= u
    decreases |ns|
  {
    if ns != [] {
      var init := ns[..|ns| - 1];
      assert forall k :: 0 <= k < |init| ==> init[k] == ns[k];
      OffersProgress(u, st, init, s);
      OfferProgress(u, Offers(st, init, s), ns[|ns| - 1], ColumnHit, s);
    }
  }

  lemma VisitProgress(g: Lineage, ct: string, start: string, st: Search, tr: string)
    requires st.best.Keys <= Universe(g, start) && tr in Universe(g, start)
    ensures var st' := Visit(g, ct, st, tr);
      Progress(Universe(g, start), st, st') && st'.best.Keys <= Universe(g, start)
  {
    var u, s := Universe(g, start), StepSeverity(g, ct, tr);
    OfferProgress(u, st, tr, TransformHit, s);
    var outs := Out(g.trToCol, tr);
    forall k | 0 <= k < |outs| ensures outs[k] in u {
      OutInTargets(g.trToCol, tr, outs[k]);
    }
    OffersProgress(u, Offer(st, tr, TransformHit, s), outs, s);
  }

  lemma {:induction false} ExpandProgress(g: Lineage, ct: string, start: string, st: Search, trs: seq<string>)
    requires st.best.Keys <= Universe(g, start)
    requires forall k :: 0 <= k < |trs| ==> trs[k] in Universe(g, start)
    ensures var st' := Expand(g, ct, st, trs);
      Progress(Universe(g, start), st, st') && st'.best.Keys <= Universe(g, start)
    decreases |trs|
  {
    if trs != [] {
      var init := trs[..|trs| - 1];
      assert forall k :: 0 <= k < |init| ==> init[k] == trs[k];
      ExpandProgress(g, ct, start, st, init);
      VisitProgress(g, ct, start, Expand(g, ct, st, init), trs[|trs| - 1]);
    }
  }

  lemma FeedsInUniverse(g: Lineage, start: string, x: string)
    ensures forall k :: 0 <= k < |Out(g.colToTr, x)| ==> Out(g.colToTr, x)[k] in Universe(g, start)
  {
    var trs := Out(g.colToTr, x);
    forall k | 0 <= k < |trs| ensures trs[k] in Universe(g, start) {
      OutInTargets(g.colToTr, x, trs[k]);
    }
  }

  /** The walk from state `st` until the queue is empty (lines 34-48 of
      lineagekit/impact.py): take the front node off the queue and expand
      it. */
  function Drain(g: Lineage, ct: string, start: string, st: Search): (r: Search)
    requires st.best.Keys <= Universe(g, start)
    decreases |Headroom(Universe(g, start), st.best)|, |st.queue|
  {
    if st.queue == [] then st
    else
      var x := st.queue[0].0;
      var popped := st.(queue := st.queue[1..]);
      FeedsInUniverse(g, start, x);
      ExpandProgress(g, ct, start, popped, Out(g.colToTr, x));
      Drain(g, ct, start, Expand(g, ct, popped, Out(g.colToTr, x)))
  }

  /** The state lines 30-32 of lineagekit/impact.py start from. */
  function Initial(start: string): Search {
    Search([(start, Low)], map[start := Low], [])
  }

  /** The hits `impact_bfs` returns for the adjacency `g`. */
  function Walk(g: Lineage, start: string, ct: string): seq<Hit> {
    Drain(g, ct, start, Initial(start)).hits
  }

  /** The `while q` loop of `impact_bfs` (lineagekit/impact.py:30-51). */
  method Propagate(g: Lineage, start: string, ct: string) returns (hits: seq<Hit>)
    ensures hits == Walk(g, start, ct)
  {
    ghost var u := Universe(g, start);
    var st := Initial(start);
    while st.queue != []
      invariant st.best.Keys <= u
      invariant Drain(g, ct, start, st) == Drain(g, ct, start, Initial(start))
      decreases |Headroom(u, st.best)|, |st.queue|
    {
      var x := st.queue[0].0;
      st := st.(queue := st.queue[1..]);
      FeedsInUniverse(g, start, x);
      ExpandProgress(g, ct, start, st, Out(g.colToTr, x));
      st := ExpandNode(g, ct, st, x);
    }
    hits := st.hits;
  }

  /** The walk ends in a state that keeps the invariant with nothing left
      in the queue. */
  lemma {:induction false} DrainKeeps(g: Lineage, ct: string, start: string, st: Search, done: set<string>)
    requires Sound(g, ct, start, Universe(g, start), st) && Complete(g, ct, start, st, done, None)
    ensures var f := Drain(g, ct, start, st);
      && f.queue == [] && Sound(g, ct, start, Universe(g, start), f)
      && exists done' :: Complete(g, ct, start, f, done', None)
    decreases |Headroom(Universe(g, start), st.best)|, |st.queue|
  {
    var u := Universe(g, start);
    if st.queue == [] {
      assert Complete(g, ct, start, st, done, None);
    } else {
      var x := st.queue[0].0;
      PopStep(g, ct, start, u, st, done);
      var popped := st.(queue := st.queue[1..]);
      ExpandNodeKeeps(g, ct, start, u, popped, done, x);
      var next := Expand(g, ct, popped, Out(g.colToTr, x));
      FinishStep(g, ct, start, next, done, x);
      DrainKeeps(g, ct, start, next, done + {x});
    }
  }

  /** A hit names a node at least one step from the start. */
  lemma JustifiedReachable(g: Lineage, ct: string, start: string, h: Hit)
    requires Justified(g, ct, start, h)
    ensures ReachablePlus(g, start, h.node)
  {
    var x, tr :| && Reachable(g, start, x) && tr in Out(g.colToTr, x)
      && h.severity == StepSeverity(g, ct, tr)
      && (h.kind == TransformHit ==> h.node == tr)
      && (h.kind == ColumnHit ==> h.node in Out(g.trToCol, tr));
    var w :| IsWalk(g, start, w) && w[|w| - 1] == x;
    assert Next(g, x, h.node);
    var w' := w + [h.node];
    assert forall i | 0 <= i < |w| :: w'[i] == w[i];
    assert IsWalk(g, start, w');
  }

  /** What `impact_bfs` promises of its hits (lineagekit/impact.py:30-51):
      - hits about one node come in strictly rising severity, all above
        LOW, so a node is reported at most once per level it is raised to;
      - every hit is a transform fed by a reached node, or a column such a
        transform produces, with the severity the change carries through
        that transform, and so lies at least one step from the start;
      - for a critical change type, every node at least one step from the
        start is reported CRITICAL. */
  lemma WalkHits(g: Lineage, start: string, ct: string)
    ensures var hits := Walk(g, start, ct);
      && Rising(hits)
      && (forall i :: 0 <= i < |hits| ==> hits[i].severity != Low)
      && (forall i :: 0 <= i < |hits| ==> Justified(g, ct, start, hits[i]))
      && (forall i :: 0 <= i < |hits| ==> ReachablePlus(g, start, hits[i].node))
      && (IsCriticalType(ct) ==> forall n :: ReachablePlus(g, start, n) ==> Flagged(hits, n, Critical))
  {
    var f := WalkEnd(g, start, ct);
    forall i | 0 <= i < |f.hits| ensures ReachablePlus(g, start, f.hits[i].node) {
      JustifiedReachable(g, ct, start, f.hits[i]);
    }
    if IsCriticalType(ct) {
      var done :| Complete(g, ct, start, f, done, None);
      forall n | ReachablePlus(g, start, n) ensures Flagged(f.hits, n, Critical) {
        var w :| IsWalk(g, start, w) && |w| >= 2 && w[|w| - 1] == n;
        WalkCritical(g, ct, start, f, done, w);
        CriticalFlagged(f, n);
      }
    }
  }

  /** A node whose best severity is CRITICAL was reported CRITICAL. */
  lemma CriticalFlagged(st: Search, n: string)
    requires BestFlagged(st) && RankIn(st.best, n) == 4
    ensures Flagged(st.hits, n, Critical)
  {
    assert n in st.best && st.best[n] == Critical;
  }

  /** The state the walk ends in keeps the invariant. */
  lemma WalkEnd(g: Lineage, start: string, ct: string) returns (f: Search)
    ensures f == Drain(g, ct, start, Initial(start)) && f.queue == []
    ensures Sound(g, ct, start, Universe(g, start), f)
    ensures exists done :: Complete(g, ct, start, f, done, None)
  {
    var st := Initial(start);
    assert IsWalk(g, start, [start]);
    assert QueueNodes(st.queue) == [start];
    DrainKeeps(g, ct, start, st, {});
    f := Drain(g, ct, start, st);
  }

  /** For a critical change each node is reported once. */
  lemma CriticalOnce(g: Lineage, start: string, ct: string)
    requires IsCriticalType(ct)
    ensures var hits := Walk(g, start, ct);
      forall i, j :: 0 <= i < j < |hits| ==> hits[i].node != hits[j].node
  {
    WalkHits(g, start, ct);
    var hits := Walk(g, start, ct);
    forall i | 0 <= i < |hits| ensures hits[i].severity == Critical {
      assert Justified(g, ct, start, hits[i]);
    }
  }

  /** With no transform tagged, a change type that is not critical
      reaches nothing above LOW and so reports nothing. */
  lemma UntaggedQuiet(g: Lineage, start: string, ct: string)
    requires !IsCriticalType(ct) && forall tr :: TagsOf(g, tr) == []
    ensures Walk(g, start, ct) == []
  {
    WalkHits(g, start, ct);
    var hits := Walk(g, start, ct);
    if hits != [] {
      ghost var why := Justified(g, ct, start, hits[0]);
      assert false;
    }
  }

  /** A start that feeds no transform reports nothing. */
  lemma NoFeedsQuiet(g: Lineage, start: string, ct: string)
    requires Out(g.colToTr, start) == []
    ensures Walk(g, start, ct) == []
  {
    WalkHits(g, start, ct);
    var hits := Walk(g, start, ct);
    if hits != [] {
      var w :| IsWalk(g, start, w) && |w| >= 2 && w[|w| - 1] == hits[0].node;
      ghost var step := Next(g, w[0], w[1]);
      assert false;
    }
  }

  // ----- how often a node is reported -----

  /** The number of hits about `n`. */
  function HitCount(hits: seq<Hit>, n: string): nat {
    if hits == [] then 0
    else HitCount(hits[..|hits| - 1], n) + (if hits[|hits| - 1].node == n then 1 else 0)
  }

  /** The rank of the last hit about `n`, or LOW's rank when there is none. */
  function LastRank(hits: seq<Hit>, n: string): (r: nat)
    ensures 1 <= r <= 4
    ensures r > 1 ==> exists i :: 0 <= i < |hits| && hits[i].node == n && hits[i].severity.Rank() == r
    ensures HitCount(hits, n) > 0 ==> exists i :: 0 <= i < |hits| && hits[i].node == n && hits[i].severity.Rank() == r
  {
    if hits == [] then Low.Rank()
    else if hits[|hits| - 1].node == n then hits[|hits| - 1].severity.Rank()
    else
      var r := LastRank(hits[..|hits| - 1], n);
      assert forall i | 0 <= i < |hits| - 1 :: hits[..|hits| - 1][i] == hits[i];
      r
  }

  /** Hits in strictly rising severity above LOW: a node is reported at
      most once per level from MEDIUM to CRITICAL, so at most three
      times. */
  lemma {:induction false} AtMostThree(hits: seq<Hit>, n: string)
    requires Rising(hits) && forall i :: 0 <= i < |hits| ==> hits[i].severity != Low
    ensures HitCount(hits, n) <= LastRank(hits, n) - 1 <= 3
  {
    if hits != [] {
      var init := hits[..|hits| - 1];
      assert forall i | 0 <= i < |init| :: init[i] == hits[i];
      AtMostThree(init, n);
      var last := hits[|hits| - 1];
      if last.node == n && HitCount(init, n) > 0 {
        var i :| 0 <= i < |init| && init[i].node == n && init[i].severity.Rank() == LastRank(init, n);
        assert hits[i].severity.Rank() < last.severity.Rank();
      }
    }
  }

  // ----- one run's graph, as `impact_bfs` loads it -----

  /** `SELECT src_col_id, transform_id FROM column_to_transform_edges
      WHERE run_id=?` (lineagekit/impact.py:15), in table order. */
  function ColToTrPairs(edges: seq<ColToTransformEdge>, run: string): (r: seq<(string, string)>)
    ensures forall p :: p in r <==> exists e :: e in edges && e.runId == run && p == (e.srcColId, e.transformId)
  {
    if edges == [] then []
    else
      var last := edges[|edges| - 1];
      ColToTrPairs(edges[..|edges| - 1], run) + (if last.runId == run then [(last.srcColId, last.transformId)] else [])
  }

  /** `SELECT transform_id, dest_col_id FROM transform_to_column_edges
      WHERE run_id=?` (lineagekit/impact.py:18), in table order. */
  function TrToColPairs(edges: seq<TransformToColEdge>, run: string): (r: seq<(string, string)>)
    ensures forall p :: p in r <==> exists e :: e in edges && e.runId == run && p == (e.transformId, e.destColId)
  {
    if edges == [] then []
    else
      var last := edges[|edges| - 1];
      TrToColPairs(edges[..|edges| - 1], run) + (if last.runId == run then [(last.transformId, last.destColId)] else [])
  }

  /** The adjacency a `defaultdict(list)` holds after appending each pair's
      second part to its first part's list. */
  function Grouped(pairs: seq<(string, string)>): Adjacency {
    if pairs == [] then map[]
    else
      var m := Grouped(pairs[..|pairs| - 1]);
      var p := pairs[|pairs| - 1];
      m[p.0 := Out(m, p.0) + [p.1]]
  }

  /** The second parts of the pairs whose first part is `a`, in order. */
  function SecondsOf(pairs: seq<(string, string)>, a: string): (r: seq<string>)
    ensures forall b :: b in r <==> (a, b) in pairs
  {
    if pairs == [] then []
    else
      var p := pairs[|pairs| - 1];
      SecondsOf(pairs[..|pairs| - 1], a) + (if p.0 == a then [p.1] else [])
  }

  /** Each list of the grouped adjacency is what its key was paired with,
      in the pairs' order, and only keys that were paired are present. */
  lemma {:induction false} GroupedLists(pairs: seq<(string, string)>, a: string)
    ensures Out(Grouped(pairs), a) == SecondsOf(pairs, a)
    ensures a in Grouped(pairs) <==> exists b :: (a, b) in pairs
  {
    if pairs != [] {
      var init := pairs[..|pairs| - 1];
      GroupedLists(init, a);
      var p := pairs[|pairs| - 1];
      if a in Grouped(pairs) && a != p.0 {
        var b :| (a, b) in init;
        assert (a, b) in pairs;
      }
    }
  }

  /** The `for c, t in cur.fetchall(): col_to_tr[c].append(t)` loops
      (lineagekit/impact.py:16-20). */
  method Group(pairs: seq<(string, string)>) returns (m: Adjacency)
    ensures m == Grouped(pairs)
  {
    m := map[];
    for i := 0 to |pairs|
      invariant m == Grouped(pairs[..i])
    {
      assert pairs[..i + 1][..i] == pairs[..i];
      var (a, b) := pairs[i];
      m := m[a := Out(m, a) + [b]];
    }
    assert pairs[..|pairs|] == pairs;
  }

  /** The ids of the run's transforms. */
  function RunTransforms(transforms: seq<TransformNode>, run: string): set<string> {
    set i | 0 <= i < |transforms| && transforms[i].runId == run :: transforms[i].id
  }

  /** `tr_tags` after lines 22-28 of lineagekit/impact.py. */
  function LoadedTags(transforms: seq<TransformNode>, run: string): (tags: map<string, seq<string>>)
    ensures forall tr :: tr in tags <==> tr in RunTransforms(transforms, run)
  {
    map tr | tr in RunTransforms(transforms, run) :: []
  }

  /** Lines 22-28 of lineagekit/impact.py: every transform of the run gets
      the empty tag list, so no transform is ever tagged. */
  method LoadTags(transforms: seq<TransformNode>, run: string) returns (tags: map<string, seq<string>>)
    ensures tags == LoadedTags(transforms, run)
    ensures tags.Keys == RunTransforms(transforms, run)
    ensures forall tr :: tr in tags ==> tags[tr] == []
  {
    tags := map[];
    for i := 0 to |transforms|
      invariant tags.Keys == RunTransforms(transforms[..i], run)
      invariant forall tr :: tr in tags ==> tags[tr] == []
    {
      assert forall k | 0 <= k < i :: transforms[..i + 1][k] == transforms[..i][k];
      if transforms[i].runId == run {
        tags := tags[transforms[i].id := []];
      }
      assert RunTransforms(transforms[..i + 1], run) ==
        RunTransforms(transforms[..i], run) + (if transforms[i].runId == run then {transforms[i].id} else {});
    }
    assert transforms[..|transforms|] == transforms;
  }

  /** The graph `impact_bfs` walks for `run`. */
  function RunGraph(colEdges: seq<ColToTransformEdge>, trEdges: seq<TransformToColEdge>,
      tags: map<string, seq<string>>, run: string): Lineage
  {
    Lineage(Grouped(ColToTrPairs(colEdges, run)), Grouped(TrToColPairs(trEdges, run)), tags)
  }

  /** The walk's steps are exactly the run's edges. */
  lemma RunGraphEdges(colEdges: seq<ColToTransformEdge>, trEdges: seq<TransformToColEdge>,
      tags: map<string, seq<string>>, run: string, a: string, b: string)
    ensures var g := RunGraph(colEdges, trEdges, tags, run);
      && (b in Out(g.colToTr, a) <==> exists e :: e in colEdges && e.runId == run && e.srcColId == a && e.transformId == b)
      && (b in Out(g.trToCol, a) <==> exists e :: e in trEdges && e.runId == run && e.transformId == a && e.destColId == b)
  {
    GroupedLists(ColToTrPairs(colEdges, run), a);
    GroupedLists(TrToColPairs(trEdges, run), a);
  }

  /** `impact_bfs(db, run_id, start_col_id, change_type)`
      (lineagekit/impact.py:11-51), with the run's tables given as row
      sequences. */
  method ImpactBfs(colEdges: seq<ColToTransformEdge>, trEdges: seq<TransformToColEdge>,
      transforms: seq<TransformNode>, run: string, start: string, ct: string)
    returns (hits: seq<Hit>)
    ensures hits == Walk(RunGraph(colEdges, trEdges, LoadedTags(transforms, run), run), start, ct)
  {
    var colToTr := Group(ColToTrPairs(colEdges, run));
    var trToCol := Group(TrToColPairs(trEdges, run));
    var tags := LoadTags(transforms, run);
    var g := Lineage(colToTr, trToCol, tags);
    hits := Propagate(g, start, ct);
  }

  /** No transform of a run's graph is tagged. */
  lemma RunGraphUntagged(colEdges: seq<ColToTransformEdge>, trEdges: seq<TransformToColEdge>,
      transforms: seq<TransformNode>, run: string)
    ensures forall tr :: TagsOf(RunGraph(colEdges, trEdges, LoadedTags(transforms, run), run), tr) == []
  {
  }

  /** The hits of `impact_bfs` for one run: a change type other than
      schema_drop/type_change reports nothing, because no transform is
      tagged; a critical one reports every node at least one step from the
      start, each exactly once and CRITICAL; no node is reported more than
      three times; and a start with no column-to-transform edge in the run
      reports nothing. */
  lemma RunImpact(colEdges: seq<ColToTransformEdge>, trEdges: seq<TransformToColEdge>,
      transforms: seq<TransformNode>, run: string, start: string, ct: string)
    ensures var g := RunGraph(colEdges, trEdges, LoadedTags(transforms, run), run);
      var hits := Walk(g, start, ct);
      && (!IsCriticalType(ct) ==> hits == [])
      && (IsCriticalType(ct) ==>
            && (forall i :: 0 <= i < |hits| ==> hits[i].severity == Critical)
            && (forall i, j :: 0 <= i < j < |hits| ==> hits[i].node != hits[j].node)
            && (forall n :: ReachablePlus(g, start, n) ==> Flagged(hits, n, Critical)))
      && (forall n :: HitCount(hits, n) <= 3)
      && ((forall e :: e in colEdges && e.runId == run ==> e.srcColId != start) ==> hits == [])
  {
    var g := RunGraph(colEdges, trEdges, LoadedTags(transforms, run), run);
    var hits := Walk(g, start, ct);
    assert !IsCriticalType(ct) ==> hits == [] by {
      if !IsCriticalType(ct) {
        RunGraphUntagged(colEdges, trEdges, transforms, run);
        UntaggedQuiet(g, start, ct);
      }
    }
    assert IsCriticalType(ct) ==>
      && (forall i :: 0 <= i < |hits| ==> hits[i].severity == Critical)
      && (forall i, j :: 0 <= i < j < |hits| ==> hits[i].node != hits[j].node)
      && (forall n :: ReachablePlus(g, start, n) ==> Flagged(hits, n, Critical))
    by {
      if IsCriticalType(ct) {
        WalkHits(g, start, ct);
        CriticalOnce(g, start, ct);
        forall i | 0 <= i < |hits| ensures hits[i].severity == Critical {
          assert Justified(g, ct, start, hits[i]);
        }
      }
    }
    assert forall n :: HitCount(hits, n) <= 3 by {
      WalkHits(g, start, ct);
      forall n ensures HitCount(hits, n) <= 3 {
        AtMostThree(hits, n);
      }
    }
    if forall e :: e in colEdges && e.runId == run ==> e.srcColId != start {
      if Out(g.colToTr, start) != [] {
        RunGraphEdges(colEdges, trEdges, LoadedTags(transforms, run), run, start, Out(g.colToTr, start)[0]);
      }
      NoFeedsQuiet(g, start, ct);
    }
  }
}
